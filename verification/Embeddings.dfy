/** Embedding vectors: unit vectors of one dimension, compared by their dot product. */
module Embeddings {
  import opened Common

  type Vector = seq<real>

  function Dot(a: Vector, b: Vector): real
    requires |a| == |b|
  {
    if a == [] then 0.0 else Dot(a[..|a| - 1], b[..|b| - 1]) + a[|a| - 1] * b[|b| - 1]
  }

  method CosineSimilarity(a: Vector, b: Vector) returns (dot: real)
    requires |a| == |b|
    ensures dot == Dot(a, b)
  {
    dot := 0.0;
    for i := 0 to |a|
      invariant dot == Dot(a[..i], b[..i])
    {
      assert a[..i + 1][..i] == a[..i] && b[..i + 1][..i] == b[..i];
      dot := dot + a[i] * b[i];
    }
    assert a[..|a|] == a && b[..|b|] == b;
  }

  predicate IsUnit(v: Vector, dimension: nat) {
    |v| == dimension && Dot(v, v) == 1.0
  }

  function Square(x: real): real {
    Product(x, x)
  }

  /** The squared length of `a - b`, or of `a + b`. */
  function Spread(a: Vector, b: Vector, sum: bool): real
    requires |a| == |b|
  {
    if a == [] then 0.0
    else
      var x, y := a[|a| - 1], b[|b| - 1];
      Spread(a[..|a| - 1], b[..|b| - 1], sum) + Square(if sum then x + y else x - y)
  }

  lemma SquareExpands(x: real, y: real)
    ensures Square(x - y) == x * x + y * y - 2.0 * (x * y)
    ensures Square(x + y) == x * x + y * y + 2.0 * (x * y)
  {
  }

  lemma {:induction false} SpreadExpands(a: Vector, b: Vector, sum: bool)
    requires |a| == |b|
    ensures Spread(a, b, sum) == Dot(a, a) + Dot(b, b) + 2.0 * if sum then Dot(a, b) else -Dot(a, b)
  {
    if a != [] {
      var n := |a| - 1;
      SpreadExpands(a[..n], b[..n], sum);
      SquareExpands(a[n], b[n]);
    }
  }

  lemma SquareIsPositive(d: real)
    ensures Square(d) >= 0.0
    ensures Square(d) == 0.0 ==> d == 0.0
  {
    if d != 0.0 {
      SameSigns(d, d);
    }
  }

  lemma {:induction false} SpreadIsPositive(a: Vector, b: Vector, sum: bool)
    requires |a| == |b|
    ensures Spread(a, b, sum) >= 0.0
    ensures !sum ==> (Spread(a, b, sum) == 0.0 <==> a == b)
  {
    if a != [] {
      var n := |a| - 1;
      SpreadIsPositive(a[..n], b[..n], sum);
      SquareIsPositive(if sum then a[n] + b[n] else a[n] - b[n]);
      assert a == a[..n] + [a[n]] && b == b[..n] + [b[n]];
    }
  }

  /** Two unit vectors have a similarity between -1 and 1, and 1 only if they are equal. */
  lemma UnitVectorsCompare(a: Vector, b: Vector, dimension: nat)
    requires IsUnit(a, dimension) && IsUnit(b, dimension)
    ensures -1.0 <= Dot(a, b) <= 1.0
    ensures Dot(a, b) == 1.0 <==> a == b
  {
    SpreadExpands(a, b, false);
    SpreadIsPositive(a, b, false);
    SpreadExpands(a, b, true);
    SpreadIsPositive(a, b, true);
  }

  type Embedder = string -> Vector

  /** The embedder gives every text a unit vector of the same dimension. */
  ghost predicate Normalizes(embed: Embedder, dimension: nat) {
    forall text :: IsUnit(embed(text), dimension)
  }

  method EmbedTexts(texts: seq<string>, embed: Embedder) returns (vectors: seq<Vector>)
    ensures |vectors| == |texts| && forall i :: 0 <= i < |texts| ==> vectors[i] == embed(texts[i])
  {
    vectors := [];
    for i := 0 to |texts|
      invariant |vectors| == i && forall k :: 0 <= k < i ==> vectors[k] == embed(texts[k])
    {
      vectors := vectors + [embed(texts[i])];
    }
  }
}
