/** What more than one component needs: the optional value, and a few facts about sets of indices. */
module Common {

  datatype Option<+T> = None | Some(value: T)

  /** One fiscal year's value of a figure: a row of what the annual query returns, and what the scores work on. */
  datatype AnnualValue = AnnualValue(fiscalYear: int, value: real)

  lemma Member<T>(s: set<T>) returns (x: T)
    requires s != {}
    ensures x in s
  {
    x :| x in s;
  }

  /** A set of integers between two bounds has no more members than the bounds leave room for. */
  lemma {:induction false} IntervalCardinality(s: set<int>, low: int, high: int)
    requires forall i :: i in s ==> low <= i <= high
    requires low <= high + 1
    ensures |s| <= high - low + 1
    decreases high - low + 1
  {
    if s != {} {
      var x := Member(s);
      assert low <= x <= high;
      IntervalCardinality(s - {high}, low, high - 1);
      if high in s {
        assert s == (s - {high}) + {high};
      } else {
        assert s == s - {high};
      }
    }
  }

  lemma {:induction false} SubsetIsNoLarger(a: set<int>, b: set<int>)
    requires a <= b
    ensures |a| <= |b|
  {
    if a != {} {
      var x := Member(a);
      SubsetIsNoLarger(a - {x}, b - {x});
    }
  }

  lemma Associates<T>(a: seq<T>, b: seq<T>, c: seq<T>)
    ensures a + (b + c) == (a + b) + c
  {
  }

  lemma SplitLast<T>(s: seq<T>)
    requires s != []
    ensures s == s[..|s| - 1] + [s[|s| - 1]]
  {
  }

  lemma SplitFirst<T>(s: seq<T>)
    requires s != []
    ensures s == [s[0]] + s[1..]
  {
  }

  lemma OneFurther<T>(s: seq<T>, i: nat)
    requires i < |s|
    ensures s[..i + 1] == s[..i] + [s[i]] && s[..i + 1][..i] == s[..i]
  {
  }

  lemma WholePrefix<T>(s: seq<T>)
    ensures s[..|s|] == s
  {
  }

  lemma WithoutLast<T>(s: seq<T>, x: T)
    ensures (s + [x])[..|s|] == s
  {
  }

  /** The elements of a list at some increasing positions. */
  ghost predicate Picks<T>(s: seq<T>, at: seq<nat>, r: seq<T>) {
    && |at| == |r|
    && (forall k :: 0 <= k < |r| ==> at[k] < |s| && r[k] == s[at[k]])
    && (forall j, k :: 0 <= j < k < |at| ==> at[j] < at[k])
  }

  /** The same elements after one more in front. */
  lemma PicksBehind<T>(x: T, s: seq<T>, at: seq<nat>, r: seq<T>) returns (later: seq<nat>)
    requires Picks(s, at, r)
    ensures Picks([x] + s, later, r)
    ensures forall n :: n in later <==> n > 0 && n - 1 in at
  {
    later := seq(|at|, k requires 0 <= k < |at| => at[k] + 1);
    forall n | n > 0 && n - 1 in at
      ensures n in later
    {
      var k :| 0 <= k < |at| && at[k] == n - 1;
      assert later[k] == n;
    }
  }

  /** And with the one in front. */
  lemma PicksWithFirst<T>(x: T, s: seq<T>, at: seq<nat>, r: seq<T>) returns (all: seq<nat>)
    requires Picks(s, at, r)
    ensures Picks([x] + s, all, [x] + r)
    ensures forall n :: n in all <==> n == 0 || (n > 0 && n - 1 in at)
  {
    var later := PicksBehind(x, s, at, r);
    all := [0] + later;
    forall k | 0 < k < |all|
      ensures all[k] > 0 && all[k] <= |s| && ([x] + r)[k] == ([x] + s)[all[k]]
    {
      assert all[k] == later[k - 1] && later[k - 1] in later;
    }
  }

  /** One more element at the end, passed over. */
  lemma PicksBefore<T>(s: seq<T>, at: seq<nat>, r: seq<T>, x: T)
    requires Picks(s, at, r)
    ensures Picks(s + [x], at, r)
    ensures |s| !in at
  {
  }

  /** And taken. */
  lemma PicksWithLast<T>(s: seq<T>, at: seq<nat>, r: seq<T>, x: T)
    requires Picks(s, at, r)
    ensures Picks(s + [x], at + [|s|], r + [x])
    ensures |s| in at + [|s|] && |s| !in at
  {
    assert (at + [|s|])[|at|] == |s|;
  }

  /** `r` is what is left of `s` when some elements are left out. */
  ghost predicate Subsequence<T>(r: seq<T>, s: seq<T>) {
    exists at: seq<nat> :: Picks(s, at, r)
  }

  lemma SubsequenceOfSelf<T>(s: seq<T>)
    ensures Subsequence(s, s)
  {
    var at := seq(|s|, k requires 0 <= k < |s| => k as nat);
    assert Picks(s, at, s);
  }

  lemma EmptySubsequence<T>(s: seq<T>)
    ensures Subsequence([], s)
  {
    assert Picks(s, [], []);
  }

  lemma SubsequenceBehind<T>(r: seq<T>, s: seq<T>, t: seq<T>)
    requires Subsequence(r, t)
    ensures Subsequence(r, s + t)
  {
    EmptySubsequence(s);
    SubsequencesConcat([], s, r, t);
    assert [] + r == r;
  }

  lemma SubsequencesConcat<T>(r: seq<T>, s: seq<T>, q: seq<T>, t: seq<T>)
    requires Subsequence(r, s) && Subsequence(q, t)
    ensures Subsequence(r + q, s + t)
  {
    var a: seq<nat> :| Picks(s, a, r);
    var b: seq<nat> :| Picks(t, b, q);
    var at := a + seq(|b|, k requires 0 <= k < |b| => |s| + b[k]);
    forall k | 0 <= k < |r + q|
      ensures at[k] < |s + t| && (r + q)[k] == (s + t)[at[k]]
    {
      assert k >= |a| ==> at[k] == |s| + b[k - |a|];
    }
    assert Picks(s + t, at, r + q);
  }

  /** The concatenation of some lists. */
  function Flatten<T>(lists: seq<seq<T>>): seq<T> {
    if lists == [] then [] else Flatten(lists[..|lists| - 1]) + lists[|lists| - 1]
  }

  lemma {:induction false} FlattenConcat<T>(a: seq<seq<T>>, b: seq<seq<T>>)
    ensures Flatten(a + b) == Flatten(a) + Flatten(b)
    decreases |b|
  {
    if b == [] {
      assert a + b == a;
    } else {
      var n := |b| - 1;
      FlattenConcat(a, b[..n]);
      assert (a + b)[..|a + b| - 1] == a + b[..n];
      Associates(Flatten(a), Flatten(b[..n]), b[n]);
    }
  }

  lemma FlattenOne<T>(x: seq<T>)
    ensures Flatten([x]) == x
  {
    assert [x][..0] == [];
  }

  lemma FlattenOneMore<T>(a: seq<seq<T>>, x: seq<T>)
    ensures Flatten(a + [x]) == Flatten(a) + x
  {
    assert (a + [x])[..|a|] == a;
  }

  function Product(x: real, y: real): real {
    x * y
  }

  lemma SameSigns(x: real, y: real)
    requires (x > 0.0 && y > 0.0) || (x < 0.0 && y < 0.0)
    ensures Product(x, y) > 0.0
  {
  }

  /** A positive factor keeps the sign. */
  lemma SignOfProduct(k: real, x: real)
    requires k > 0.0
    ensures Product(k, x) > 0.0 <==> x > 0.0
    ensures Product(k, x) == 0.0 <==> x == 0.0
  {
    if x > 0.0 {
      SameSigns(k, x);
    } else if x < 0.0 {
      SameSigns(k, -x);
      assert Product(k, -x) == -Product(k, x);
    }
  }

  lemma ProductOfDifference(k: real, a: real, b: real)
    ensures Product(k, a - b) == Product(k, a) - Product(k, b)
  {
  }
}
