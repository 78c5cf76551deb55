/** Strings as the text code handles them: whitespace, trimming, joining, and what is left without whitespace. */
module Text {
  import opened Common

  /** What `trim` strips and `\s` matches. */
  predicate IsSpace(c: char) {
    || '\t' <= c <= '\r' || c == ' ' || c == '\U{A0}' || c == '\U{1680}' || '\U{2000}' <= c <= '\U{200A}'
    || c == '\U{2028}' || c == '\U{2029}' || c == '\U{202F}' || c == '\U{205F}' || c == '\U{3000}' || c == '\U{FEFF}'
  }

  /** Some that are and, next to them, some that are not. */
  lemma KnownSpaces()
    ensures forall c :: c in " \t\r\n\U{0B}\U{0C}\U{A0}\U{1680}\U{2000}\U{200A}" ==> IsSpace(c)
    ensures forall c :: c in "\U{2028}\U{2029}\U{202F}\U{205F}\U{3000}\U{FEFF}" ==> IsSpace(c)
    ensures forall c :: c in "a09.|-\U{08}\U{0E}\U{1F}\U{85}\U{180E}\U{200B}\U{2060}" ==> !IsSpace(c)
  {
  }

  predicate HasSpace(s: string) {
    exists i :: 0 <= i < |s| && IsSpace(s[i])
  }

  predicate AllSpace(s: string) {
    forall i :: 0 <= i < |s| ==> IsSpace(s[i])
  }

  predicate EndsInInk(s: string) {
    s != "" && !IsSpace(s[|s| - 1])
  }

  function TrimStart(s: string): string {
    if s == "" || !IsSpace(s[0]) then s else TrimStart(s[1..])
  }

  function TrimEnd(s: string): string {
    if s == "" || !IsSpace(s[|s| - 1]) then s else TrimEnd(s[..|s| - 1])
  }

  function Trim(s: string): string {
    TrimEnd(TrimStart(s))
  }

  /** The string without its whitespace. */
  function Ink(s: string): string {
    if s == "" then "" else Ink(s[..|s| - 1]) + if IsSpace(s[|s| - 1]) then "" else [s[|s| - 1]]
  }

  /** Exactly the characters that are no whitespace, in order. */
  lemma {:induction false} InkMeans(s: string) returns (at: seq<nat>)
    ensures Picks(s, at, Ink(s))
    ensures forall i: nat :: i < |s| ==> (i in at <==> !IsSpace(s[i]))
  {
    if s == "" {
      at := [];
    } else {
      var n := |s| - 1;
      at := InkMeans(s[..n]);
      SplitLast(s);
      if IsSpace(s[n]) {
        PicksBefore(s[..n], at, Ink(s[..n]), s[n]);
        assert Ink(s[..n]) + "" == Ink(s[..n]);
      } else {
        PicksWithLast(s[..n], at, Ink(s[..n]), s[n]);
        at := at + [n];
      }
      assert forall i :: 0 <= i < n ==> s[..n][i] == s[i];
    }
  }

  lemma {:induction false} InkConcat(a: string, b: string)
    ensures Ink(a + b) == Ink(a) + Ink(b)
    decreases |b|
  {
    if b == "" {
      assert a + b == a;
    } else {
      var n := |b| - 1;
      InkConcat(a, b[..n]);
      assert (a + b)[..|a + b| - 1] == a + b[..n];
      Associates(Ink(a), Ink(b[..n]), if IsSpace(b[n]) then "" else [b[n]]);
    }
  }

  lemma InkFromFront(s: string)
    requires s != ""
    ensures Ink(s) == (if IsSpace(s[0]) then "" else [s[0]]) + Ink(s[1..])
  {
    InkConcat([s[0]], s[1..]);
    assert s == [s[0]] + s[1..];
    assert [s[0]][..0] == "";
  }

  lemma {:induction false} InkOfSpace(s: string)
    ensures Ink(s) == "" <==> AllSpace(s)
  {
    if s != "" {
      InkOfSpace(s[..|s| - 1]);
    }
  }

  lemma SpacesConcat(a: string, b: string)
    requires AllSpace(a) && AllSpace(b)
    ensures AllSpace(a + b)
  {
  }

  /** `a` is what is stripped. */
  lemma {:induction false} TrimStartMeans(s: string) returns (a: string)
    ensures s == a + TrimStart(s) && AllSpace(a)
    ensures TrimStart(s) == "" || !IsSpace(TrimStart(s)[0])
  {
    if s == "" || !IsSpace(s[0]) {
      a := "";
    } else {
      var rest := TrimStartMeans(s[1..]);
      a := [s[0]] + rest;
      SpacesConcat([s[0]], rest);
      SplitFirst(s);
      Associates([s[0]], rest, TrimStart(s));
    }
  }

  lemma {:induction false} TrimEndMeans(s: string) returns (b: string)
    ensures s == TrimEnd(s) + b && AllSpace(b)
    ensures TrimEnd(s) == "" || EndsInInk(TrimEnd(s))
  {
    if s == "" || !IsSpace(s[|s| - 1]) {
      b := "";
    } else {
      var n := |s| - 1;
      var rest := TrimEndMeans(s[..n]);
      b := rest + [s[n]];
      SpacesConcat(rest, [s[n]]);
      SplitLast(s);
      Associates(TrimEnd(s), rest, [s[n]]);
    }
  }

  /** `t` is `s` without some outer whitespace, and has none left itself. */
  ghost predicate IsTrimOf(t: string, s: string) {
    && (exists a, b :: s == a + t + b && AllSpace(a) && AllSpace(b))
    && (t == "" || (!IsSpace(t[0]) && EndsInInk(t)))
  }

  lemma TrimMeans(s: string)
    ensures IsTrimOf(Trim(s), s) && |Trim(s)| <= |s|
    ensures Ink(Trim(s)) == Ink(s)
    ensures Trim(s) == "" <==> Ink(s) == ""
  {
    var u, t := TrimStart(s), Trim(s);
    var a := TrimStartMeans(s);
    var b := TrimEndMeans(u);
    assert s == a + t + b && |s| == |a| + |t| + |b|;
    assert t != "" ==> t[0] == u[0];
    InkConcat(a + t, b);
    InkConcat(a, t);
    InkOfSpace(a);
    InkOfSpace(b);
    if t != "" {
      InkOfSpace(t);
      assert !IsSpace(t[0]);
    }
  }

  /** The strings with a separator between them. */
  function Joined(strings: seq<string>, separator: string): string {
    if strings == [] then ""
    else if |strings| == 1 then strings[0]
    else Joined(strings[..|strings| - 1], separator) + (separator + strings[|strings| - 1])
  }

  lemma JoinedOneMore(a: seq<string>, x: string, separator: string)
    requires a != []
    ensures Joined(a + [x], separator) == Joined(a, separator) + (separator + x)
  {
    assert (a + [x])[..|a|] == a;
  }

  lemma {:induction false} JoinedConcat(a: seq<string>, b: seq<string>, separator: string)
    requires a != [] && b != []
    ensures Joined(a + b, separator) == Joined(a, separator) + (separator + Joined(b, separator))
    decreases |b|
  {
    var n := |b| - 1;
    var x, y := Joined(a, separator), Joined(b[..n], separator);
    if n == 0 {
      assert b == [b[0]];
      JoinedOneMore(a, b[0], separator);
    } else {
      JoinedConcat(a, b[..n], separator);
      assert a + b == (a + b[..n]) + [b[n]] && b == b[..n] + [b[n]];
      JoinedOneMore(a + b[..n], b[n], separator);
      JoinedOneMore(b[..n], b[n], separator);
      Associates(x, separator + y, separator + b[n]);
      Associates(separator, y, separator + b[n]);
    }
  }

  /** Joining in groups and then joining the groups is joining everything. */
  lemma {:induction false} JoinedGroups(groups: seq<seq<string>>, separator: string)
    requires forall i :: 0 <= i < |groups| ==> groups[i] != []
    ensures Joined(Pieces(groups, separator), separator) == Joined(Flatten(groups), separator)
    ensures groups != [] ==> Flatten(groups) != []
  {
    if groups != [] {
      var n := |groups| - 1;
      JoinedGroups(groups[..n], separator);
      assert Pieces(groups, separator)[..n] == Pieces(groups[..n], separator);
      if n > 0 {
        JoinedConcat(Flatten(groups[..n]), groups[n], separator);
      } else {
        assert Flatten(groups) == groups[0];
      }
    }
  }

  function Pieces(groups: seq<seq<string>>, separator: string): (p: seq<string>)
    ensures |p| == |groups| && forall i :: 0 <= i < |p| ==> p[i] == Joined(groups[i], separator)
  {
    seq(|groups|, i requires 0 <= i < |groups| => Joined(groups[i], separator))
  }

  lemma {:induction false} InkOfJoined(strings: seq<string>)
    ensures Ink(Joined(strings, " ")) == Ink(Flatten(strings))
  {
    if strings != [] {
      var n := |strings| - 1;
      InkOfJoined(strings[..n]);
      InkConcat(Flatten(strings[..n]), strings[n]);
      if n > 0 {
        InkConcat(Joined(strings[..n], " "), " " + strings[n]);
        InkFromFront(" " + strings[n]);
        assert (" " + strings[n])[1..] == strings[n];
      } else {
        assert Flatten(strings) == strings[0];
      }
    }
  }
}
