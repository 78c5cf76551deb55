/** There is only one way to cut a text that the chunker's contract allows. */
module ChunksDetermined {
  import opened Common
  import opened Text
  import opened Sentences
  import opened Chunking

  // Long pieces.

  lemma FlattenFirst<T>(lists: seq<seq<T>>)
    requires lists != []
    ensures Flatten(lists) == lists[0] + Flatten(lists[1..])
  {
    FlattenConcat([lists[0]], lists[1..]);
    FlattenOne(lists[0]);
    assert lists == [lists[0]] + lists[1..];
  }

  /** Two ways to go on from the same point: their first lists start alike, and what follows the shorter is in both. */
  lemma FirstListsCompare<T>(a: seq<seq<T>>, b: seq<seq<T>>)
    requires a != [] && b != [] && Flatten(a) == Flatten(b) && |a[0]| <= |b[0]|
    ensures a[0] == b[0][..|a[0]|] && Flatten(a[1..]) == b[0][|a[0]|..] + Flatten(b[1..])
  {
    FlattenFirst(a);
    FlattenFirst(b);
    var all, k := Flatten(a), |a[0]|;
    assert a[0] == all[..k] && b[0][..k] == all[..k];
    assert Flatten(a[1..]) == all[k..] && all[k..] == b[0][k..] + Flatten(b[1..]);
  }

  lemma StartIsNoLonger(group: seq<string>, k: nat)
    requires k < |group|
    ensures |Flatten(group[..k])| + |group[k]| <= |Flatten(group)|
    decreases |group|
  {
    var n := |group| - 1;
    if k < n {
      StartIsNoLonger(group[..n], k);
      assert group[..n][..k] == group[..k];
    }
  }

  /** A full group cannot be a proper start of one that fits. */
  lemma NoShorterGroup(a: seq<seq<string>>, b: seq<seq<string>>)
    requires Packed(a) && Packed(b) && a != [] && b != [] && Flatten(a) == Flatten(b)
    ensures |a[0]| >= |b[0]|
  {
    assert Fits(b[0]);
    if |a[0]| < |b[0]| {
      var k := |a[0]|;
      FirstListsCompare(a, b);
      assert Flatten(a[1..]) != [];
      assert Full(a[0], a[1]);
      FlattenFirst(a[1..]);
      assert Flatten(a[1..])[0] == a[1][0] && b[0][k..][0] == b[0][k];
      StartIsNoLonger(b[0], k);
    }
  }

  lemma PackedEmpty(a: seq<seq<string>>)
    requires Packed(a)
    ensures a == [] <==> Flatten(a) == []
  {
    if a != [] {
      assert Fits(a[0]);
      FlattenFirst(a);
    }
  }

  lemma {:induction false} PackedIsUnique(a: seq<seq<string>>, b: seq<seq<string>>)
    requires Packed(a) && Packed(b) && Flatten(a) == Flatten(b)
    ensures a == b
    decreases |a|
  {
    PackedEmpty(a);
    PackedEmpty(b);
    if a != [] {
      NoShorterGroup(a, b);
      NoShorterGroup(b, a);
      FirstListsCompare(a, b);
      assert b[0][|a[0]|..] == [] && b[0][..|b[0]|] == b[0];
      assert [] + Flatten(b[1..]) == Flatten(b[1..]);
      RestIsPacked(a);
      RestIsPacked(b);
      PackedIsUnique(a[1..], b[1..]);
      assert a == [a[0]] + a[1..] && b == [b[0]] + b[1..];
    }
  }

  lemma RestIsPacked(a: seq<seq<string>>)
    requires Packed(a) && a != []
    ensures Packed(a[1..])
  {
    forall i, j | 0 <= i < |a[1..]| && j == i + 1 < |a[1..]|
      ensures Full(a[1..][i], a[1..][j])
    {
      assert Full(a[i + 1], a[j + 1]);
    }
  }

  lemma CutIsUnique(a: seq<string>, b: seq<string>, piece: string)
    requires IsCutOf(a, piece) && IsCutOf(b, piece)
    ensures a == b
  {
    if |piece| > MAX_CHUNK_CHARS {
      var g :| Packed(g) && Flatten(g) == SentencesOf(piece) && a == Trimmed(g);
      var h :| Packed(h) && Flatten(h) == SentencesOf(piece) && b == Trimmed(h);
      PackedIsUnique(g, h);
    }
  }

  lemma {:induction false} CutsAreUnique(a: seq<seq<string>>, b: seq<seq<string>>, merged: seq<string>)
    requires AreCutsOf(a, merged) && AreCutsOf(b, merged)
    ensures a == b
  {
    if a != [] {
      var n := |a| - 1;
      CutsAreUnique(a[..n], b[..n], merged[..n]);
      CutIsUnique(a[n], b[n], merged[n]);
      assert a == a[..n] + [a[n]] && b == b[..n] + [b[n]];
    }
  }

  // Short lines.

  lemma MergedStart(group: seq<string>, k: nat)
    requires 0 < k <= |group|
    ensures |Merged(group[..k])| <= |Merged(group)|
    decreases |group|
  {
    var n := |group| - 1;
    if k <= n {
      MergedStart(group[..n], k);
      assert group[..n][..k] == group[..k];
      MergedIsLonger(group[..n], group[n]);
      assert group == group[..n] + [group[n]];
    } else {
      assert group[..k] == group;
    }
  }

  lemma LongEnoughEarlier(lines: seq<string>, j: nat, k: nat)
    requires j < k <= |lines| && JustLongEnough(lines[..j])
    ensures !JustLongEnough(lines[..k])
  {
    MergedStart(lines[..k - 1], j);
    assert lines[..k - 1][..j] == lines[..j] && lines[..k][..k - 1] == lines[..k - 1];
  }

  /** Just long enough is reached at one line only. */
  lemma OneLengthSuffices(lines: seq<string>, j: nat, k: nat)
    requires j <= |lines| && k <= |lines| && JustLongEnough(lines[..j]) && JustLongEnough(lines[..k])
    ensures j == k
  {
    if j < k {
      LongEnoughEarlier(lines, j, k);
    } else if k < j {
      LongEnoughEarlier(lines, k, j);
    }
  }

  /** Where the first group becomes long enough, if it does. */
  lemma FirstLength(lines: seq<string>, groups: seq<seq<string>>) returns (k: nat)
    requires MergeGroups(lines, groups) && groups != []
    ensures k <= |groups[0]| <= |lines| && groups[0] == lines[..|groups[0]|]
    ensures k == 0 ==> |groups| == 1 && |Merged(lines)| < MIN_CHUNK_CHARS
    ensures k > 0 ==> JustLongEnough(lines[..k])
    ensures |groups| == 1 && k > 0 ==> |Merged(lines[k..])| < MIN_CHUNK_CHARS
    ensures |groups| > 1 ==> k == |groups[0]| && |Merged(lines[k..])| >= MIN_CHUNK_CHARS
  {
    FlattenFirst(groups);
    var g := groups[0];
    assert g == lines[..|g|];
    if |groups| > 1 {
      k := |g|;
      if |groups| == 2 {
        LongWithRest(groups[1]);
      }
      SecondIsLong(groups);
      assert lines[k..] == Flatten(groups[1..]);
    } else {
      assert groups == [g] && g == lines;
      if JustLongEnoughWithRest(g) {
        k :| 0 < k <= |g| && JustLongEnough(g[..k]) && |Merged(g[k..])| < MIN_CHUNK_CHARS;
      } else {
        k := 0;
      }
    }
  }

  lemma SecondIsLong(groups: seq<seq<string>>)
    requires |groups| > 1 && groups[1] != [] && |Merged(groups[1])| >= MIN_CHUNK_CHARS
    ensures |Merged(Flatten(groups[1..]))| >= MIN_CHUNK_CHARS
  {
    var rest := Flatten(groups[1..]);
    FlattenFirst(groups[1..]);
    MergedStart(rest, |groups[1]|);
    assert rest[..|groups[1]|] == groups[1];
  }

  lemma RestMerges(lines: seq<string>, groups: seq<seq<string>>)
    requires MergeGroups(lines, groups) && groups != []
    ensures MergeGroups(Flatten(groups[1..]), groups[1..]) && lines == groups[0] + Flatten(groups[1..])
  {
    FlattenFirst(groups);
  }

  lemma {:induction false} MergeIsUnique(lines: seq<string>, a: seq<seq<string>>, b: seq<seq<string>>)
    requires MergeGroups(lines, a) && MergeGroups(lines, b)
    ensures a == b
    decreases |a|
  {
    if a == [] || b == [] {
      EmptyMerge(lines, a);
      EmptyMerge(lines, b);
    } else {
      var j := FirstLength(lines, a);
      var k := FirstLength(lines, b);
      SameFirstLength(lines, j, k);
      OnlyGroup(lines, a);
      OnlyGroup(lines, b);
      if |a| > 1 && |b| > 1 {
        RestMerges(lines, a);
        RestMerges(lines, b);
        assert Flatten(a[1..]) == lines[j..] && Flatten(b[1..]) == lines[j..];
        MergeIsUnique(lines[j..], a[1..], b[1..]);
        assert a == [a[0]] + a[1..] && b == [b[0]] + b[1..];
      }
    }
  }

  lemma SameFirstLength(lines: seq<string>, j: nat, k: nat)
    requires j <= |lines| && (if j == 0 then |Merged(lines)| < MIN_CHUNK_CHARS else JustLongEnough(lines[..j]))
    requires k <= |lines| && (if k == 0 then |Merged(lines)| < MIN_CHUNK_CHARS else JustLongEnough(lines[..k]))
    ensures j == k
  {
    if j > 0 {
      MergedStart(lines, j);
    }
    if k > 0 {
      MergedStart(lines, k);
    }
    if j > 0 && k > 0 {
      OneLengthSuffices(lines, j, k);
    }
  }

  lemma OnlyGroup(lines: seq<string>, groups: seq<seq<string>>)
    requires MergeGroups(lines, groups)
    ensures |groups| == 1 ==> groups == [lines]
  {
    if |groups| == 1 {
      FlattenOne(groups[0]);
      assert groups == [groups[0]];
    }
  }

  lemma EmptyMerge(lines: seq<string>, groups: seq<seq<string>>)
    requires MergeGroups(lines, groups)
    ensures groups == [] <==> lines == []
  {
    if groups != [] {
      FlattenFirst(groups);
    }
  }

  // The whole text.

  /** A text has one list of chunks. */
  lemma ChunksAreDetermined(x: seq<string>, y: seq<string>, text: string)
    requires AreChunksOf(x, text) && AreChunksOf(y, text)
    ensures x == y
  {
    var g, p :| MergeGroups(KeptLines(text), g) && AreCutsOf(p, Pieces(g, " ")) && x == Flatten(p);
    var h, q :| MergeGroups(KeptLines(text), h) && AreCutsOf(q, Pieces(h, " ")) && y == Flatten(q);
    MergeIsUnique(KeptLines(text), g, h);
    CutsAreUnique(p, q, Pieces(g, " "));
  }

  // A text of one line.

  lemma {:induction false} NoNewlineOneLine(text: string)
    requires forall i :: 0 <= i < |text| ==> text[i] != '\n'
    ensures Lines(text) == [text]
  {
    if text != "" {
      NoNewlineOneLine(text[..|text| - 1]);
      SplitLast(text);
    }
  }

  lemma NothingToTrim(s: string)
    requires EndsInInk(s) && !IsSpace(s[0])
    ensures Trim(s) == s
  {
    assert TrimStart(s) == s && TrimEnd(s) == s;
  }

  lemma NoBarNoNoise(s: string)
    requires |s| > 17 && forall i :: 0 <= i < |s| ==> s[i] != '|'
    ensures !IsNoise(s)
  {
  }

  /** A line too long to be noise, without a bar, is kept as it is. */
  lemma OneLineIsKept(text: string)
    requires EndsInInk(text) && !IsSpace(text[0]) && |text| > 17
    requires IsPlain(text)
    ensures KeptLines(text) == [text]
  {
    NoNewlineOneLine(text);
    NothingToTrim(text);
    NoBarNoNoise(text);
    assert [text][..0] == [] && Kept([]) == [];
  }

  lemma OneLineOneGroup(line: string, groups: seq<seq<string>>)
    requires MergeGroups([line], groups)
    ensures groups == [[line]]
  {
    EmptyMerge([line], groups);
    FlattenFirst(groups);
    assert groups[0] == [line] && Flatten(groups[1..]) == [];
    RestMerges([line], groups);
    EmptyMerge([], groups[1..]);
    SplitFirst(groups);
  }

  /** The chunks of such a text hold all of its characters but whitespace exactly if its one piece is spared. */
  lemma OneLineKeepsInkIff(text: string, chunks: seq<string>)
    requires EndsInInk(text) && !IsSpace(text[0]) && |text| > 17
    requires IsPlain(text)
    requires AreChunksOf(chunks, text)
    ensures Ink(Flatten(chunks)) == Ink(text) <==> Spared(text)
  {
    OneLineIsKept(text);
    var groups, parts :| MergeGroups(KeptLines(text), groups) && AreCutsOf(parts, Pieces(groups, " "))
                         && chunks == Flatten(parts);
    OneLineOneGroup(text, groups);
    assert Pieces(groups, " ") == [text];
    NothingLostIff(parts, [text], [text]);
  }

  /** A whole text, of one long line whose last sentence is unfinished, whose chunks have lost some of it. */
  lemma TextWithUnfinishedSentence() returns (text: string)
    ensures |text| > MAX_CHUNK_CHARS && !IsTerminator(text[0])
    ensures forall chunks :: AreChunksOf(chunks, text) ==> Ink(Flatten(chunks)) != Ink(text)
  {
    text := LongPieceWithUnfinishedSentence();
    forall chunks | AreChunksOf(chunks, text)
      ensures Ink(Flatten(chunks)) != Ink(text)
    {
      OneLineKeepsInkIff(text, chunks);
    }
  }
}
