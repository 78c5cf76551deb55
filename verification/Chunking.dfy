/** How a risk-factor section is cut into chunks: noise lines dropped, short lines merged, long pieces split. */
module Chunking {
  import opened Common
  import opened Text
  import opened Sentences

  const MIN_CHUNK_CHARS := 150
  const MAX_CHUNK_CHARS := 900

  // The lines that are kept.

  /** The text between newlines. */
  function Lines(text: string): (lines: seq<string>)
    ensures lines != []
  {
    if text == "" then [""]
    else
      var n := |text| - 1;
      var lines := Lines(text[..n]);
      if text[n] == '\n' then lines + [""] else lines[..|lines| - 1] + [lines[|lines| - 1] + [text[n]]]
  }

  lemma {:induction false} LinesJoinBack(text: string)
    ensures Joined(Lines(text), "\n") == text
    ensures forall i :: 0 <= i < |Lines(text)| ==> '\n' !in Lines(text)[i]
  {
    if text != "" {
      var n := |text| - 1;
      LinesJoinBack(text[..n]);
      var lines := Lines(text[..n]);
      var k := |lines| - 1;
      SplitLast(text);
      if text[n] == '\n' {
        JoinedOneMore(lines, "", "\n");
      } else if k > 0 {
        JoinedOneMore(lines[..k], lines[k] + [text[n]], "\n");
        JoinedOneMore(lines[..k], lines[k], "\n");
        SplitLast(lines);
        Associates("\n", lines[k], [text[n]]);
        Associates(Joined(lines[..k], "\n"), "\n" + lines[k], [text[n]]);
      }
    }
  }

  predicate IsDigit(c: char) {
    '0' <= c <= '9'
  }

  predicate AllDigits(s: string) {
    forall i :: 0 <= i < |s| ==> IsDigit(s[i])
  }

  predicate IsPageNumber(s: string) {
    1 <= |s| <= 4 && AllDigits(s)
  }

  /** What `.` matches. */
  predicate IsDot(c: char) {
    c != '\n' && c != '\r' && c != '\U{2028}' && c != '\U{2029}'
  }

  predicate AllDots(s: string) {
    forall i :: 0 <= i < |s| ==> IsDot(s[i])
  }

  predicate IsPaddedPageNumber(s: string) {
    exists a, b :: 0 <= a <= b <= |s| && AllSpace(s[..a]) && IsPageNumber(s[a..b]) && AllSpace(s[b..])
  }

  /** Up to 80 characters, a bar, up to 60 characters, a bar, and a page number. */
  predicate IsPipeHeader(s: string) {
    exists i, j :: 0 <= i < j < |s| && i <= 80 && j - i - 1 <= 60 && s[i] == '|' && s[j] == '|'
                   && AllDots(s[..j]) && IsPaddedPageNumber(s[j + 1..])
  }

  function Lowered(c: char): char {
    if 'A' <= c <= 'Z' then c - 'A' + 'a' else c
  }

  predicate SameLetters(a: string, b: string) {
    |a| == |b| && forall i :: 0 <= i < |a| ==> Lowered(a[i]) == Lowered(b[i])
  }

  predicate IsNoise(s: string) {
    IsPageNumber(s) || IsPipeHeader(s) || SameLetters(s, "table of contents")
  }

  ghost predicate OneLine(s: string) {
    forall c :: c in s ==> c !in "\n\r\U{2028}\U{2029}"
  }

  lemma OneLineIsDots(s: string)
    ensures OneLine(s) <==> AllDots(s)
  {
    if AllDots(s) {
      forall c | c in s
        ensures c !in "\n\r\U{2028}\U{2029}"
      {
        var k :| 0 <= k < |s| && s[k] == c;
        assert IsDot(s[k]);
      }
    } else {
      var k :| 0 <= k < |s| && !IsDot(s[k]);
      assert s[k] in s;
    }
  }

  /** Two short texts of one line and a number of up to four digits, with bars between them. */
  ghost predicate IsHeader(s: string, company: string, form: string, before: string, page: string, after: string) {
    && s == company + "|" + form + "|" + before + page + after
    && |company| <= 80 && |form| <= 60 && AllSpace(before) && AllSpace(after)
    && OneLine(company) && OneLine(form)
    && 1 <= |page| <= 4 && forall c :: c in page ==> '0' <= c <= '9'
  }

  lemma PipeHeader(s: string, company: string, form: string, before: string, page: string, after: string)
    requires IsHeader(s, company, form, before, page, after)
    ensures IsPipeHeader(s)
  {
    var i, j := |company|, |company| + 1 + |form|;
    var rest := before + page + after;
    assert s[j + 1..] == rest && s[..j] == company + "|" + form;
    OneLineIsDots(company);
    OneLineIsDots(form);
    assert AllDots(company + "|" + form);
    var a, b := |before|, |before| + |page|;
    assert rest[..a] == before && rest[a..b] == page && rest[b..] == after;
    forall k | 0 <= k < |page|
      ensures IsDigit(page[k])
    {
      assert page[k] in page;
    }
    assert IsPaddedPageNumber(rest);
    assert s[i] == '|' && s[j] == '|';
  }

  lemma PaddedParts(s: string) returns (before: string, page: string, after: string)
    requires IsPaddedPageNumber(s)
    ensures s == before + page + after && AllSpace(before) && AllSpace(after) && IsPageNumber(page)
  {
    var a, b :| 0 <= a <= b <= |s| && AllSpace(s[..a]) && IsPageNumber(s[a..b]) && AllSpace(s[b..]);
    before, page, after := s[..a], s[a..b], s[b..];
  }

  lemma HeaderParts(s: string)
    returns (company: string, form: string, before: string, page: string, after: string)
    requires IsPipeHeader(s)
    ensures IsHeader(s, company, form, before, page, after)
  {
    var i, j :| 0 <= i < j < |s| && i <= 80 && j - i - 1 <= 60 && s[i] == '|' && s[j] == '|'
                && AllDots(s[..j]) && IsPaddedPageNumber(s[j + 1..]);
    company, form := s[..i], s[i + 1..j];
    before, page, after := PaddedParts(s[j + 1..]);
    DotsInParts(s[..j], i);
    CutAtBars(s, i, j);
    HeaderIs(s, company, form, before, page, after, s[j + 1..]);
  }

  lemma DotsInParts(s: string, i: nat)
    requires i < |s| && AllDots(s)
    ensures OneLine(s[..i]) && OneLine(s[i + 1..])
  {
    OneLineIsDots(s[..i]);
    OneLineIsDots(s[i + 1..]);
  }

  lemma CutAtBars(s: string, i: nat, j: nat)
    requires i < j < |s| && s[i] == '|' && s[j] == '|'
    ensures s == s[..i] + "|" + s[i + 1..j] + "|" + s[j + 1..]
    ensures s[..j][..i] == s[..i] && s[..j][i + 1..] == s[i + 1..j]
  {
  }

  lemma HeaderIs(s: string, company: string, form: string, before: string, page: string, after: string, rest: string)
    requires s == company + "|" + form + "|" + rest && rest == before + page + after
    requires |company| <= 80 && |form| <= 60 && OneLine(company) && OneLine(form)
    requires AllSpace(before) && AllSpace(after) && IsPageNumber(page)
    ensures IsHeader(s, company, form, before, page, after)
  {
    assert s == company + "|" + form + "|" + before + page + after;
    forall c | c in page
      ensures '0' <= c <= '9'
    {
      var k :| 0 <= k < |page| && page[k] == c;
      assert IsDigit(page[k]);
    }
  }

  /** Noise is a number of up to four digits, a header with a page number, or the running title in either case. */
  lemma NoiseIff(s: string)
    ensures IsNoise(s) <==>
              || (1 <= |s| <= 4 && forall c :: c in s ==> '0' <= c <= '9')
              || (exists company, form, before, page, after :: IsHeader(s, company, form, before, page, after))
              || (|s| == 17
                  && forall i :: 0 <= i < 17 ==> s[i] == "table of contents"[i] || s[i] == "TABLE OF CONTENTS"[i])
  {
    if IsPipeHeader(s) {
      var company, form, before, page, after := HeaderParts(s);
    }
    if company, form, before, page, after :| IsHeader(s, company, form, before, page, after) {
      PipeHeader(s, company, form, before, page, after);
    }
    assert (forall c :: c in s ==> '0' <= c <= '9') <==> AllDigits(s) by {
      assert forall i :: 0 <= i < |s| ==> s[i] in s;
    }
    RunningTitle(s);
  }

  lemma RunningTitle(s: string)
    ensures SameLetters(s, "table of contents") <==>
              |s| == 17 && forall i :: 0 <= i < 17 ==> s[i] == "table of contents"[i] || s[i] == "TABLE OF CONTENTS"[i]
  {
    if |s| == 17 {
      forall i | 0 <= i < 17
        ensures Lowered(s[i]) == Lowered("table of contents"[i])
                <==> s[i] == "table of contents"[i] || s[i] == "TABLE OF CONTENTS"[i]
      {
      }
    }
  }

  /** The trimmed lines, but for empty ones and noise. */
  function Kept(lines: seq<string>): (kept: seq<string>)
    ensures forall i :: 0 <= i < |kept| ==> kept[i] != "" && !IsNoise(kept[i])
  {
    if lines == [] then []
    else
      var n := |lines| - 1;
      var line := Trim(lines[n]);
      Kept(lines[..n]) + if line != "" && !IsNoise(line) then [line] else []
  }

  function KeptLines(text: string): seq<string> {
    Kept(Lines(text))
  }

  lemma {:induction false} KeptAreTrimmed(lines: seq<string>)
    ensures forall i :: 0 <= i < |Kept(lines)| ==> EndsInInk(Kept(lines)[i])
  {
    if lines != [] {
      KeptAreTrimmed(lines[..|lines| - 1]);
      TrimMeans(lines[|lines| - 1]);
    }
  }

  /** The kept lines are the trimmed lines at those positions, which are increasing and all that deserve keeping. */
  ghost predicate KeptAt(lines: seq<string>, at: seq<nat>, kept: seq<string>) {
    && |at| == |kept|
    && (forall j, k :: 0 <= j < k < |at| ==> at[j] < at[k])
    && (forall k :: 0 <= k < |at| ==> at[k] < |lines| && kept[k] == Trim(lines[at[k]]))
    && (forall i: nat :: i < |lines| ==> (i in at <==> Trim(lines[i]) != "" && !IsNoise(Trim(lines[i]))))
  }

  lemma PassOverLine(lines: seq<string>, at: seq<nat>, kept: seq<string>, line: string)
    requires KeptAt(lines, at, kept) && (Trim(line) == "" || IsNoise(Trim(line)))
    ensures KeptAt(lines + [line], at, kept)
  {
  }

  lemma KeepLine(lines: seq<string>, at: seq<nat>, kept: seq<string>, line: string)
    requires KeptAt(lines, at, kept) && Trim(line) != "" && !IsNoise(Trim(line))
    ensures KeptAt(lines + [line], at + [|lines|], kept + [Trim(line)])
  {
    assert (at + [|lines|])[|at|] == |lines|;
  }

  /**
   * Of the lines, in order, exactly those are kept that are not empty and not noise once trimmed, and they are
   * kept trimmed.
   */
  lemma {:induction false} KeptInOrder(lines: seq<string>) returns (at: seq<nat>)
    ensures KeptAt(lines, at, Kept(lines))
    decreases |lines|
  {
    if lines == [] {
      at := [];
    } else {
      var n := |lines| - 1;
      at := KeptInOrder(lines[..n]);
      SplitLast(lines);
      var kept := Kept(lines[..n]);
      if Trim(lines[n]) != "" && !IsNoise(Trim(lines[n])) {
        KeepLine(lines[..n], at, kept, lines[n]);
        at := at + [n];
      } else {
        PassOverLine(lines[..n], at, kept, lines[n]);
        assert kept + [] == kept;
      }
    }
  }

  // Merging short lines.

  function Merged(group: seq<string>): string {
    Joined(group, " ")
  }

  /** Long enough, and too short without its last line. */
  predicate JustLongEnough(group: seq<string>) {
    group != [] && |Merged(group)| >= 150 && |Merged(group[..|group| - 1])| < 150
  }

  /** The last group also takes what lines are left over. */
  predicate JustLongEnoughWithRest(group: seq<string>) {
    exists k :: 0 < k <= |group| && JustLongEnough(group[..k]) && |Merged(group[k..])| < 150
  }

  /** The only ways to cut the lines into groups the way the merge does. */
  ghost predicate MergeGroups(lines: seq<string>, groups: seq<seq<string>>) {
    && Flatten(groups) == lines
    && (forall i :: 0 <= i < |groups| ==> groups[i] != [])
    && (forall i :: 0 <= i < |groups| - 1 ==> JustLongEnough(groups[i]))
    && (|groups| > 1 ==> JustLongEnoughWithRest(groups[|groups| - 1]))
    && (|groups| == 1 ==> |Merged(groups[0])| < 150 || JustLongEnoughWithRest(groups[0]))
  }

  lemma MergedIsLonger(group: seq<string>, line: string)
    ensures |Merged(group + [line])| >= |Merged(group)| + |line|
  {
    if group != [] {
      JoinedOneMore(group, line, " ");
    }
  }

  lemma {:induction false} MergedHasInk(group: seq<string>)
    requires group != [] && forall i :: 0 <= i < |group| ==> EndsInInk(group[i])
    ensures EndsInInk(Merged(group))
  {
  }

  lemma LongWithRest(group: seq<string>)
    requires JustLongEnoughWithRest(group)
    ensures |Merged(group)| >= MIN_CHUNK_CHARS
  {
    var k :| 0 < k <= |group| && JustLongEnough(group[..k]) && |Merged(group[k..])| < MIN_CHUNK_CHARS;
    assert group == group[..k] + group[k..];
    if k < |group| {
      JoinedConcat(group[..k], group[k..], " ");
    } else {
      assert group[..k] == group;
    }
  }

  predicate AllEndInInk(strings: seq<string>) {
    forall i :: 0 <= i < |strings| ==> EndsInInk(strings[i])
  }

  /** Where the merge is after `lines`: complete groups, and the lines of the buffer. */
  ghost predicate Merging(lines: seq<string>, merged: seq<string>, buffer: string, groups: seq<seq<string>>,
                          group: seq<string>) {
    && Flatten(groups) + group == lines
    && merged == Pieces(groups, " ") && buffer == Merged(group)
    && (forall k :: 0 <= k < |groups| ==> JustLongEnough(groups[k]))
    && (group != [] ==> |Merged(group[..|group| - 1])| < MIN_CHUNK_CHARS)
    && AllEndInInk(merged) && AllEndInInk(group)
  }

  function Extended(buffer: string, line: string): string {
    if buffer != "" then buffer + " " + line else line
  }

  lemma Absorb(lines: seq<string>, merged: seq<string>, buffer: string, groups: seq<seq<string>>, group: seq<string>,
               line: string)
    requires Merging(lines, merged, buffer, groups, group) && |buffer| < MIN_CHUNK_CHARS && EndsInInk(line)
    ensures Merging(lines + [line], merged, Extended(buffer, line), groups, group + [line])
  {
    if group != [] {
      MergedHasInk(group);
      JoinedOneMore(group, line, " ");
      Associates(buffer, " ", line);
    }
    assert (group + [line])[..|group|] == group;
    Associates(Flatten(groups), group, [line]);
  }

  lemma Push(lines: seq<string>, merged: seq<string>, buffer: string, groups: seq<seq<string>>, group: seq<string>)
    requires Merging(lines, merged, buffer, groups, group) && group != []
    ensures JustLongEnough(group) ==> Merging(lines, merged + [buffer], "", groups + [group], [])
    ensures Flatten(groups + [group]) == lines && merged + [buffer] == Pieces(groups + [group], " ")
    ensures EndsInInk(buffer)
  {
    MergedHasInk(group);
    FlattenOneMore(groups, group);
    assert lines + [] == lines;
  }

  lemma AppendRest(lines: seq<string>, merged: seq<string>, buffer: string, groups: seq<seq<string>>,
          group: seq<string>)
    requires Merging(lines, merged, buffer, groups, group) && group != [] && groups != [] && |buffer| < MIN_CHUNK_CHARS
    ensures var n := |groups| - 1;
            var longer := groups[n := groups[n] + group];
            && MergeGroups(lines, longer) && merged[n := merged[n] + (" " + buffer)] == Pieces(longer, " ")
    ensures EndsInInk(merged[|groups| - 1] + (" " + buffer))
  {
    var n := |groups| - 1;
    var longer := groups[n := groups[n] + group];
    MergedHasInk(group);
    JoinedConcat(groups[n], group, " ");
    Associates(Flatten(groups[..n]), groups[n], group);
    var k := |groups[n]|;
    assert longer[n][..k] == groups[n] && longer[n][k..] == group;
    assert longer[..n] == groups[..n];
  }

  lemma NothingLeft(lines: seq<string>, merged: seq<string>, groups: seq<seq<string>>)
    requires Merging(lines, merged, "", groups, [])
    ensures MergeGroups(lines, groups)
  {
    assert Flatten(groups) + [] == Flatten(groups);
    if groups != [] {
      var last := groups[|groups| - 1];
      assert last[..|last|] == last && last[|last|..] == [];
    }
  }

  lemma GroupsSuffice(lines: seq<string>, groups: seq<seq<string>>)
    requires MergeGroups(lines, groups)
    ensures Merged(Pieces(groups, " ")) == Merged(lines)
    ensures forall i :: 0 <= i < |groups| ==> |Merged(groups[i])| >= MIN_CHUNK_CHARS || |groups| == 1
  {
    JoinedGroups(groups, " ");
    if |groups| > 1 {
      LongWithRest(groups[|groups| - 1]);
    }
  }

  lemma BufferTells(buffer: string, group: seq<string>)
    requires buffer == Merged(group) && AllEndInInk(group)
    ensures buffer == "" <==> group == []
  {
    if group != [] {
      MergedHasInk(group);
    }
  }

  lemma AbsorbThenPush(lines: seq<string>, merged: seq<string>, buffer: string, groups: seq<seq<string>>,
                       group: seq<string>, line: string)
    requires Merging(lines, merged, buffer, groups, group) && |buffer| < MIN_CHUNK_CHARS && EndsInInk(line)
    requires |Extended(buffer, line)| >= MIN_CHUNK_CHARS
    ensures Merging(lines + [line], merged + [Extended(buffer, line)], "", groups + [group + [line]], [])
  {
    Absorb(lines, merged, buffer, groups, group, line);
    Push(lines + [line], merged, Extended(buffer, line), groups, group + [line]);
  }

  /** The loop over the lines: complete groups, and what is still in the buffer. */
  method MergeRuns(lines: seq<string>)
    returns (merged: seq<string>, buffer: string, ghost groups: seq<seq<string>>, ghost group: seq<string>)
    requires AllEndInInk(lines)
    ensures Merging(lines, merged, buffer, groups, group) && |buffer| < MIN_CHUNK_CHARS
  {
    merged, groups := [], [];
    buffer, group := "", [];
    for i := 0 to |lines|
      invariant Merging(lines[..i], merged, buffer, groups, group) && |buffer| < MIN_CHUNK_CHARS
    {
      var line := lines[i];
      assert lines[..i + 1] == lines[..i] + [line];
      ghost var before, lead := buffer, group;
      buffer := Extended(buffer, line);
      group := group + [line];
      if |buffer| >= MIN_CHUNK_CHARS {
        AbsorbThenPush(lines[..i], merged, before, groups, lead, line);
        merged, groups := merged + [buffer], groups + [group];
        buffer, group := "", [];
      } else {
        Absorb(lines[..i], merged, before, groups, lead, line);
      }
    }
    assert lines[..|lines|] == lines;
  }

  method MergeShort(lines: seq<string>) returns (merged: seq<string>, ghost groups: seq<seq<string>>)
    requires AllEndInInk(lines)
    ensures Merged(merged) == Merged(lines)
    ensures forall i :: 0 <= i < |merged| ==> |merged[i]| >= MIN_CHUNK_CHARS || |merged| == 1
    ensures merged == Pieces(groups, " ") && MergeGroups(lines, groups)
    ensures AllEndInInk(merged)
  {
    var buffer: string;
    ghost var group: seq<string>;
    merged, buffer, groups, group := MergeRuns(lines);
    BufferTells(buffer, group);
    if buffer == "" {
      NothingLeft(lines, merged, groups);
    } else if |merged| > 0 {
      AppendRest(lines, merged, buffer, groups, group);
      var n := |merged| - 1;
      merged := merged[n := merged[n] + (" " + buffer)];
      groups := groups[n := groups[n] + group];
    } else {
      Push(lines, merged, buffer, groups, group);
      merged, groups := merged + [buffer], groups + [group];
    }
    GroupsSuffice(lines, groups);
  }

  // Splitting long pieces.

  /** At most 900 characters, unless it is a single sentence. */
  predicate Fits(group: seq<string>) {
    group != [] && (|Flatten(group)| <= 900 || |group| == 1)
  }

  /** The next group's first sentence did not fit as well. */
  predicate Full(group: seq<string>, next: seq<string>) {
    next != [] && |Flatten(group)| + |next[0]| > 900
  }

  ghost predicate Packed(groups: seq<seq<string>>) {
    && (forall i :: 0 <= i < |groups| ==> Fits(groups[i]))
    && (forall i, j :: 0 <= i < |groups| && j == i + 1 < |groups| ==> Full(groups[i], groups[j]))
  }

  function Trimmed(groups: seq<seq<string>>): seq<string> {
    if groups == [] then [] else Trimmed(groups[..|groups| - 1]) + [Trim(Flatten(groups[|groups| - 1]))]
  }

  lemma TrimmedOneMore(groups: seq<seq<string>>, group: seq<string>)
    ensures Trimmed(groups + [group]) == Trimmed(groups) + [Trim(Flatten(group))]
  {
    assert (groups + [group])[..|groups|] == groups;
  }

  predicate AllHaveInk(strings: seq<string>) {
    forall i :: 0 <= i < |strings| ==> Ink(strings[i]) != ""
  }

  lemma SentencesHaveInk(chunk: string)
    requires EndsInInk(chunk)
    ensures AllHaveInk(SentencesOf(chunk)) && SentencesOf(chunk) != []
  {
    MatchesHaveInk(chunk);
    AlwaysMatches(chunk);
  }

  lemma PieceHasInk(group: seq<string>)
    requires group != [] && AllHaveInk(group)
    ensures Flatten(group) != "" && Trim(Flatten(group)) != "" && Ink(Trim(Flatten(group))) != ""
  {
    var n := |group| - 1;
    InkConcat(Flatten(group[..n]), group[n]);
    TrimMeans(Flatten(group));
  }

  lemma {:induction false} PiecesHaveInk(groups: seq<seq<string>>)
    requires AllHaveInk(Flatten(groups)) && forall i :: 0 <= i < |groups| ==> groups[i] != []
    ensures AllHaveInk(Trimmed(groups)) && |Trimmed(groups)| == |groups|
  {
    if groups != [] {
      var n := |groups| - 1;
      InkOfParts(Flatten(groups[..n]), groups[n]);
      PiecesHaveInk(groups[..n]);
      PieceHasInk(groups[n]);
    }
  }

  lemma InkOfParts(a: seq<string>, b: seq<string>)
    requires AllHaveInk(a + b)
    ensures AllHaveInk(a) && AllHaveInk(b)
  {
    forall i | 0 <= i < |a|
      ensures Ink(a[i]) != ""
    {
      assert (a + b)[i] == a[i];
    }
    forall i | 0 <= i < |b|
      ensures Ink(b[i]) != ""
    {
      assert (a + b)[|a| + i] == b[i];
    }
  }

  /** Complete groups, and the sentences of the next one. */
  ghost predicate Packing(groups: seq<seq<string>>, group: seq<string>) {
    && Packed(groups) && (group == [] ==> groups == [])
    && (group != [] ==> Fits(group) && (groups == [] || Full(groups[|groups| - 1], group)))
  }

  lemma PackedOneMore(groups: seq<seq<string>>, group: seq<string>)
    requires Packing(groups, group) && group != []
    ensures Packed(groups + [group])
  {
  }

  /** `s` starts the next group: the one before is full. */
  lemma Start(groups: seq<seq<string>>, group: seq<string>, s: string)
    requires Packing(groups, group)
    requires group != [] ==> |Flatten(group)| + |s| > MAX_CHUNK_CHARS
    ensures Packing(if group == [] then groups else groups + [group], [s]) && Flatten([s]) == s
  {
    if group != [] {
      PackedOneMore(groups, group);
    }
    FlattenOne(s);
  }

  lemma Join(groups: seq<seq<string>>, group: seq<string>, s: string)
    requires Packing(groups, group) && group != [] && |Flatten(group)| + |s| <= MAX_CHUNK_CHARS
    ensures Packing(groups, group + [s]) && Flatten(group + [s]) == Flatten(group) + s
  {
    FlattenOneMore(group, s);
    assert (group + [s])[0] == group[0];
  }

  /** Where the split is after `sentences`. */
  ghost predicate Splitting(sentences: seq<string>, pieces: seq<string>, sub: string, groups: seq<seq<string>>,
                            group: seq<string>) {
    && Flatten(groups) + group == sentences && pieces == Trimmed(groups) && sub == Flatten(group)
    && Packing(groups, group)
  }

  lemma FlushThenStart(sentences: seq<string>, pieces: seq<string>, sub: string, groups: seq<seq<string>>,
                       group: seq<string>, s: string)
    requires Splitting(sentences, pieces, sub, groups, group) && group != [] && |sub| + |s| > MAX_CHUNK_CHARS
    ensures Splitting(sentences + [s], pieces + [Trim(sub)], "" + s, groups + [group], [] + [s])
  {
    TrimmedOneMore(groups, group);
    FlattenOneMore(groups, group);
    Start(groups, group, s);
    assert [] + [s] == [s];
  }

  lemma AddSentence(sentences: seq<string>, pieces: seq<string>, sub: string, groups: seq<seq<string>>,
                    group: seq<string>, s: string)
    requires Splitting(sentences, pieces, sub, groups, group) && (group == [] || |sub| + |s| <= MAX_CHUNK_CHARS)
    ensures Splitting(sentences + [s], pieces, sub + s, groups, group + [s])
  {
    if group == [] {
      Start(groups, group, s);
    } else {
      Join(groups, group, s);
    }
    Associates(Flatten(groups), group, [s]);
  }

  lemma SubTells(sentences: seq<string>, pieces: seq<string>, sub: string, groups: seq<seq<string>>, group: seq<string>)
    requires Splitting(sentences, pieces, sub, groups, group) && AllHaveInk(sentences)
    ensures sub == "" <==> group == []
    ensures Trim(sub) == "" <==> group == []
  {
    if group != [] {
      InkOfParts(Flatten(groups), group);
      PieceHasInk(group);
    }
  }

  lemma LastFlush(sentences: seq<string>, pieces: seq<string>, sub: string, groups: seq<seq<string>>,
          group: seq<string>)
    requires Splitting(sentences, pieces, sub, groups, group) && group != []
    ensures Flatten(groups + [group]) == sentences && pieces + [Trim(sub)] == Trimmed(groups + [group])
    ensures Packed(groups + [group])
  {
    TrimmedOneMore(groups, group);
    FlattenOneMore(groups, group);
    PackedOneMore(groups, group);
  }

  lemma InkOfPrefix(strings: seq<string>, i: nat)
    requires AllHaveInk(strings) && i < |strings|
    ensures AllHaveInk(strings[..i]) && Ink(strings[i]) != ""
    ensures strings[..i + 1] == strings[..i] + [strings[i]]
  {
  }

  /** The loop over the sentences: pieces done, and the piece being built. */
  method PackRuns(sentences: seq<string>)
    returns (pieces: seq<string>, sub: string, ghost groups: seq<seq<string>>, ghost group: seq<string>)
    requires AllHaveInk(sentences)
    ensures Splitting(sentences, pieces, sub, groups, group)
    ensures sentences != [] ==> group != []
  {
    pieces, sub, groups, group := [], "", [], [];
    for i := 0 to |sentences|
      invariant Splitting(sentences[..i], pieces, sub, groups, group)
      invariant i > 0 ==> group != []
    {
      InkOfPrefix(sentences, i);
      SubTells(sentences[..i], pieces, sub, groups, group);
      if |sub| + |sentences[i]| > MAX_CHUNK_CHARS && |sub| > 0 {
        FlushThenStart(sentences[..i], pieces, sub, groups, group, sentences[i]);
        pieces, groups := pieces + [Trim(sub)], groups + [group];
        sub, group := "", [];
      } else {
        AddSentence(sentences[..i], pieces, sub, groups, group, sentences[i]);
      }
      sub := sub + sentences[i];
      group := group + [sentences[i]];
    }
    WholePrefix(sentences);
  }

  method SplitLong(chunk: string) returns (pieces: seq<string>, ghost groups: seq<seq<string>>)
    requires EndsInInk(chunk)
    ensures Flatten(groups) == SentencesOf(chunk) && pieces == Trimmed(groups) && Packed(groups)
    ensures AllHaveInk(pieces) && |pieces| == |groups|
  {
    SentencesHaveInk(chunk);
    var sub: string;
    ghost var group: seq<string>;
    pieces, sub, groups, group := PackRuns(SentencesOf(chunk));
    SubTells(SentencesOf(chunk), pieces, sub, groups, group);
    if Trim(sub) != "" {
      LastFlush(SentencesOf(chunk), pieces, sub, groups, group);
      pieces, groups := pieces + [Trim(sub)], groups + [group];
    }
    PiecesHaveInk(groups);
  }

  // The whole function.

  ghost predicate IsCutOf(part: seq<string>, piece: string) {
    if |piece| <= 900 then part == [piece]
    else exists groups :: Packed(groups) && Flatten(groups) == SentencesOf(piece) && part == Trimmed(groups)
  }

  ghost predicate AreCutsOf(parts: seq<seq<string>>, merged: seq<string>) {
    && |parts| == |merged|
    && (parts != [] ==>
          AreCutsOf(parts[..|parts| - 1], merged[..|merged| - 1]) && IsCutOf(parts[|parts| - 1], merged[|merged| - 1]))
  }

  /** Nothing but whitespace is lost of the piece. */
  predicate Spared(piece: string) {
    |piece| <= 900 || SplitsInk(piece)
  }

  predicate AllSpared(merged: seq<string>) {
    forall i :: 0 <= i < |merged| ==> Spared(merged[i])
  }

  /** `kept` is what is left of `all`, and it is all of it exactly if `spared`. */
  ghost predicate Tally(kept: string, all: string, spared: bool) {
    Subsequence(kept, all) && |kept| <= |all| && (|kept| == |all| <==> spared) && (kept == all <==> spared)
  }

  lemma TalliesAdd(k: string, a: string, s: bool, kept: string, all: string, spared: bool)
    requires Tally(k, a, s) && Tally(kept, all, spared)
    ensures Tally(k + kept, a + all, s && spared)
  {
    SubsequencesConcat(k, a, kept, all);
    assert |k + kept| == |k| + |kept| && |a + all| == |a| + |all|;
  }

  lemma {:induction false} InkOfTrimmed(groups: seq<seq<string>>)
    ensures Ink(Flatten(Trimmed(groups))) == Ink(Flatten(Flatten(groups)))
  {
    if groups != [] {
      var n := |groups| - 1;
      var last := Flatten(groups[n]);
      InkOfTrimmed(groups[..n]);
      TrimMeans(last);
      FlattenOneMore(Trimmed(groups[..n]), Trim(last));
      InkConcat(Flatten(Trimmed(groups[..n])), Trim(last));
      FlattenConcat(Flatten(groups[..n]), groups[n]);
      InkConcat(Flatten(Flatten(groups[..n])), last);
    }
  }

  lemma CutTallies(part: seq<string>, piece: string)
    requires IsCutOf(part, piece) && EndsInInk(piece)
    ensures Tally(Ink(Flatten(part)), Ink(piece), Spared(piece))
  {
    if |piece| <= MAX_CHUNK_CHARS {
      FlattenOne(piece);
      SubsequenceOfSelf(Ink(piece));
    } else {
      var groups :| Packed(groups) && Flatten(groups) == SentencesOf(piece) && part == Trimmed(groups);
      InkOfTrimmed(groups);
      SplitsInkIff(piece);
    }
  }

  lemma InkOneMore(parts: seq<seq<string>>, part: seq<string>)
    ensures Ink(Flatten(Flatten(parts + [part]))) == Ink(Flatten(Flatten(parts))) + Ink(Flatten(part))
  {
    FlattenOneMore(parts, part);
    FlattenConcat(Flatten(parts), part);
    InkConcat(Flatten(Flatten(parts)), Flatten(part));
  }

  lemma AllSparedOneMore(merged: seq<string>, piece: string)
    ensures AllSpared(merged + [piece]) <==> AllSpared(merged) && Spared(piece)
  {
    assert (merged + [piece])[|merged|] == piece;
    assert forall i :: 0 <= i < |merged| ==> (merged + [piece])[i] == merged[i];
  }

  lemma TallyOneMore(parts: seq<seq<string>>, part: seq<string>, merged: seq<string>, piece: string)
    requires Tally(Ink(Flatten(Flatten(parts))), Ink(Flatten(merged)), AllSpared(merged))
    requires IsCutOf(part, piece) && EndsInInk(piece)
    ensures Tally(Ink(Flatten(Flatten(parts + [part]))), Ink(Flatten(merged + [piece])), AllSpared(merged + [piece]))
  {
    CutTallies(part, piece);
    InkOneMore(parts, part);
    FlattenOneMore(merged, piece);
    InkConcat(Flatten(merged), piece);
    AllSparedOneMore(merged, piece);
    TalliesAdd(Ink(Flatten(Flatten(parts))), Ink(Flatten(merged)), AllSpared(merged),
               Ink(Flatten(part)), Ink(piece), Spared(piece));
  }

  lemma {:induction false} CutsTally(parts: seq<seq<string>>, merged: seq<string>)
    requires AreCutsOf(parts, merged) && AllEndInInk(merged)
    ensures Tally(Ink(Flatten(Flatten(parts))), Ink(Flatten(merged)), AllSpared(merged))
  {
    if parts == [] {
      EmptySubsequence("");
    } else {
      var n := |parts| - 1;
      SplitLast(parts);
      SplitLast(merged);
      CutsTally(parts[..n], merged[..n]);
      TallyOneMore(parts[..n], parts[n], merged[..n], merged[n]);
    }
  }

  /** Cutting loses nothing but whitespace exactly when every long piece splits without loss. */
  lemma NothingLostIff(parts: seq<seq<string>>, merged: seq<string>, lines: seq<string>)
    requires AreCutsOf(parts, merged) && AllEndInInk(merged) && Merged(merged) == Merged(lines)
    ensures Ink(Flatten(Flatten(parts))) == Ink(Merged(lines)) <==> AllSpared(merged)
    ensures Subsequence(Ink(Flatten(Flatten(parts))), Ink(Flatten(lines)))
    ensures Ink(Merged(lines)) == Ink(Flatten(lines))
  {
    CutsTally(parts, merged);
    InkOfJoined(merged);
    InkOfJoined(lines);
  }

  /** No newline and no bar. */
  predicate IsPlain(s: string) {
    forall i :: 0 <= i < |s| ==> s[i] != '\n' && s[i] != '|'
  }

  /** A long piece that starts well is still not spared if its last sentence is unfinished. */
  lemma LongPieceWithUnfinishedSentence() returns (piece: string)
    ensures EndsInInk(piece) && !IsTerminator(piece[0]) && !IsSpace(piece[0]) && IsPlain(piece) && !Spared(piece)
    ensures Flatten(SentencesOf(piece)) != piece
  {
    var start, tail := seq(MAX_CHUNK_CHARS, i => 'a') + ".", " no end";
    assert IsPlain(start) && IsPlain(tail);
    piece := start + tail;
    TailOf(start, tail);
    UnfinishedTail(start, tail);
    SplitsWholeIff(piece);
  }

  lemma UnfinishedTail(start: string, tail: string)
    requires |start| >= MAX_CHUNK_CHARS && !IsTerminator(start[0])
    requires tail == " no end" && Tail(start + tail) == tail
    ensures !Spared(start + tail) && !SplitsWhole(start + tail)
  {
    var piece := start + tail;
    assert IsSpace(tail[0]) && piece[|start|] == ' ';
    assert TrimStart(tail) == tail[1..] && IsSpace(tail[1..][2]);
  }

  predicate IsSentenceOf(chunk: string, piece: string) {
    exists j :: 0 <= j < |SentencesOf(piece)| && chunk == Trim(SentencesOf(piece)[j])
  }

  predicate FitsOrIsSentence(chunk: string, merged: seq<string>) {
    |chunk| <= 900 || exists i :: 0 <= i < |merged| && IsSentenceOf(chunk, merged[i])
  }

  predicate AllFit(chunks: seq<string>, merged: seq<string>) {
    forall i :: 0 <= i < |chunks| ==> chunks[i] != "" && FitsOrIsSentence(chunks[i], merged)
  }

  lemma {:induction false} InGroup(groups: seq<seq<string>>, k: nat, sentence: string) returns (j: nat)
    requires k < |groups| && groups[k] == [sentence]
    ensures j < |Flatten(groups)| && Flatten(groups)[j] == sentence
  {
    var n := |groups| - 1;
    if k == n {
      j := |Flatten(groups[..n])|;
    } else {
      j := InGroup(groups[..n], k, sentence);
    }
  }

  lemma {:induction false} TrimmedAt(groups: seq<seq<string>>, k: nat)
    requires k < |groups|
    ensures |Trimmed(groups)| == |groups| && Trimmed(groups)[k] == Trim(Flatten(groups[k]))
  {
    if k < |groups| - 1 {
      TrimmedAt(groups[..|groups| - 1], k);
    } else if k > 0 {
      TrimmedAt(groups[..k], k - 1);
    }
  }

  lemma SplitFits(piece: string, groups: seq<seq<string>>, k: nat)
    requires k < |groups| && Packed(groups) && Flatten(groups) == SentencesOf(piece)
    ensures |Trim(Flatten(groups[k]))| <= MAX_CHUNK_CHARS || IsSentenceOf(Trim(Flatten(groups[k])), piece)
  {
    TrimMeans(Flatten(groups[k]));
    if |groups[k]| == 1 {
      var sentence := groups[k][0];
      assert groups[k] == [sentence];
      FlattenOne(sentence);
      var j := InGroup(groups, k, sentence);
    }
  }

  lemma AllCutsFit(cut: seq<string>, groups: seq<seq<string>>, merged: seq<string>, i: nat)
    requires i < |merged| && Packed(groups) && Flatten(groups) == SentencesOf(merged[i]) && cut == Trimmed(groups)
    requires AllHaveInk(cut) && |cut| == |groups|
    ensures AllFit(cut, merged)
  {
    forall k | 0 <= k < |cut|
      ensures cut[k] != "" && FitsOrIsSentence(cut[k], merged)
    {
      TrimmedAt(groups, k);
      SplitFits(merged[i], groups, k);
      assert Ink(cut[k]) != "";
    }
  }

  /** One merged piece, cut if it is too long. */
  method CutPiece(piece: string, ghost merged: seq<string>, ghost i: nat) returns (part: seq<string>)
    requires i < |merged| && piece == merged[i] && EndsInInk(piece)
    ensures IsCutOf(part, piece) && AllFit(part, merged)
  {
    if |piece| <= MAX_CHUNK_CHARS {
      part := [piece];
    } else {
      ghost var groups: seq<seq<string>>;
      part, groups := SplitLong(piece);
      AllCutsFit(part, groups, merged, i);
    }
  }

  lemma PartsOneMore(final: seq<string>, parts: seq<seq<string>>, merged: seq<string>, i: nat, part: seq<string>)
    requires i < |merged| && final == Flatten(parts) && AreCutsOf(parts, merged[..i]) && IsCutOf(part, merged[i])
    ensures final + part == Flatten(parts + [part]) && AreCutsOf(parts + [part], merged[..i + 1])
  {
    FlattenOneMore(parts, part);
    WithoutLast(parts, part);
    OneFurther(merged, i);
  }

  lemma AllFitTogether(a: seq<string>, b: seq<string>, merged: seq<string>)
    requires AllFit(a, merged) && AllFit(b, merged)
    ensures AllFit(a + b, merged)
  {
  }

  /** The loop over the merged pieces. */
  method CutPieces(merged: seq<string>) returns (final: seq<string>, ghost parts: seq<seq<string>>)
    requires AllEndInInk(merged)
    ensures final == Flatten(parts) && AreCutsOf(parts, merged)
    ensures AllFit(final, merged)
  {
    final, parts := [], [];
    for i := 0 to |merged|
      invariant final == Flatten(parts) && AreCutsOf(parts, merged[..i])
      invariant AllFit(final, merged)
    {
      var part := CutPiece(merged[i], merged, i);
      PartsOneMore(final, parts, merged, i, part);
      AllFitTogether(final, part, merged);
      final := final + part;
      parts := parts + [part];
    }
    WholePrefix(merged);
  }

  /** The chunks of a text, without saying how they are found. */
  ghost predicate AreChunksOf(chunks: seq<string>, text: string) {
    exists groups, parts ::
      MergeGroups(KeptLines(text), groups) && AreCutsOf(parts, Pieces(groups, " ")) && chunks == Flatten(parts)
  }

  method ChunkRiskFactorText(text: string)
    returns (final: seq<string>, ghost merged: seq<string>, ghost parts: seq<seq<string>>, ghost kept: seq<string>,
             ghost at: seq<nat>)
    ensures KeptAt(Lines(text), at, kept) && Merged(merged) == Merged(kept)
    ensures Subsequence(Ink(Flatten(final)), Ink(Flatten(kept)))
    ensures Ink(Flatten(final)) == Ink(Flatten(kept)) <==> AllSpared(merged)
    ensures forall i :: 0 <= i < |merged| ==> |merged[i]| >= 150 || |merged| == 1
    ensures final == Flatten(parts) && AreCutsOf(parts, merged)
    ensures AreChunksOf(final, text)
    ensures AllFit(final, merged)
  {
    var lines := KeptLines(text);
    kept := lines;
    at := KeptInOrder(Lines(text));
    KeptAreTrimmed(Lines(text));
    var pieces, mergeGroups := MergeShort(lines);
    merged := pieces;
    final, parts := CutPieces(pieces);
    NothingLostIff(parts, merged, lines);
  }
}
