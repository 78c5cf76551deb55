/**
 * The sentence pattern of the chunker - a run of other characters followed by a run of terminators, or else a
 * blank-free rest of the text - and exactly what text it lets go.
 */
module Sentences {
  import opened Common
  import opened Text

  predicate IsTerminator(c: char) {
    c == '.' || c == '!' || c == '?'
  }

  /** How many characters the text starts with before its first terminator. */
  function BeforeTerminator(s: string): (n: nat)
    ensures n <= |s| && forall i :: 0 <= i < n ==> !IsTerminator(s[i])
    ensures n < |s| ==> IsTerminator(s[n])
  {
    if s == "" || IsTerminator(s[0]) then 0 else 1 + BeforeTerminator(s[1..])
  }

  /** How many terminators it starts with. */
  function Terminators(s: string): (n: nat)
    ensures n <= |s| && forall i :: 0 <= i < n ==> IsTerminator(s[i])
    ensures n < |s| ==> !IsTerminator(s[n])
  {
    if s == "" || !IsTerminator(s[0]) then 0 else 1 + Terminators(s[1..])
  }

  /** The length of the match at the start of the text, 0 for none. */
  function MatchLength(s: string): (n: nat)
    ensures n <= |s|
  {
    var run := BeforeTerminator(s);
    if 0 < run < |s| then run + Terminators(s[run..])
    else if HasSpace(s) then 0
    else |s|
  }

  /** The first `k` characters are no terminators, the next ones up to `n` are. */
  ghost predicate Terminated(s: string, k: nat, n: nat) {
    && 0 < k < n <= |s|
    && (forall i :: 0 <= i < k ==> !IsTerminator(s[i])) && (forall i :: k <= i < n ==> IsTerminator(s[i]))
  }

  /** The match is the longest terminated start of the text. */
  lemma MatchIsGreedy(s: string, k: nat, n: nat)
    requires Terminated(s, k, n)
    ensures Terminated(s, k, MatchLength(s)) && n <= MatchLength(s)
  {
    var run := BeforeTerminator(s);
    assert IsTerminator(s[k]);
    assert run < |s| ==> IsTerminator(s[run]);
    assert run == k;
    var m := Terminators(s[k..]);
    assert MatchLength(s) == k + m;
    assert m < |s[k..]| ==> !IsTerminator(s[k + m]);
    forall i | k <= i < k + m
      ensures IsTerminator(s[i])
    {
      assert s[k..][i - k] == s[i];
    }
    assert m > 0 by {
      assert s[k..][0] == s[k];
    }
  }

  /** Only a text without a terminated start is matched as a whole, if it has no blank. */
  lemma OtherwiseBlankFree(s: string)
    requires forall k, n :: !Terminated(s, k, n)
    ensures MatchLength(s) == if HasSpace(s) then 0 else |s|
  {
    var run := BeforeTerminator(s);
    assert !Terminated(s, run, run + 1);
  }

  /** A run of characters none of `.`, `!` and `?`, and a run of those, come off together. */
  lemma SentenceIsMatched(body: string, ends: string, rest: string)
    requires body != "" && forall c :: c in body ==> c != '.' && c != '!' && c != '?'
    requires ends != "" && forall c :: c in ends ==> c == '.' || c == '!' || c == '?'
    requires rest == "" || (rest[0] != '.' && rest[0] != '!' && rest[0] != '?')
    ensures Matches(body + ends + rest) == [body + ends] + Matches(rest)
  {
    var s := body + ends + rest;
    var k, n := |body|, |body| + |ends|;
    PartsAreTerminated(body, ends, rest);
    MatchIsGreedy(s, k, n);
    assert n < |s| ==> s[n] == rest[0];
    assert MatchLength(s) == n;
    assert s[..n] == body + ends && s[n..] == rest;
  }

  lemma PartsAreTerminated(body: string, ends: string, rest: string)
    requires body != "" && forall c :: c in body ==> c != '.' && c != '!' && c != '?'
    requires ends != "" && forall c :: c in ends ==> c == '.' || c == '!' || c == '?'
    ensures Terminated(body + ends + rest, |body|, |body| + |ends|)
  {
    var s := body + ends + rest;
    forall i | 0 <= i < |body|
      ensures !IsTerminator(s[i])
    {
      assert s[i] == body[i] && body[i] in body;
    }
    forall i | |body| <= i < |body| + |ends|
      ensures IsTerminator(s[i])
    {
      assert s[i] == ends[i - |body|] && ends[i - |body|] in ends;
    }
  }

  /** All matches, left to right: where nothing matches, one character is passed over. */
  function Matches(s: string): seq<string>
    decreases |s|
  {
    if s == "" then []
    else
      var n := MatchLength(s);
      if n > 0 then [s[..n]] + Matches(s[n..]) else Matches(s[1..])
  }

  /** With no match at all the text is one sentence. */
  function SentencesOf(s: string): seq<string> {
    if Matches(s) == [] then [s] else Matches(s)
  }

  /** What follows the last terminator. */
  function Tail(s: string): string {
    if s == "" || IsTerminator(s[|s| - 1]) then "" else Tail(s[..|s| - 1]) + [s[|s| - 1]]
  }

  /** What follows the last blank. */
  function LastWord(s: string): string {
    if s == "" || IsSpace(s[|s| - 1]) then "" else LastWord(s[..|s| - 1]) + [s[|s| - 1]]
  }

  lemma FlattenFromFront(x: string, rest: seq<string>)
    ensures Flatten([x] + rest) == x + Flatten(rest)
  {
    FlattenConcat([x], rest);
    assert [x][..0] == [];
  }

  /** A match is never empty, never blank. */
  lemma {:induction false} MatchesHaveInk(s: string)
    ensures forall i :: 0 <= i < |Matches(s)| ==> Ink(Matches(s)[i]) != ""
    decreases |s|
  {
    if s != "" {
      var n := MatchLength(s);
      if n > 0 {
        var run := BeforeTerminator(s);
        InkOfSpace(s[..n]);
        if 0 < run < |s| {
          assert s[..n][run] == s[run] && !IsSpace(s[run]);
        } else {
          assert s[..n][0] == s[0] && !IsSpace(s[0]);
        }
        MatchesHaveInk(s[n..]);
      } else {
        MatchesHaveInk(s[1..]);
      }
    }
  }

  /** A text that does not end in a blank always has a match, so it is never taken whole for want of one. */
  lemma {:induction false} AlwaysMatches(s: string)
    requires EndsInInk(s)
    ensures Matches(s) != []
    decreases |s|
  {
    if MatchLength(s) == 0 {
      assert |s| > 1;
      AlwaysMatches(s[1..]);
    }
  }

  // Nothing but what is passed over is lost.

  lemma MatchesStep(s: string, n: nat)
    requires s != "" && n == MatchLength(s)
    ensures n > 0 ==> Flatten(Matches(s)) == s[..n] + Flatten(Matches(s[n..]))
    ensures n == 0 ==> Flatten(Matches(s)) == Flatten(Matches(s[1..]))
    ensures s == s[..n] + s[n..]
  {
    if n > 0 {
      FlattenFromFront(s[..n], Matches(s[n..]));
    }
  }

  lemma {:induction false} MatchesKeepNoMore(s: string)
    ensures |Ink(Flatten(Matches(s)))| <= |Ink(s)|
    ensures |Flatten(Matches(s))| <= |s|
    decreases |s|
  {
    if s != "" {
      var n := MatchLength(s);
      MatchesStep(s, n);
      if n > 0 {
        MatchesKeepNoMore(s[n..]);
        InkConcat(s[..n], Flatten(Matches(s[n..])));
        InkConcat(s[..n], s[n..]);
      } else {
        MatchesKeepNoMore(s[1..]);
        InkFromFront(s);
      }
    }
  }

  /** What is kept is in the order of the text. */
  lemma {:induction false} MatchesAreInOrder(s: string)
    ensures Subsequence(Ink(Flatten(Matches(s))), Ink(s))
    decreases |s|
  {
    if s == "" {
      EmptySubsequence("");
    } else {
      var n := MatchLength(s);
      MatchesStep(s, n);
      if n > 0 {
        MatchesAreInOrder(s[n..]);
        SubsequenceOfSelf(Ink(s[..n]));
        InkConcat(s[..n], Flatten(Matches(s[n..])));
        InkConcat(s[..n], s[n..]);
        SubsequencesConcat(Ink(s[..n]), Ink(s[..n]), Ink(Flatten(Matches(s[n..]))), Ink(s[n..]));
      } else {
        MatchesAreInOrder(s[1..]);
        PassedOver(s);
      }
    }
  }

  lemma PassedOver(s: string)
    requires s != "" && Subsequence(Ink(Flatten(Matches(s[1..]))), Ink(s[1..]))
    ensures Subsequence(Ink(Flatten(Matches(s[1..]))), Ink(s))
  {
    InkFromFront(s);
    SubsequenceBehind(Ink(Flatten(Matches(s[1..]))), if IsSpace(s[0]) then "" else [s[0]], Ink(s[1..]));
  }

  lemma {:induction false} BlankFreeIsKept(s: string)
    requires !HasSpace(s)
    ensures Flatten(Matches(s)) == s
    decreases |s|
  {
    if s != "" {
      var n := MatchLength(s);
      assert !HasSpace(s[n..]) by {
        assert forall i :: 0 <= i < |s[n..]| ==> s[n..][i] == s[n + i];
      }
      BlankFreeIsKept(s[n..]);
      MatchesStep(s, n);
    }
  }

  lemma SpaceBeforeLast(s: string)
    requires s != "" && !IsSpace(s[|s| - 1])
    ensures HasSpace(s) <==> HasSpace(s[..|s| - 1])
  {
    var t := s[..|s| - 1];
    if i :| 0 <= i < |s| && IsSpace(s[i]) {
      assert t[i] == s[i];
    }
    if i :| 0 <= i < |t| && IsSpace(t[i]) {
      assert t[i] == s[i];
    }
  }

  lemma DroppingFirst(s: string)
    requires s != ""
    ensures HasSpace(s) ==> LastWord(s) == LastWord(s[1..])
    ensures !HasSpace(s) ==> LastWord(s) == s
    decreases |s|
  {
    var n := |s| - 1;
    if n > 0 {
      DroppingFirst(s[..n]);
      SplitLast(s);
      assert s[..n][1..] == s[1..][..n - 1];
      if !IsSpace(s[n]) {
        SpaceBeforeLast(s);
      }
    }
  }

  /** Of an unterminated text only the last word is kept. */
  lemma {:induction false} UnterminatedKeepsLastWord(s: string)
    requires BeforeTerminator(s) == |s|
    ensures Flatten(Matches(s)) == LastWord(s)
    decreases |s|
  {
    if s != "" {
      DroppingFirst(s);
      if HasSpace(s) {
        UnterminatedKeepsLastWord(s[1..]);
      } else {
        BlankFreeIsKept(s);
      }
    }
  }

  lemma {:induction false} TailAfter(a: string, b: string)
    requires a != "" && IsTerminator(a[|a| - 1])
    ensures Tail(a + b) == Tail(b)
    decreases |b|
  {
    if b == "" {
      assert a + b == a;
    } else {
      TailAfter(a, b[..|b| - 1]);
      assert (a + b)[..|a + b| - 1] == a + b[..|b| - 1];
    }
  }

  lemma {:induction false} TailOfUnterminated(s: string)
    requires BeforeTerminator(s) == |s|
    ensures Tail(s) == s
  {
    if s != "" {
      var n := |s| - 1;
      assert BeforeTerminator(s[..n]) == n by {
        assert forall i :: 0 <= i < n ==> s[..n][i] == s[i];
      }
      TailOfUnterminated(s[..n]);
      assert s == s[..n] + [s[n]];
    }
  }

  lemma MatchEndsSentence(s: string, n: nat)
    requires BeforeTerminator(s) < |s| && n == MatchLength(s) && !IsTerminator(s[0])
    ensures n > 0 && IsTerminator(s[n - 1]) && (n < |s| ==> !IsTerminator(s[n]))
  {
    var run := BeforeTerminator(s);
    assert n == run + Terminators(s[run..]) && IsTerminator(s[run..][0]);
    assert s[run..][n - 1 - run] == s[n - 1];
    assert n < |s| ==> s[n] == s[run..][n - run];
  }

  lemma SentenceComesOff(s: string, n: nat)
    requires 0 < n == MatchLength(s) && IsTerminator(s[n - 1])
    ensures s == s[..n] + s[n..] && Tail(s) == Tail(s[n..])
    ensures Flatten(Matches(s)) == s[..n] + Flatten(Matches(s[n..]))
  {
    MatchesStep(s, n);
    TailAfter(s[..n], s[n..]);
  }

  /** Of a text that starts a sentence, everything up to its last terminator is kept, and then the last word. */
  lemma {:induction false} KeepsUpToTail(s: string) returns (head: string)
    requires s != "" ==> !IsTerminator(s[0])
    ensures s == head + Tail(s)
    ensures Flatten(Matches(s)) == head + LastWord(Tail(s))
    decreases |s|
  {
    var run := BeforeTerminator(s);
    if run == |s| {
      head := "";
      UnterminatedKeepsLastWord(s);
      TailOfUnterminated(s);
    } else {
      var n := MatchLength(s);
      MatchEndsSentence(s, n);
      SentenceComesOff(s, n);
      var first, rest, tail := s[..n], s[n..], Tail(s);
      var h := KeepsUpToTail(rest);
      head := first + h;
      Associates(first, h, tail);
      Associates(first, h, LastWord(tail));
    }
  }

  lemma LastWordIsNoLonger(s: string)
    ensures |LastWord(s)| <= |s| && |Ink(LastWord(s))| <= |Ink(s)|
    ensures if HasSpace(s) then |LastWord(s)| < |s| else LastWord(s) == s
    decreases |s|
  {
    if s != "" {
      DroppingFirst(s);
      LastWordIsNoLonger(s[1..]);
      InkFromFront(s);
    }
  }

  /** One word, after whatever blanks. */
  lemma {:induction false} LastWordKeepsInkIff(s: string)
    ensures |Ink(LastWord(s))| == |Ink(s)| <==> !HasSpace(TrimStart(s)) || Ink(s) == ""
    ensures Ink(LastWord(s)) == Ink(s) <==> !HasSpace(TrimStart(s)) || Ink(s) == ""
    decreases |s|
  {
    if s != "" {
      DroppingFirst(s);
      InkFromFront(s);
      LastWordIsNoLonger(s);
      LastWordIsNoLonger(s[1..]);
      if IsSpace(s[0]) {
        assert HasSpace(s);
        LastWordKeepsInkIff(s[1..]);
      }
    }
  }

  /** A leading terminator is passed over as soon as there is a blank further on. */
  lemma LeadingTerminatorIsLost(s: string)
    requires s != "" && IsTerminator(s[0]) && HasSpace(s)
    ensures |Ink(Flatten(Matches(s)))| < |Ink(s)|
    ensures |Flatten(Matches(s))| < |s|
  {
    assert Matches(s) == Matches(s[1..]);
    MatchesKeepNoMore(s[1..]);
    InkFromFront(s);
  }

  /** Not a character is lost. */
  predicate SplitsWhole(s: string) {
    !HasSpace(s) || (!IsTerminator(s[0]) && !HasSpace(Tail(s)))
  }

  /** Nothing but whitespace is lost: the text starts a sentence and leaves at most one word unterminated. */
  predicate SplitsInk(s: string) {
    !HasSpace(s) || (!IsTerminator(s[0]) && !HasSpace(TrimStart(Tail(s))))
  }

  /** The sentences together are the text in exactly these cases. */
  lemma SplitsWholeIff(s: string)
    requires EndsInInk(s)
    ensures Flatten(SentencesOf(s)) == s <==> SplitsWhole(s)
  {
    AlwaysMatches(s);
    if !HasSpace(s) {
      BlankFreeIsKept(s);
    } else if IsTerminator(s[0]) {
      LeadingTerminatorIsLost(s);
    } else {
      var t := Tail(s);
      var head := KeepsUpToTail(s);
      LastWordIsNoLonger(t);
      if HasSpace(t) {
        assert |head + LastWord(t)| < |head + t|;
      }
    }
  }

  /** A text that starts with another character and ends in a terminator is split without loss. */
  lemma WholeSentencesSplitWhole(s: string)
    requires s != "" && !IsTerminator(s[0]) && IsTerminator(s[|s| - 1])
    ensures Flatten(SentencesOf(s)) == s
  {
    SplitsWholeIff(s);
  }

  lemma SplitsInkIff(s: string)
    requires EndsInInk(s)
    ensures Ink(Flatten(SentencesOf(s))) == Ink(s) <==> SplitsInk(s)
    ensures |Ink(Flatten(SentencesOf(s)))| == |Ink(s)| <==> SplitsInk(s)
    ensures |Ink(Flatten(SentencesOf(s)))| <= |Ink(s)|
    ensures Subsequence(Ink(Flatten(SentencesOf(s))), Ink(s))
  {
    AlwaysMatches(s);
    MatchesKeepNoMore(s);
    MatchesAreInOrder(s);
    if !HasSpace(s) {
      BlankFreeIsKept(s);
    } else if IsTerminator(s[0]) {
      LeadingTerminatorIsLost(s);
    } else {
      var t := Tail(s);
      var head := KeepsUpToTail(s);
      InkConcat(head, t);
      InkConcat(head, LastWord(t));
      LastWordKeepsInkIff(t);
      InkOfSpace(t);
      assert t != "" ==> t[|t| - 1] == s[|s| - 1];
    }
  }

  lemma {:induction false} TailOf(head: string, tail: string)
    requires head != "" && IsTerminator(head[|head| - 1]) && forall i :: 0 <= i < |tail| ==> !IsTerminator(tail[i])
    ensures Tail(head + tail) == tail
  {
    TailAfter(head, tail);
    assert BeforeTerminator(tail) == |tail|;
    TailOfUnterminated(tail);
  }

  lemma {:induction false} LastWordOf(start: string, word: string)
    requires (start == "" || IsSpace(start[|start| - 1])) && !HasSpace(word)
    ensures LastWord(start + word) == word
    decreases |word|
  {
    var n := |word| - 1;
    if word == "" {
      assert start + word == start;
    } else {
      assert (start + word)[..|start + word| - 1] == start + word[..n];
      assert !HasSpace(word[..n]) by {
        assert forall i :: 0 <= i < n ==> word[..n][i] == word[i];
      }
      LastWordOf(start, word[..n]);
      assert word == word[..n] + [word[n]];
    }
  }

  /** Of an unfinished last sentence everything but the last word disappears, the blank before it included. */
  lemma UnfinishedSentenceIsLost(finished: string, lost: string, word: string, tail: string)
    requires finished != "" && !IsTerminator(finished[0]) && IsTerminator(finished[|finished| - 1])
    requires lost != "" && IsSpace(lost[|lost| - 1]) && word != "" && !HasSpace(word)
    requires tail == lost + word && forall i :: 0 <= i < |tail| ==> !IsTerminator(tail[i])
    ensures Flatten(SentencesOf(finished + tail)) == finished + word
  {
    var s := finished + tail;
    TailOf(finished, tail);
    LastWordOf(lost, word);
    assert EndsInInk(s) by {
      assert s[|s| - 1] == word[|word| - 1];
    }
    AlwaysMatches(s);
    assert s[0] == finished[0];
    HeadIs(finished, tail, word);
  }

  lemma HeadIs(finished: string, tail: string, word: string)
    requires finished != "" && !IsTerminator((finished + tail)[0])
    requires Tail(finished + tail) == tail && LastWord(tail) == word
    ensures Flatten(Matches(finished + tail)) == finished + word
  {
    var head := KeepsUpToTail(finished + tail);
    assert (finished + tail)[..|finished|] == finished && (head + tail)[..|head|] == head;
  }
}
