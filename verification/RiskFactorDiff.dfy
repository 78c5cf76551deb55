/** The comparison of two risk-factor texts, chunk by chunk, through the embeddings of the chunks. */
module RiskFactorDiff {
  import opened Common
  import opened Embeddings
  import Chunking
  import ChunksDetermined

  const UNCHANGED_THRESHOLD := 0.92
  const MODIFIED_THRESHOLD := 0.6

  datatype Status = Unchanged | Modified | New | Removed
  datatype DiffChunk = DiffChunk(text: string, status: Status, similarity: real, matchedText: Option<string>)
  datatype Summary = Summary(unaltered: nat, modified: nat, added: nat, removed: nat)

  /** The similarity of two texts. */
  function Similarity(embed: Embedder, a: string, b: string): real
    requires |embed(a)| == |embed(b)|
  {
    Dot(embed(a), embed(b))
  }

  /** The first of the best matches of a new chunk, if any is above -1. */
  ghost predicate IsBestMatch(embed: Embedder, dimension: nat, chunk: string, olds: seq<string>, score: real,
          index: int)
    requires Normalizes(embed, dimension)
  {
    && (index == -1 || 0 <= index < |olds|)
    && (index == -1 ==> score == -1.0)
    && (index >= 0 ==> score == Similarity(embed, chunk, olds[index]) > -1.0)
    && (forall j :: 0 <= j < |olds| ==> Similarity(embed, chunk, olds[j]) <= score)
    && (forall j :: 0 <= j < index ==> Similarity(embed, chunk, olds[j]) < score)
  }

  /** How the diff reports a new chunk. */
  ghost predicate IsReport(entry: DiffChunk, chunk: string, olds: seq<string>, score: real, index: int)
    requires index == -1 || 0 <= index < |olds|
  {
    && entry.text == chunk
    && (entry.status == Unchanged <==> score >= 0.92)
    && (entry.status == Modified <==> 0.6 <= score < 0.92)
    && (entry.status == New <==> score < 0.6)
    && (score >= 0.6 ==>
            index >= 0 && entry.similarity == score && entry.matchedText == Some(olds[index]))
    && (score < 0.6 ==> entry.similarity == if score > 0.0 then score else 0.0)
    && (score < 0.6 ==> entry.matchedText == None)
  }

  /** The same about the vectors. */
  ghost predicate IsBestVector(chunk: Vector, olds: seq<Vector>, score: real, index: int)
    requires forall j :: 0 <= j < |olds| ==> |olds[j]| == |chunk|
  {
    && (index == -1 || 0 <= index < |olds|)
    && (index == -1 ==> score == -1.0)
    && (index >= 0 ==> score == Dot(chunk, olds[index]) > -1.0)
    && (forall j :: 0 <= j < |olds| ==> Dot(chunk, olds[j]) <= score)
    && (forall j :: 0 <= j < index ==> Dot(chunk, olds[j]) < score)
  }

  lemma VectorsDecide(embed: Embedder, dimension: nat, chunk: string, olds: seq<string>, vectors: seq<Vector>,
                      score: real, index: int)
    requires Normalizes(embed, dimension)
    requires |vectors| == |olds| && forall j :: 0 <= j < |olds| ==> vectors[j] == embed(olds[j])
    requires (forall j :: 0 <= j < |vectors| ==> |vectors[j]| == |embed(chunk)|)
    requires IsBestVector(embed(chunk), vectors, score, index)
    ensures IsBestMatch(embed, dimension, chunk, olds, score, index)
  {
    forall j | 0 <= j < |olds|
      ensures Similarity(embed, chunk, olds[j]) <= score && (j < index ==> Similarity(embed, chunk, olds[j]) < score)
    {
      assert Dot(embed(chunk), vectors[j]) <= score;
    }
  }

  method FindBestMatch(chunk: Vector, olds: seq<Vector>) returns (bestScore: real, bestIndex: int)
    requires forall j :: 0 <= j < |olds| ==> |olds[j]| == |chunk|
    ensures IsBestVector(chunk, olds, bestScore, bestIndex)
  {
    bestScore, bestIndex := -1.0, -1;
    for j := 0 to |olds|
      invariant bestIndex == -1 || 0 <= bestIndex < j
      invariant bestIndex == -1 ==> bestScore == -1.0
      invariant bestIndex >= 0 ==> bestScore == Dot(chunk, olds[bestIndex]) > -1.0
      invariant forall k :: 0 <= k < j ==> Dot(chunk, olds[k]) <= bestScore
      invariant forall k :: 0 <= k < bestIndex ==> Dot(chunk, olds[k]) < bestScore
    {
      var score := CosineSimilarity(chunk, olds[j]);
      if score > bestScore {
        bestScore, bestIndex := score, j;
      }
    }
  }

  /** The old chunks that some new chunk matches well enough. */
  function Matched(scores: seq<real>, best: seq<int>): set<nat>
    requires |scores| == |best|
  {
    if best == [] then {}
    else
      var n := |best| - 1;
      Matched(scores[..n], best[..n]) + if scores[n] >= MODIFIED_THRESHOLD && best[n] >= 0 then {best[n]} else {}
  }

  /** The positions below `n` outside a set, in order. */
  function Unmatched(matched: set<nat>, n: nat): seq<nat> {
    if n == 0 then [] else Unmatched(matched, n - 1) + if n - 1 in matched then [] else [n - 1]
  }

  function RemovedEntries(olds: seq<string>, matched: set<nat>, n: nat): seq<DiffChunk>
    requires n <= |olds|
  {
    if n == 0 then []
    else RemovedEntries(olds, matched, n - 1)
         + if n - 1 in matched then [] else [DiffChunk(olds[n - 1], Removed, 0.0, None)]
  }

  function Count(chunks: seq<DiffChunk>, status: Status): nat {
    if chunks == [] then 0
    else Count(chunks[..|chunks| - 1], status) + if chunks[|chunks| - 1].status == status then 1 else 0
  }

  function SummaryOf(chunks: seq<DiffChunk>): Summary {
    Summary(Count(chunks, Unchanged), Count(chunks, Modified), Count(chunks, New), Count(chunks, Removed))
  }

  ghost predicate AreReports(embed: Embedder, dimension: nat, news: seq<string>, olds: seq<string>,
                             scores: seq<real>, best: seq<int>, entries: seq<DiffChunk>)
    requires Normalizes(embed, dimension)
  {
    && |scores| == |news| && |best| == |news| && |entries| == |news|
    && (forall i :: 0 <= i < |news| ==> IsBestMatch(embed, dimension, news[i], olds, scores[i], best[i]))
    && (forall i :: 0 <= i < |news| ==> IsReport(entries[i], news[i], olds, scores[i], best[i]))
  }

  ghost predicate IsDiff(embed: Embedder, dimension: nat, news: seq<string>, olds: seq<string>, chunks: seq<DiffChunk>,
                         scores: seq<real>, best: seq<int>, entries: seq<DiffChunk>)
    requires Normalizes(embed, dimension)
  {
    && AreReports(embed, dimension, news, olds, scores, best, entries)
    && chunks == entries + RemovedEntries(olds, Matched(scores, best), |olds|)
  }

  method Summarize(chunks: seq<DiffChunk>) returns (summary: Summary)
    ensures summary == SummaryOf(chunks)
  {
    var unaltered, modified, added, removed := 0, 0, 0, 0;
    for i := 0 to |chunks|
      invariant Summary(unaltered, modified, added, removed) == SummaryOf(chunks[..i])
    {
      assert chunks[..i + 1][..i] == chunks[..i];
      if chunks[i].status == Unchanged {
        unaltered := unaltered + 1;
      } else if chunks[i].status == Modified {
        modified := modified + 1;
      } else if chunks[i].status == New {
        added := added + 1;
      } else {
        removed := removed + 1;
      }
    }
    assert chunks[..|chunks|] == chunks;
    summary := Summary(unaltered, modified, added, removed);
  }

  /** The report on one new chunk, and the old chunk it uses up, if any. */
  method Report(chunk: string, olds: seq<string>, bestScore: real, bestIndex: int)
    returns (entry: DiffChunk, matched: set<nat>)
    requires bestIndex == -1 || 0 <= bestIndex < |olds|
    requires bestIndex == -1 ==> bestScore == -1.0
    ensures IsReport(entry, chunk, olds, bestScore, bestIndex)
    ensures matched == if bestScore >= MODIFIED_THRESHOLD && bestIndex >= 0 then {bestIndex} else {}
  {
    if bestIndex != -1 && bestScore >= UNCHANGED_THRESHOLD {
      matched := {bestIndex};
      entry := DiffChunk(chunk, Unchanged, bestScore, Some(olds[bestIndex]));
    } else if bestIndex != -1 && bestScore >= MODIFIED_THRESHOLD {
      matched := {bestIndex};
      entry := DiffChunk(chunk, Modified, bestScore, Some(olds[bestIndex]));
    } else {
      matched := {};
      entry := DiffChunk(chunk, New, if bestScore > 0.0 then bestScore else 0.0, None);
    }
  }

  lemma ReportsOneMore(embed: Embedder, dimension: nat, news: seq<string>, i: nat, olds: seq<string>,
                       scores: seq<real>, best: seq<int>, entries: seq<DiffChunk>, score: real, index: int,
                               entry: DiffChunk)
    requires Normalizes(embed, dimension) && i < |news|
    requires AreReports(embed, dimension, news[..i], olds, scores, best, entries)
    requires IsBestMatch(embed, dimension, news[i], olds, score, index) && IsReport(entry, news[i], olds, score, index)
    ensures AreReports(embed, dimension, news[..i + 1], olds, scores + [score], best + [index], entries + [entry])
  {
  }

  lemma MatchedOneMore(scores: seq<real>, best: seq<int>, score: real, index: int)
    requires |scores| == |best|
    ensures Matched(scores + [score], best + [index])
            == Matched(scores, best) + if score >= MODIFIED_THRESHOLD && index >= 0 then {index} else {}
  {
    assert (scores + [score])[..|scores|] == scores && (best + [index])[..|best|] == best;
  }

  /** The loop over the new chunks. */
  method MatchNew(olds: seq<string>, news: seq<string>, embed: Embedder, ghost dimension: nat)
    returns (chunks: seq<DiffChunk>, matched: set<nat>, ghost scores: seq<real>, ghost best: seq<int>)
    requires Normalizes(embed, dimension)
    ensures AreReports(embed, dimension, news, olds, scores, best, chunks)
    ensures matched == Matched(scores, best)
    ensures |chunks| == |news| && forall i :: 0 <= i < |news| ==> chunks[i].text == news[i]
  {
    var oldVectors := EmbedTexts(olds, embed);
    var newVectors := EmbedTexts(news, embed);
    matched := {};
    chunks, scores, best := [], [], [];
    for i := 0 to |news|
      invariant AreReports(embed, dimension, news[..i], olds, scores, best, chunks)
      invariant matched == Matched(scores, best)
      invariant forall k :: 0 <= k < i ==> chunks[k].text == news[k]
    {
      var bestScore, bestIndex := FindBestMatch(newVectors[i], oldVectors);
      VectorsDecide(embed, dimension, news[i], olds, oldVectors, bestScore, bestIndex);
      var entry, used := Report(news[i], olds, bestScore, bestIndex);
      ReportsOneMore(embed, dimension, news, i, olds, scores, best, chunks, bestScore, bestIndex, entry);
      MatchedOneMore(scores, best, bestScore, bestIndex);
      matched := matched + used;
      chunks := chunks + [entry];
      scores, best := scores + [bestScore], best + [bestIndex];
    }
    assert news[..|news|] == news;
  }

  method DiffChunks(olds: seq<string>, news: seq<string>, embed: Embedder, ghost dimension: nat)
    returns (chunks: seq<DiffChunk>, summary: Summary, ghost scores: seq<real>, ghost best: seq<int>,
             ghost entries: seq<DiffChunk>)
    requires Normalizes(embed, dimension)
    ensures IsDiff(embed, dimension, news, olds, chunks, scores, best, entries)
    ensures summary == SummaryOf(chunks)
  {
    var matched: set<nat>;
    chunks, matched, scores, best := MatchNew(olds, news, embed, dimension);
    entries := chunks;
    for j := 0 to |olds|
      invariant chunks == entries + RemovedEntries(olds, matched, j)
    {
      if j !in matched {
        chunks := chunks + [DiffChunk(olds[j], Removed, 0.0, None)];
      }
    }
    summary := Summarize(chunks);
  }

  // What every diff says.

  /** Some new chunk has the old one as its first best match, well enough. */
  ghost predicate Claimed(scores: seq<real>, best: seq<int>, j: nat)
    requires |scores| == |best|
  {
    exists i :: 0 <= i < |best| && best[i] == j && scores[i] >= 0.6
  }

  lemma {:induction false} MatchedMeans(scores: seq<real>, best: seq<int>, j: nat)
    requires |scores| == |best|
    ensures j in Matched(scores, best) <==> Claimed(scores, best, j)
  {
    if best != [] {
      var n := |best| - 1;
      MatchedMeans(scores[..n], best[..n], j);
      if j in Matched(scores[..n], best[..n]) {
        var i :| 0 <= i < n && best[..n][i] == j && scores[..n][i] >= MODIFIED_THRESHOLD;
        assert best[i] == j && scores[i] >= MODIFIED_THRESHOLD;
      }
      if i :| 0 <= i < |best| && best[i] == j && scores[i] >= MODIFIED_THRESHOLD {
        if i < n {
          assert best[..n][i] == j && scores[..n][i] >= MODIFIED_THRESHOLD;
        }
      }
    }
  }

  /** Each unmatched position once, in order. */
  lemma {:induction false} UnmatchedMeans(matched: set<nat>, n: nat)
    ensures var u := Unmatched(matched, n);
            && (forall k :: 0 <= k < |u| ==> u[k] < n && u[k] !in matched)
            && (forall k, l :: 0 <= k < l < |u| ==> u[k] < u[l])
            && (forall j: nat :: j < n && j !in matched ==> j in u)
  {
    if n > 0 {
      UnmatchedMeans(matched, n - 1);
    }
  }

  lemma {:induction false} RemovedMeans(olds: seq<string>, matched: set<nat>, n: nat)
    requires n <= |olds|
    ensures var r, u := RemovedEntries(olds, matched, n), Unmatched(matched, n);
            && |r| == |u|
            && (forall k :: 0 <= k < |u| ==> u[k] < n && r[k] == DiffChunk(olds[u[k]], Removed, 0.0, None))
  {
    UnmatchedMeans(matched, n);
    if n > 0 {
      RemovedMeans(olds, matched, n - 1);
    }
  }

  lemma UnclaimedPositions(olds: seq<string>, scores: seq<real>, best: seq<int>) returns (removed: seq<nat>)
    requires |scores| == |best|
    ensures |RemovedEntries(olds, Matched(scores, best), |olds|)| == |removed|
    ensures forall k :: 0 <= k < |removed| ==> removed[k] < |olds| && !Claimed(scores, best, removed[k])
    ensures forall k :: 0 <= k < |removed| ==>
              RemovedEntries(olds, Matched(scores, best), |olds|)[k] == DiffChunk(olds[removed[k]], Removed, 0.0, None)
    ensures forall k, l :: 0 <= k < l < |removed| ==> removed[k] < removed[l]
    ensures forall j: nat :: j < |olds| && !Claimed(scores, best, j) ==> j in removed
  {
    var matched := Matched(scores, best);
    removed := Unmatched(matched, |olds|);
    forall j: nat
      ensures j in matched <==> Claimed(scores, best, j)
    {
      MatchedMeans(scores, best, j);
    }
    UnmatchedMeans(matched, |olds|);
    RemovedMeans(olds, matched, |olds|);
  }

  /**
   * The new chunks come out once each and in order, and then, once each and in order, exactly the old chunks
   * that are no new chunk's first best match at 0.60 or above.
   */
  lemma DiffPartitions(embed: Embedder, dimension: nat, news: seq<string>, olds: seq<string>, chunks: seq<DiffChunk>,
                       scores: seq<real>, best: seq<int>, entries: seq<DiffChunk>)
    returns (removed: seq<nat>)
    requires Normalizes(embed, dimension) && IsDiff(embed, dimension, news, olds, chunks, scores, best, entries)
    ensures |chunks| == |news| + |removed|
    ensures forall i :: 0 <= i < |news| ==> chunks[i].text == news[i] && chunks[i].status != Removed
    ensures forall k :: 0 <= k < |removed| ==> removed[k] < |olds| && !Claimed(scores, best, removed[k])
    ensures forall k :: 0 <= k < |removed| ==> chunks[|news| + k] == DiffChunk(olds[removed[k]], Removed, 0.0, None)
    ensures forall k, l :: 0 <= k < l < |removed| ==> removed[k] < removed[l]
    ensures forall j: nat :: j < |olds| && !Claimed(scores, best, j) ==> j in removed
  {
    removed := UnclaimedPositions(olds, scores, best);
    forall i | 0 <= i < |news|
      ensures chunks[i].text == news[i] && chunks[i].status != Removed
    {
      assert IsReport(entries[i], news[i], olds, scores[i], best[i]);
    }
  }

  lemma {:induction false} CountConcat(a: seq<DiffChunk>, b: seq<DiffChunk>, status: Status)
    ensures Count(a + b, status) == Count(a, status) + Count(b, status)
    decreases |b|
  {
    if b == [] {
      assert a + b == a;
    } else {
      CountConcat(a, b[..|b| - 1], status);
      assert (a + b)[..|a + b| - 1] == a + b[..|b| - 1];
    }
  }

  lemma {:induction false} CountsOfReports(entries: seq<DiffChunk>)
    requires forall i :: 0 <= i < |entries| ==> entries[i].status != Removed
    ensures Count(entries, Unchanged) + Count(entries, Modified) + Count(entries, New) == |entries|
    ensures Count(entries, Removed) == 0
  {
    if entries != [] {
      CountsOfReports(entries[..|entries| - 1]);
    }
  }

  lemma CountsOneMore(chunks: seq<DiffChunk>, chunk: DiffChunk)
    ensures forall status ::
              Count(chunks + [chunk], status) == Count(chunks, status) + if chunk.status == status then 1 else 0
  {
    assert (chunks + [chunk])[..|chunks|] == chunks;
  }

  lemma {:induction false} CountsOfRemoved(olds: seq<string>, matched: set<nat>, n: nat)
    requires n <= |olds|
    ensures var r := RemovedEntries(olds, matched, n);
            Count(r, Unchanged) == Count(r, Modified) == Count(r, New) == 0 && Count(r, Removed) == |r|
  {
    if n > 0 {
      CountsOfRemoved(olds, matched, n - 1);
      var before := RemovedEntries(olds, matched, n - 1);
      if n - 1 in matched {
        assert before + [] == before;
      } else {
        CountsOneMore(before, DiffChunk(olds[n - 1], Removed, 0.0, None));
      }
    }
  }

  /** As many old chunks are matched as are not removed. */
  lemma {:induction false} RemovedOrMatched(olds: seq<string>, matched: set<nat>, n: nat)
    requires n <= |olds| && forall j :: j in matched ==> j < n
    ensures |RemovedEntries(olds, matched, n)| + |matched| == n
  {
    if n == 0 {
      assert matched == {};
    } else {
      var below := matched - {n - 1};
      RemovedOrMatched(olds, below, n - 1);
      SameRemoved(olds, matched, below, n - 1);
      if n - 1 in matched {
        assert matched == below + {n - 1};
      } else {
        assert matched == below;
      }
    }
  }

  lemma {:induction false} SameRemoved(olds: seq<string>, a: set<nat>, b: set<nat>, n: nat)
    requires n <= |olds| && forall j: nat :: j < n ==> (j in a <==> j in b)
    ensures RemovedEntries(olds, a, n) == RemovedEntries(olds, b, n)
  {
    if n > 0 {
      SameRemoved(olds, a, b, n - 1);
    }
  }

  /** Each matched new chunk uses up at most one old chunk. */
  lemma {:induction false} MatchesAreCounted(entries: seq<DiffChunk>, scores: seq<real>, best: seq<int>)
    requires |scores| == |best| == |entries|
    requires forall i :: 0 <= i < |entries| ==> (scores[i] < MODIFIED_THRESHOLD <==> entries[i].status == New)
    requires forall i :: 0 <= i < |entries| ==> entries[i].status != Removed
    ensures |Matched(scores, best)| <= Count(entries, Unchanged) + Count(entries, Modified)
  {
    if entries != [] {
      var n := |entries| - 1;
      MatchesAreCounted(entries[..n], scores[..n], best[..n]);
    }
  }

  /** The counts add up: over the new chunks, over the old ones, and over the whole report. */
  lemma CountsAddUp(embed: Embedder, dimension: nat, news: seq<string>, olds: seq<string>, chunks: seq<DiffChunk>,
                    scores: seq<real>, best: seq<int>, entries: seq<DiffChunk>)
    requires Normalizes(embed, dimension) && IsDiff(embed, dimension, news, olds, chunks, scores, best, entries)
    ensures var s, matched := SummaryOf(chunks), Matched(scores, best);
            && s.unaltered + s.modified + s.added == |news| && s.removed + |matched| == |olds|
            && |matched| <= s.unaltered + s.modified
            && s.unaltered + s.modified + s.added + s.removed == |chunks|
  {
    var matched := Matched(scores, best);
    var gone := RemovedEntries(olds, matched, |olds|);
    forall i | 0 <= i < |news|
      ensures entries[i].status != Removed && (scores[i] < MODIFIED_THRESHOLD <==> entries[i].status == New)
    {
      assert IsReport(entries[i], news[i], olds, scores[i], best[i]);
    }
    CountConcat(entries, gone, Unchanged);
    CountConcat(entries, gone, Modified);
    CountConcat(entries, gone, New);
    CountConcat(entries, gone, Removed);
    CountsOfReports(entries);
    CountsOfRemoved(olds, matched, |olds|);
    MatchesAreCounted(entries, scores, best);
    forall j | j in matched
      ensures j < |olds|
    {
      MatchedMeans(scores, best, j);
      var i :| 0 <= i < |best| && best[i] == j && scores[i] >= MODIFIED_THRESHOLD;
      assert IsBestMatch(embed, dimension, news[i], olds, scores[i], best[i]);
    }
    RemovedOrMatched(olds, matched, |olds|);
  }

  /** Every similarity reported is between 0 and 1, and there is a matched text exactly for what was matched. */
  lemma ReportsAreInRange(embed: Embedder, dimension: nat, news: seq<string>, olds: seq<string>, chunks: seq<DiffChunk>,
                          scores: seq<real>, best: seq<int>, entries: seq<DiffChunk>, i: nat)
    requires Normalizes(embed, dimension) && IsDiff(embed, dimension, news, olds, chunks, scores, best, entries)
    requires i < |chunks|
    ensures 0.0 <= chunks[i].similarity <= 1.0
    ensures chunks[i].matchedText.Some? <==> chunks[i].status == Unchanged || chunks[i].status == Modified
  {
    if i < |news| {
      assert IsReport(entries[i], news[i], olds, scores[i], best[i]);
      assert IsBestMatch(embed, dimension, news[i], olds, scores[i], best[i]);
      if best[i] >= 0 {
        UnitVectorsCompare(embed(news[i]), embed(olds[best[i]]), dimension);
      }
    } else {
      RemovedMeans(olds, Matched(scores, best), |olds|);
    }
  }

  // A text compared with itself.

  /** Position `j` has the embedding of an earlier position. */
  ghost predicate RepeatsEarlier(embed: Embedder, chunks: seq<string>, j: nat)
    requires j < |chunks|
  {
    exists k :: 0 <= k < j && embed(chunks[k]) == embed(chunks[j])
  }

  lemma SelfMatch(embed: Embedder, dimension: nat, texts: seq<string>, i: nat, score: real, index: int)
    requires Normalizes(embed, dimension) && i < |texts|
    requires IsBestMatch(embed, dimension, texts[i], texts, score, index)
    ensures score == 1.0 && 0 <= index <= i && embed(texts[index]) == embed(texts[i])
    ensures !RepeatsEarlier(embed, texts, index)
  {
    UnitVectorsCompare(embed(texts[i]), embed(texts[i]), dimension);
    assert Similarity(embed, texts[i], texts[i]) == 1.0;
    UnitVectorsCompare(embed(texts[i]), embed(texts[index]), dimension);
    forall k | 0 <= k < index
      ensures embed(texts[k]) != embed(texts[index])
    {
      assert Similarity(embed, texts[i], texts[k]) < score;
    }
  }

  /**
   * A list of chunks compared with itself: nothing is new or modified, and reported as removed are exactly the
   * chunks whose embedding equals an earlier one's.
   */
  lemma SelfDiff(embed: Embedder, dimension: nat, texts: seq<string>, chunks: seq<DiffChunk>,
                 scores: seq<real>, best: seq<int>, entries: seq<DiffChunk>)
    requires Normalizes(embed, dimension) && IsDiff(embed, dimension, texts, texts, chunks, scores, best, entries)
    ensures forall i :: 0 <= i < |texts| ==> chunks[i].status == Unchanged && chunks[i].similarity == 1.0
    ensures SummaryOf(chunks).added == 0 && SummaryOf(chunks).modified == 0
    ensures forall j: nat :: j < |texts| ==> (Claimed(scores, best, j) <==> !RepeatsEarlier(embed, texts, j))
  {
    forall i | 0 <= i < |texts|
      ensures scores[i] == 1.0 && 0 <= best[i] <= i && embed(texts[best[i]]) == embed(texts[i])
      ensures !RepeatsEarlier(embed, texts, best[i]) && entries[i].status == Unchanged && entries[i].similarity == 1.0
    {
      assert IsBestMatch(embed, dimension, texts[i], texts, scores[i], best[i]);
      SelfMatch(embed, dimension, texts, i, scores[i], best[i]);
      assert IsReport(entries[i], texts[i], texts, scores[i], best[i]);
    }
    forall j: nat | j < |texts|
      ensures Claimed(scores, best, j) <==> !RepeatsEarlier(embed, texts, j)
    {
      if !RepeatsEarlier(embed, texts, j) {
        assert best[j] == j && scores[j] >= MODIFIED_THRESHOLD;
      }
    }
    AllUnchanged(entries);
    var gone := RemovedEntries(texts, Matched(scores, best), |texts|);
    CountsOfRemoved(texts, Matched(scores, best), |texts|);
    CountConcat(entries, gone, New);
    CountConcat(entries, gone, Modified);
  }

  lemma {:induction false} AllUnchanged(entries: seq<DiffChunk>)
    requires forall i :: 0 <= i < |entries| ==> entries[i].status == Unchanged
    ensures Count(entries, New) == 0 && Count(entries, Modified) == 0
  {
    if entries != [] {
      AllUnchanged(entries[..|entries| - 1]);
    }
  }

  // Whole texts.

  /** The report lists the new chunks in order, and then the old chunks at these positions as removed. */
  ghost predicate ReportsThenRemoved(chunks: seq<DiffChunk>, news: seq<string>, olds: seq<string>, removed: seq<nat>) {
    && |chunks| == |news| + |removed|
    && (forall i :: 0 <= i < |news| ==> chunks[i].text == news[i] && chunks[i].status != Removed)
    && (forall k :: 0 <= k < |removed| ==> removed[k] < |olds|)
    && (forall k :: 0 <= k < |removed| ==> chunks[|news| + k] == DiffChunk(olds[removed[k]], Removed, 0.0, None))
    && (forall k, l :: 0 <= k < l < |removed| ==> removed[k] < removed[l])
  }

  /**
   * A text against itself: every chunk is unchanged, and the removed positions are exactly those whose chunk has the
   * embedding of an earlier one.
   */
  lemma SelfReport(embed: Embedder, dimension: nat, texts: seq<string>, chunks: seq<DiffChunk>,
                   scores: seq<real>, best: seq<int>, entries: seq<DiffChunk>, removed: seq<nat>)
    requires Normalizes(embed, dimension) && IsDiff(embed, dimension, texts, texts, chunks, scores, best, entries)
    requires ReportsThenRemoved(chunks, texts, texts, removed)
    requires forall k :: 0 <= k < |removed| ==> !Claimed(scores, best, removed[k])
    requires forall j: nat :: j < |texts| && !Claimed(scores, best, j) ==> j in removed
    ensures forall i :: 0 <= i < |texts| ==> chunks[i].status == Unchanged
    ensures SummaryOf(chunks).added == 0 && SummaryOf(chunks).modified == 0
    ensures forall j: nat :: j < |texts| ==> (j in removed <==> RepeatsEarlier(embed, texts, j))
  {
    SelfDiff(embed, dimension, texts, chunks, scores, best, entries);
  }

  method DiffRiskFactorTexts(oldText: string, newText: string, embed: Embedder, ghost dimension: nat)
    returns (chunks: seq<DiffChunk>, summary: Summary, ghost olds: seq<string>, ghost news: seq<string>,
             ghost scores: seq<real>, ghost best: seq<int>, ghost entries: seq<DiffChunk>, ghost removed: seq<nat>)
    requires Normalizes(embed, dimension)
    ensures Chunking.AreChunksOf(olds, oldText) && Chunking.AreChunksOf(news, newText)
    ensures IsDiff(embed, dimension, news, olds, chunks, scores, best, entries) && summary == SummaryOf(chunks)
    ensures ReportsThenRemoved(chunks, news, olds, removed)
    ensures forall j: nat :: j < |olds| ==> (j in removed <==> !Claimed(scores, best, j))
    ensures oldText == newText ==> olds == news && summary.added == 0 && summary.modified == 0
    ensures oldText == newText ==> forall j: nat :: j < |olds| ==> (j in removed <==> RepeatsEarlier(embed, olds, j))
  {
    var oldChunks, oldMerged, oldParts, oldKept, oldAt := Chunking.ChunkRiskFactorText(oldText);
    var newChunks, newMerged, newParts, newKept, newAt := Chunking.ChunkRiskFactorText(newText);
    olds, news := oldChunks, newChunks;
    chunks, summary, scores, best, entries := DiffChunks(oldChunks, newChunks, embed, dimension);
    removed := DiffPartitions(embed, dimension, news, olds, chunks, scores, best, entries);
    if oldText == newText {
      ChunksDetermined.ChunksAreDetermined(olds, news, newText);
      SelfReport(embed, dimension, news, chunks, scores, best, entries, removed);
    }
  }
}
