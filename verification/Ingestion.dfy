/** Storing a company's facts, and why the annual figures read back are the ones that were chosen. */
module Ingestion {
  import opened Common
  import opened AnnualFacts
  import opened FactStore

  /** The company rows, the fact table and the log of facts the gate refused. */
  class FactDatabase {
    var companies: map<Cik, string>
    var facts: Table
    var quarantined: seq<Upload>

    constructor ()
      ensures companies == map[] && facts == map[] && quarantined == []
    {
      companies, facts, quarantined := map[], map[], [];
    }

    method UpsertFact(u: Upload)
      modifies this`facts, this`quarantined
      ensures facts == Upsert(old(facts), u)
      ensures quarantined == old(quarantined) + Refused([u])
    {
      assert [u][..0] == [];
      if !ValidFact(u.unit, u.fact) {
        quarantined := quarantined + [u];
        return;
      }
      var key := KeyOf(u);
      if key in facts {
        facts := facts[key := facts[key].(value := u.fact.val.value, form := u.fact.form, filed := u.fact.filed,
                                          fiscalYear := FiscalYearOf(u.fact))];
      } else {
        facts := facts[key := NewRow(u.fact)];
      }
    }

    /** Some uploads, one after the other. */
    method UpsertFacts(us: seq<Upload>)
      modifies this`facts, this`quarantined
      ensures facts == UpsertAll(old(facts), us)
      ensures quarantined == old(quarantined) + Refused(us)
    {
      ghost var before, refused := facts, quarantined;
      for i := 0 to |us|
        invariant facts == UpsertAll(before, us[..i])
        invariant quarantined == refused + Refused(us[..i])
      {
        OneFurther(us, i);
        UpsertOneMore(before, us[..i], us[i]);
        RefusedConcat(us[..i], [us[i]]);
        Associates(refused, Refused(us[..i]), Refused([us[i]]));
        UpsertFact(us[i]);
      }
      WholePrefix(us);
    }

    /** The most recent fact under some tags, if there is one. */
    method StoreMostRecent(cik: Cik, doc: Document, tags: seq<Tag>)
      modifies this`facts, this`quarantined
      ensures facts == UpsertAll(old(facts), RecentUpload(cik, doc, tags))
      ensures quarantined == old(quarantined) + Refused(RecentUpload(cik, doc, tags))
    {
      var recent := MostRecentFact(doc, tags);
      if recent.Some? {
        UpsertOneMore(facts, [], Upload(cik, recent.value.0, recent.value.1, "USD"));
        assert [] + [Upload(cik, recent.value.0, recent.value.1, "USD")] == RecentUpload(cik, doc, tags);
        UpsertFact(Upload(cik, recent.value.0, recent.value.1, "USD"));
      }
    }

    /** One concept's annual figures. */
    method StoreConcept(cik: Cik, doc: Document, c: Concept)
      modifies this`facts, this`quarantined
      ensures facts == UpsertAll(old(facts), ConceptUploads(cik, doc, c))
      ensures quarantined == old(quarantined) + Refused(ConceptUploads(cik, doc, c))
    {
      var answer := AnnualFactsOf(doc, TagsOf(c), UnitOf(c), HISTORY_YEARS, None, MINIMUM_YEARS);
      var result := answer.selection;
      if result.None? {
        return;
      }
      UpsertFacts(FactUploads(cik, result.value));
    }

    method StoreConcepts(cik: Cik, doc: Document, cs: seq<Concept>)
      modifies this`facts, this`quarantined
      ensures facts == UpsertAll(old(facts), UploadsOf(cik, doc, cs))
      ensures quarantined == old(quarantined) + Refused(UploadsOf(cik, doc, cs))
    {
      ghost var before, refused := facts, quarantined;
      for i := 0 to |cs|
        invariant facts == UpsertAll(before, UploadsOf(cik, doc, cs[..i]))
        invariant quarantined == refused + Refused(UploadsOf(cik, doc, cs[..i]))
      {
        StoringOneMore(before, refused, cik, doc, cs, i);
        StoreConcept(cik, doc, cs[i]);
      }
      WholePrefix(cs);
    }

    /** The company's row, and every fact ingestion takes from its companyfacts document. */
    method StoreCompanyFacts(cik: Cik, entityName: string, doc: Document)
      modifies this
      ensures companies == old(companies)[cik := entityName]
      ensures facts == UpsertAll(old(facts), Uploads(cik, doc))
      ensures quarantined == old(quarantined) + Refused(Uploads(cik, doc))
    {
      companies := companies[cik := entityName];
      UploadsInOrder(facts, quarantined, cik, doc);
      StoreMostRecent(cik, doc, REVENUE_TAGS);
      StoreMostRecent(cik, doc, NET_INCOME_TAGS);
      StoreConcepts(cik, doc, CONCEPTS);
    }
  }

  lemma UploadsInOrder(t: Table, refused: seq<Upload>, cik: Cik, doc: Document)
    ensures var a, b := RecentUpload(cik, doc, REVENUE_TAGS), RecentUpload(cik, doc, NET_INCOME_TAGS);
            var c := UploadsOf(cik, doc, CONCEPTS);
            && UpsertAll(t, Uploads(cik, doc)) == UpsertAll(UpsertAll(UpsertAll(t, a), b), c)
            && refused + Refused(Uploads(cik, doc)) == refused + Refused(a) + Refused(b) + Refused(c)
  {
    var a, b := RecentUpload(cik, doc, REVENUE_TAGS), RecentUpload(cik, doc, NET_INCOME_TAGS);
    var c := UploadsOf(cik, doc, CONCEPTS);
    UpsertAllConcat(t, a, b);
    UpsertAllConcat(t, a + b, c);
    RefusedConcat(a, b);
    RefusedConcat(a + b, c);
    Associates(refused, Refused(a) + Refused(b), Refused(c));
    Associates(refused, Refused(a), Refused(b));
  }

  lemma StoringOneMore(t: Table, refused: seq<Upload>, cik: Cik, doc: Document, cs: seq<Concept>, i: nat)
    requires i < |cs|
    ensures UpsertAll(t, UploadsOf(cik, doc, cs[..i + 1]))
            == UpsertAll(UpsertAll(t, UploadsOf(cik, doc, cs[..i])), ConceptUploads(cik, doc, cs[i]))
    ensures refused + Refused(UploadsOf(cik, doc, cs[..i + 1]))
            == refused + Refused(UploadsOf(cik, doc, cs[..i])) + Refused(ConceptUploads(cik, doc, cs[i]))
  {
    var before, mine := UploadsOf(cik, doc, cs[..i]), ConceptUploads(cik, doc, cs[i]);
    OneFurther(cs, i);
    OneMoreConcept(cik, doc, cs[..i], cs[i]);
    UpsertAllConcat(t, before, mine);
    RefusedConcat(before, mine);
    Associates(refused, Refused(before), Refused(mine));
  }

  // Which rows a company's ingestion leaves under one concept.

  /** No upload is under one of the tags. */
  ghost predicate Elsewhere(us: seq<Upload>, tags: seq<Tag>) {
    forall i :: 0 <= i < |us| ==> us[i].tag !in tags
  }

  lemma {:induction false} ElsewhereLeavesAlone(t: Table, us: seq<Upload>, tags: seq<Tag>, k: RowKey)
    requires Elsewhere(us, tags) && k.tag in tags
    ensures k in UpsertAll(t, us) <==> k in t
    ensures k in t ==> UpsertAll(t, us)[k] == t[k]
    decreases |us|
  {
    if us != [] {
      assert us[0].tag !in tags;
      assert forall i :: 0 <= i < |us[1..]| ==> us[1..][i] == us[i + 1];
      ElsewhereLeavesAlone(Upsert(t, us[0]), us[1..], tags, k);
    }
  }

  lemma ConceptUploadsAreOwned(cik: Cik, doc: Document, c: Concept, i: nat)
    requires i < |ConceptUploads(cik, doc, c)|
    ensures Owner(ConceptUploads(cik, doc, c)[i].tag) == Some(c)
  {
    SelectedMeans(doc, TagsOf(c), UnitOf(c), HISTORY_YEARS, None, MINIMUM_YEARS);
    var s := Selected(doc, TagsOf(c), UnitOf(c), HISTORY_YEARS, None, MINIMUM_YEARS).value;
    var b :| 0 <= b < |TagsOf(c)| && TagsOf(c)[b] == s.tag;
    ConceptsAreDisjoint(c, s.tag);
  }

  lemma RecentIsElsewhere(cik: Cik, doc: Document, of: Concept, c: Concept)
    requires c != of
    ensures Elsewhere(RecentUpload(cik, doc, TagsOf(of)), TagsOf(c))
  {
    MostRecentMeans(doc, TagsOf(of));
    var r := MostRecent(doc, TagsOf(of));
    if r.Some? {
      ConceptsAreDisjoint(of, r.value.0);
      if r.value.0 in TagsOf(c) {
        ConceptsAreDisjoint(c, r.value.0);
      }
    }
  }

  lemma AnotherIsElsewhere(cik: Cik, doc: Document, of: Concept, c: Concept)
    requires c != of
    ensures Elsewhere(ConceptUploads(cik, doc, of), TagsOf(c))
  {
    var us := ConceptUploads(cik, doc, of);
    forall i | 0 <= i < |us|
      ensures us[i].tag !in TagsOf(c)
    {
      ConceptUploadsAreOwned(cik, doc, of, i);
      if us[i].tag in TagsOf(c) {
        ConceptsAreDisjoint(c, us[i].tag);
      }
    }
  }

  lemma {:induction false} OtherConceptsAreElsewhere(cik: Cik, doc: Document, cs: seq<Concept>, c: Concept)
    requires c !in cs
    ensures Elsewhere(UploadsOf(cik, doc, cs), TagsOf(c))
    decreases |cs|
  {
    if cs != [] {
      var n := |cs| - 1;
      var mine := ConceptUploads(cik, doc, cs[n]);
      OtherConceptsAreElsewhere(cik, doc, cs[..n], c);
      AnotherIsElsewhere(cik, doc, cs[n], c);
      SplitLast(cs);
      OneMoreConcept(cik, doc, cs[..n], cs[n]);
      ElsewhereConcat(UploadsOf(cik, doc, cs[..n]), mine, TagsOf(c));
    }
  }

  lemma OneMoreConcept(cik: Cik, doc: Document, cs: seq<Concept>, c: Concept)
    ensures UploadsOf(cik, doc, cs + [c]) == UploadsOf(cik, doc, cs) + ConceptUploads(cik, doc, c)
  {
    assert Batches(cik, doc, cs + [c]) == Batches(cik, doc, cs) + [ConceptUploads(cik, doc, c)];
    FlattenOneMore(Batches(cik, doc, cs), ConceptUploads(cik, doc, c));
  }

  lemma UploadsConcat(cik: Cik, doc: Document, cs: seq<Concept>, k: nat)
    requires k <= |cs|
    ensures UploadsOf(cik, doc, cs) == UploadsOf(cik, doc, cs[..k]) + UploadsOf(cik, doc, cs[k..])
  {
    assert Batches(cik, doc, cs) == Batches(cik, doc, cs[..k]) + Batches(cik, doc, cs[k..]);
    FlattenConcat(Batches(cik, doc, cs[..k]), Batches(cik, doc, cs[k..]));
  }

  /** The concept's own uploads stand between uploads that are all elsewhere. */
  lemma SplitAt(cik: Cik, doc: Document, cs: seq<Concept>, c: Concept, p: nat)
    requires p < |cs| && cs[p] == c && c !in cs[..p] && c !in cs[p + 1..]
    ensures UploadsOf(cik, doc, cs)
            == UploadsOf(cik, doc, cs[..p]) + ConceptUploads(cik, doc, c) + UploadsOf(cik, doc, cs[p + 1..])
    ensures Elsewhere(UploadsOf(cik, doc, cs[..p]), TagsOf(c)) && Elsewhere(UploadsOf(cik, doc, cs[p + 1..]), TagsOf(c))
  {
    OneFurther(cs, p);
    OneMoreConcept(cik, doc, cs[..p], c);
    UploadsConcat(cik, doc, cs, p + 1);
    OtherConceptsAreElsewhere(cik, doc, cs[..p], c);
    OtherConceptsAreElsewhere(cik, doc, cs[p + 1..], c);
  }

  function Place(c: Concept): nat {
    match c
    case TotalRevenue => 0
    case NetIncome => 1
    case TotalAssets => 2
    case TotalLiabilities => 3
    case CurrentAssets => 4
    case CurrentLiabilities => 5
    case RetainedEarnings => 6
    case OperatingIncome => 7
    case Equity => 8
    case CashFromOperations => 9
    case NoncurrentDebt => 10
    case SharesOutstanding => 11
    case GrossEarnings => 12
    case Receivables => 13
    case PropertyAndEquipment => 14
    case DepreciationCharge => 15
    case SgaExpense => 16
    case CostOfSales => 17
    case SellingExpense => 18
    case AdminExpense => 19
  }

  lemma PlaceIsUnique(i: nat)
    requires i < |CONCEPTS|
    ensures Place(CONCEPTS[i]) == i
  {
  }

  lemma OnlyAtItsPlace(cs: seq<Concept>, c: Concept)
    requires Place(c) < |cs| && forall i :: 0 <= i < |cs| ==> Place(cs[i]) == i
    ensures c !in cs[..Place(c)] && c !in cs[Place(c) + 1..]
  {
    var p := Place(c);
    var later := cs[p + 1..];
    forall i | 0 <= i < |later|
      ensures later[i] != c
    {
      assert later[i] == cs[p + 1 + i];
    }
  }

  lemma ConceptAtPlace(c: Concept)
    ensures Place(c) < |CONCEPTS| && CONCEPTS[Place(c)] == c
  {
  }

  lemma ConceptIsPlaced(c: Concept)
    ensures Place(c) < |CONCEPTS| && CONCEPTS[Place(c)] == c
    ensures c !in CONCEPTS[..Place(c)] && c !in CONCEPTS[Place(c) + 1..]
  {
    ConceptAtPlace(c);
    forall i | 0 <= i < |CONCEPTS|
      ensures Place(CONCEPTS[i]) == i
    {
      PlaceIsUnique(i);
    }
    OnlyAtItsPlace(CONCEPTS, c);
  }

  // The figures chosen for a concept, as rows.

  /** What the facts of a selection are: annual values, one for each year, newest first. */
  ghost predicate AnnualSelection(s: Selection, unit: string) {
    && s.unit == unit && 0 < |s.facts| <= HISTORY_YEARS
    && (forall i :: 0 <= i < |s.facts| ==> Qualifies(s.facts[i], None) && s.facts[i].fy == YearOf(s.facts[i].end))
    && (forall i, j :: 0 <= i < j < |s.facts| ==> s.facts[i].fy > s.facts[j].fy)
  }

  lemma SelectionIsAnnual(doc: Document, tags: seq<Tag>, unit: string)
    requires Selected(doc, tags, unit, HISTORY_YEARS, None, MINIMUM_YEARS).Some?
    ensures var s := Selected(doc, tags, unit, HISTORY_YEARS, None, MINIMUM_YEARS).value;
            AnnualSelection(s, unit) && s.tag in tags
  {
    var all := AllSeries(doc, tags, unit, None);
    var s := Selected(doc, tags, unit, HISTORY_YEARS, None, MINIMUM_YEARS).value;
    var b := Best(all, MINIMUM_YEARS, |all|).value;
    var values := Values(doc, tags[b], unit);
    assert all[b] == Series(values, None);
    forall i | 0 <= i < |s.facts|
      ensures Qualifies(s.facts[i], None) && s.facts[i].fy == YearOf(s.facts[i].end)
    {
      SeriesAt(values, None, i);
    }
    forall i, j | 0 <= i < j < |s.facts|
      ensures s.facts[i].fy > s.facts[j].fy
    {
      SeriesMeans(values, None, i, j);
    }
  }

  ghost predicate NoRowsUnder(t: Table, cik: Cik, tags: seq<Tag>) {
    forall k :: k in t && k.cik == cik ==> k.tag !in tags
  }

  ghost predicate AllValid(s: Selection) {
    forall i :: 0 <= i < |s.facts| ==> ValidFact(s.unit, s.facts[i])
  }

  /** The company's rows under the tags are exactly the selection's facts. */
  ghost predicate HoldsExactly(t: Table, cik: Cik, tags: seq<Tag>, s: Selection) {
    && AllValid(s)
    && (forall i :: 0 <= i < |s.facts| ==>
          KeyOf(Upload(cik, s.tag, s.facts[i], s.unit)) in t
          && t[KeyOf(Upload(cik, s.tag, s.facts[i], s.unit))] == NewRow(s.facts[i]))
    && (forall k :: k in t && k.cik == cik && k.tag in tags ==>
          exists i :: 0 <= i < |s.facts| && k == KeyOf(Upload(cik, s.tag, s.facts[i], s.unit)))
  }

  lemma UploadingHoldsExactly(t: Table, cik: Cik, tags: seq<Tag>, s: Selection, unit: string)
    requires AnnualSelection(s, unit) && AllValid(s) && NoRowsUnder(t, cik, tags) && s.tag in tags
    ensures HoldsExactly(UpsertAll(t, FactUploads(cik, s)), cik, tags, s)
  {
    var us := FactUploads(cik, s);
    assert Consistent(us);
    forall i | 0 <= i < |s.facts|
      ensures KeyOf(us[i]) in UpsertAll(t, us) && UpsertAll(t, us)[KeyOf(us[i])] == NewRow(s.facts[i])
    {
      RowAfter(t, us, KeyOf(us[i]));
      assert us[i] in us;
    }
    forall k | k in UpsertAll(t, us) && k.cik == cik && k.tag in tags
      ensures exists i :: 0 <= i < |s.facts| && k == KeyOf(us[i])
    {
      RowAfter(t, us, k);
      var u :| u in us && KeyOf(u) == k;
      var i :| 0 <= i < |us| && us[i] == u;
    }
  }

  lemma HoldsExactlyAmongOthers(t: Table, before: seq<Upload>, after: seq<Upload>, cik: Cik, tags: seq<Tag>,
          s: Selection, unit: string)
    requires AnnualSelection(s, unit) && AllValid(s) && NoRowsUnder(t, cik, tags) && s.tag in tags
    requires Elsewhere(before, tags) && Elsewhere(after, tags)
    ensures HoldsExactly(UpsertAll(t, before + FactUploads(cik, s) + after), cik, tags, s)
  {
    var mine := FactUploads(cik, s);
    var t1 := UpsertAll(t, before);
    var t2 := UpsertAll(t1, mine);
    UpsertAllConcat(t, before, mine);
    UpsertAllConcat(t, before + mine, after);
    forall k | k in t1 && k.cik == cik
      ensures k.tag !in tags
    {
      if k.tag in tags {
        ElsewhereLeavesAlone(t, before, tags, k);
      }
    }
    UploadingHoldsExactly(t1, cik, tags, s, unit);
    forall k: RowKey | k.tag in tags
      ensures k in UpsertAll(t2, after) <==> k in t2
      ensures k in t2 ==> UpsertAll(t2, after)[k] == t2[k]
    {
      ElsewhereLeavesAlone(t2, after, tags, k);
    }
  }

  lemma ElsewhereConcat(a: seq<Upload>, b: seq<Upload>, tags: seq<Tag>)
    requires Elsewhere(a, tags) && Elsewhere(b, tags)
    ensures Elsewhere(a + b, tags)
  {
  }

  lemma Around(cik: Cik, doc: Document, head: seq<Upload>, cs: seq<Concept>, c: Concept, p: nat)
    returns (before: seq<Upload>, after: seq<Upload>)
    requires p < |cs| && cs[p] == c && c !in cs[..p] && c !in cs[p + 1..] && Elsewhere(head, TagsOf(c))
    ensures head + UploadsOf(cik, doc, cs) == before + ConceptUploads(cik, doc, c) + after
    ensures Elsewhere(before, TagsOf(c)) && Elsewhere(after, TagsOf(c))
  {
    var early := UploadsOf(cik, doc, cs[..p]);
    SplitAt(cik, doc, cs, c, p);
    ElsewhereConcat(head, early, TagsOf(c));
    before, after := head + early, UploadsOf(cik, doc, cs[p + 1..]);
    Associates(head, early + ConceptUploads(cik, doc, c), after);
    Associates(head, early, ConceptUploads(cik, doc, c));
  }

  /** All uploads of a company, with those of one concept in their place. */
  lemma UploadsAround(cik: Cik, doc: Document, c: Concept) returns (before: seq<Upload>, after: seq<Upload>)
    requires !c.TotalRevenue? && !c.NetIncome?
    ensures Uploads(cik, doc) == before + ConceptUploads(cik, doc, c) + after
    ensures Elsewhere(before, TagsOf(c)) && Elsewhere(after, TagsOf(c))
  {
    var head := RecentUpload(cik, doc, TagsOf(TotalRevenue)) + RecentUpload(cik, doc, TagsOf(NetIncome));
    RecentIsElsewhere(cik, doc, TotalRevenue, c);
    RecentIsElsewhere(cik, doc, NetIncome, c);
    ElsewhereConcat(RecentUpload(cik, doc, TagsOf(TotalRevenue)), RecentUpload(cik, doc, TagsOf(NetIncome)), TagsOf(c));
    ConceptIsPlaced(c);
    before, after := Around(cik, doc, head, CONCEPTS, c, Place(c));
  }

  /** Ingesting a company leaves, under a concept it had no rows for, exactly the chosen facts. */
  lemma IngestionHoldsExactly(t: Table, cik: Cik, doc: Document, c: Concept)
    requires !c.TotalRevenue? && !c.NetIncome? && NoRowsUnder(t, cik, TagsOf(c))
    requires var s := Selected(doc, TagsOf(c), UnitOf(c), HISTORY_YEARS, None, MINIMUM_YEARS);
             s.Some? && AllValid(s.value)
    ensures HoldsExactly(UpsertAll(t, Uploads(cik, doc)), cik, TagsOf(c),
                         Selected(doc, TagsOf(c), UnitOf(c), HISTORY_YEARS, None, MINIMUM_YEARS).value)
  {
    SelectionIsAnnual(doc, TagsOf(c), UnitOf(c));
    var before, after := UploadsAround(cik, doc, c);
    HoldsExactlyAmongOthers(t, before, after, cik, TagsOf(c),
                            Selected(doc, TagsOf(c), UnitOf(c), HISTORY_YEARS, None, MINIMUM_YEARS).value, UnitOf(c));
  }

  // From the rows to what the query returns.

  /**
   * A list by descending year within another, and missing nothing it had room for, is as much of the other as there
   * was room for.
   */
  lemma {:induction false} SameByYears(r: seq<AnnualValue>, v: seq<AnnualValue>, room: nat)
    requires NewestYearFirst(r) && NewestYearFirst(v) && |r| <= room
    requires forall x :: x in r ==> x in v
    requires forall j :: 0 <= j < |v| ==> Mentions(r, v[j].fiscalYear) || (|r| == room && AllNewer(r, v[j].fiscalYear))
    ensures r == FirstValues(v, room)
    decreases |v|
  {
    if r == [] {
      assert |v| > 0 ==> !Mentions(r, v[0].fiscalYear);
    } else {
      HeadsAgree(r, v, room);
      TailsAgree(r, v, room);
      SplitFirst(r);
      SplitFirst(v);
      SameByYears(r[1..], v[1..], room - 1);
      FirstOfRest(v, room);
    }
  }

  lemma FirstOfRest(v: seq<AnnualValue>, room: nat)
    requires v != [] && room > 0
    ensures FirstValues(v, room) == [v[0]] + FirstValues(v[1..], room - 1)
  {
  }

  lemma HeadsAgree(r: seq<AnnualValue>, v: seq<AnnualValue>, room: nat)
    requires NewestYearFirst(r) && NewestYearFirst(v) && r != []
    requires forall x :: x in r ==> x in v
    requires forall j :: 0 <= j < |v| ==> Mentions(r, v[j].fiscalYear) || (|r| == room && AllNewer(r, v[j].fiscalYear))
    ensures v != [] && r[0] == v[0]
  {
    assert r[0] in v;
    var k :| 0 <= k < |v| && v[k] == r[0];
    assert r[0].fiscalYear <= v[0].fiscalYear;
    assert Mentions(r, v[0].fiscalYear);
    var i :| 0 <= i < |r| && r[i].fiscalYear == v[0].fiscalYear;
    assert r[i] in v;
  }

  lemma TailsAgree(r: seq<AnnualValue>, v: seq<AnnualValue>, room: nat)
    requires NewestYearFirst(r) && NewestYearFirst(v) && r != [] && v != [] && r[0] == v[0]
    requires forall x :: x in r ==> x in v
    requires forall j :: 0 <= j < |v| ==> Mentions(r, v[j].fiscalYear) || (|r| == room && AllNewer(r, v[j].fiscalYear))
    ensures forall x :: x in r[1..] ==> x in v[1..]
    ensures forall j :: 0 <= j < |v[1..]| ==>
              Mentions(r[1..], v[1..][j].fiscalYear) || (|r[1..]| == room - 1 && AllNewer(r[1..], v[1..][j].fiscalYear))
  {
    var r1, v1 := r[1..], v[1..];
    forall x | x in r1
      ensures x in v1
    {
      var i :| 0 <= i < |r1| && r1[i] == x;
      assert x == r[i + 1] && x in v;
      var k :| 0 <= k < |v| && v[k] == x;
      assert k > 0 && v1[k - 1] == x;
    }
    forall j | 0 <= j < |v1|
      ensures Mentions(r1, v1[j].fiscalYear) || (|r1| == room - 1 && AllNewer(r1, v1[j].fiscalYear))
    {
      assert v1[j] == v[j + 1];
      if Mentions(r, v[j + 1].fiscalYear) {
        var i :| 0 <= i < |r| && r[i].fiscalYear == v[j + 1].fiscalYear;
        assert i > 0 && r1[i - 1] == r[i];
      }
    }
  }

  lemma {:induction false} AtOrBelowMeans(v: seq<AnnualValue>, before: Option<int>)
    requires NewestYearFirst(v)
    ensures NewestYearFirst(AtOrBelow(v, before))
    ensures forall x :: x in AtOrBelow(v, before) <==> x in v && (before.Some? ==> x.fiscalYear <= before.value)
  {
    if v != [] {
      var rest := AtOrBelow(v[1..], before);
      AtOrBelowMeans(v[1..], before);
      SplitFirst(v);
      forall i | 0 <= i < |rest|
        ensures rest[i].fiscalYear < v[0].fiscalYear
      {
        assert rest[i] in rest && rest[i] in v[1..];
        var k :| 0 <= k < |v[1..]| && v[1..][k] == rest[i];
        assert v[k + 1] == rest[i];
      }
    }
  }

  /** What reading back should give: the values chosen, for the years asked for. */
  function ChosenValues(s: Selection, years: nat, before: Option<int>): seq<AnnualValue>
    requires forall i :: 0 <= i < |s.facts| ==> s.facts[i].val.Some?
  {
    FirstValues(AtOrBelow(ValuesOf(s), before), years)
  }

  /** Every annual row of the company under the tags is one of the selection's facts. */
  lemma AnnualRowIsSelected(t: Table, cik: Cik, tags: seq<Tag>, s: Selection, unit: string, before: Option<int>,
          k: RowKey)
    returns (i: nat)
    requires AnnualSelection(s, unit) && HoldsExactly(t, cik, tags, s)
    requires k in t && IsAnnual(t, k, cik, tags, before)
    ensures i < |s.facts| && k.tag == s.tag && t[k].fiscalYear == s.facts[i].fy && t[k].value == s.facts[i].val.value
    ensures k == KeyOf(Upload(cik, s.tag, s.facts[i], s.unit))
    ensures ValuesOf(s)[i] in AtOrBelow(ValuesOf(s), before)
  {
    i :| 0 <= i < |s.facts| && k == KeyOf(Upload(cik, s.tag, s.facts[i], s.unit));
    ValuesDescend(s, unit);
    AtOrBelowMeans(ValuesOf(s), before);
    assert ValuesOf(s)[i] in ValuesOf(s);
  }

  lemma ValuesDescend(s: Selection, unit: string)
    requires AnnualSelection(s, unit) && AllValid(s)
    ensures NewestYearFirst(ValuesOf(s))
  {
  }

  /** And every value within the bound has its row. */
  lemma ChosenRowIsAnnual(t: Table, cik: Cik, tags: seq<Tag>, s: Selection, unit: string, before: Option<int>,
                          x: AnnualValue) returns (i: nat)
    requires AnnualSelection(s, unit) && HoldsExactly(t, cik, tags, s) && s.tag in tags
    requires x in AtOrBelow(ValuesOf(s), before)
    ensures i < |s.facts| && x == ValuesOf(s)[i]
    ensures var k := KeyOf(Upload(cik, s.tag, s.facts[i], s.unit));
            && k in t && IsAnnual(t, k, cik, tags, before)
            && t[k].fiscalYear == x.fiscalYear && t[k].value == x.value
    ensures HasAnnual(t, cik, tags, before, s.tag, x.fiscalYear)
  {
    ValuesDescend(s, unit);
    AtOrBelowMeans(ValuesOf(s), before);
    i :| 0 <= i < |ValuesOf(s)| && ValuesOf(s)[i] == x;
    var k := KeyOf(Upload(cik, s.tag, s.facts[i], s.unit));
    assert t[k] == NewRow(s.facts[i]);
    assert IsAnnual(t, k, cik, tags, before);
  }

  /** Whatever the query may return from such rows is as much of the selection as was asked for. */
  lemma QueryReturnsSelection(t: Table, cik: Cik, tags: seq<Tag>, s: Selection, unit: string, years: nat,
                              before: Option<int>, r: seq<AnnualValue>)
    requires AnnualSelection(s, unit) && HoldsExactly(t, cik, tags, s) && s.tag in tags
    requires AnnualValues(t, cik, tags, years, before, r)
    ensures r == ChosenValues(s, years, before)
  {
    if NoAnnual(t, cik, tags, before) {
      NothingWithin(t, cik, tags, s, unit, before);
    } else {
      var p: nat :| IsChosenTag(t, cik, tags, before, p) && Answers(t, cik, tags, years, before, tags[p], r);
      ChosenIsSelected(t, cik, tags, s, unit, before, p);
      AnswerIsSelection(t, cik, tags, s, unit, years, before, r);
    }
  }

  lemma NothingWithin(t: Table, cik: Cik, tags: seq<Tag>, s: Selection, unit: string, before: Option<int>)
    requires AnnualSelection(s, unit) && HoldsExactly(t, cik, tags, s) && s.tag in tags
    ensures NoAnnual(t, cik, tags, before) <==> AtOrBelow(ValuesOf(s), before) == []
  {
    var v := AtOrBelow(ValuesOf(s), before);
    if v != [] {
      var i := ChosenRowIsAnnual(t, cik, tags, s, unit, before, v[0]);
    } else {
      forall k | k in t && IsAnnual(t, k, cik, tags, before)
        ensures false
      {
        var i := AnnualRowIsSelected(t, cik, tags, s, unit, before, k);
      }
    }
  }

  lemma AnswerIsSelection(t: Table, cik: Cik, tags: seq<Tag>, s: Selection, unit: string, years: nat,
                          before: Option<int>, r: seq<AnnualValue>)
    requires AnnualSelection(s, unit) && HoldsExactly(t, cik, tags, s) && s.tag in tags
    requires Answers(t, cik, tags, years, before, s.tag, r)
    ensures r == ChosenValues(s, years, before)
  {
    var v := AtOrBelow(ValuesOf(s), before);
    ValuesDescend(s, unit);
    AtOrBelowMeans(ValuesOf(s), before);
    forall x | x in r
      ensures x in v
    {
      KeptIsSelected(t, cik, tags, s, unit, before, x);
    }
    forall j | 0 <= j < |v|
      ensures Mentions(r, v[j].fiscalYear) || (|r| == years && AllNewer(r, v[j].fiscalYear))
    {
      var i := ChosenRowIsAnnual(t, cik, tags, s, unit, before, v[j]);
    }
    SameByYears(r, v, years);
  }

  lemma ChosenIsSelected(t: Table, cik: Cik, tags: seq<Tag>, s: Selection, unit: string, before: Option<int>, p: nat)
    requires AnnualSelection(s, unit) && HoldsExactly(t, cik, tags, s) && IsChosenTag(t, cik, tags, before, p)
    ensures tags[p] == s.tag
  {
    var newest :| IsNewest(t, cik, tags, before, p, newest);
    var top :| top in t && IsAnnual(t, top, cik, tags, before) && top.tag == tags[p] && t[top].fiscalYear == newest;
    var _ := AnnualRowIsSelected(t, cik, tags, s, unit, before, top);
  }

  lemma KeptIsSelected(t: Table, cik: Cik, tags: seq<Tag>, s: Selection, unit: string, before: Option<int>,
          x: AnnualValue)
    requires AnnualSelection(s, unit) && HoldsExactly(t, cik, tags, s) && KeptFor(t, cik, tags, before, s.tag, x)
    ensures x in AtOrBelow(ValuesOf(s), before)
  {
    var k :| k in t && IsAnnual(t, k, cik, tags, before) && t[k].fiscalYear == x.fiscalYear && t[k].value == x.value;
    var j := AnnualRowIsSelected(t, cik, tags, s, unit, before, k);
    assert x == ValuesOf(s)[j];
  }

  /** The figures chosen for a concept, as the query would return them: none if nothing was chosen. */
  ghost function Expected(doc: Document, c: Concept, years: nat, before: Option<int>): seq<AnnualValue>
    requires Storable(doc, c)
  {
    var s := Selected(doc, TagsOf(c), UnitOf(c), 5, None, 2);
    if s.None? then [] else ChosenValues(s.value, years, before)
  }

  /** Every fact chosen for the concept passes the gate. */
  ghost predicate Storable(doc: Document, c: Concept) {
    var s := Selected(doc, TagsOf(c), UnitOf(c), 5, None, 2);
    s.Some? ==> AllValid(s.value)
  }

  /**
   * Storing a company and reading a concept back - however many years, up to whatever year - gives exactly the years
   * and values chosen for it, when every chosen fact passes the gate, for every concept that the most-recent facts are
   * not also written under.
   */
  lemma StoredThenReadBack(t: Table, cik: Cik, doc: Document, c: Concept, years: nat, before: Option<int>,
                           r: seq<AnnualValue>)
    requires !c.TotalRevenue? && !c.NetIncome? && NoRowsUnder(t, cik, TagsOf(c)) && Storable(doc, c)
    requires AnnualValues(UpsertAll(t, Uploads(cik, doc)), cik, TagsOf(c), years, before, r)
    ensures r == Expected(doc, c, years, before)
  {
    var s := Selected(doc, TagsOf(c), UnitOf(c), HISTORY_YEARS, None, MINIMUM_YEARS);
    if s.Some? {
      IngestionHoldsExactly(t, cik, doc, c);
      SelectionIsAnnual(doc, TagsOf(c), UnitOf(c));
      QueryReturnsSelection(UpsertAll(t, Uploads(cik, doc)), cik, TagsOf(c), s.value, UnitOf(c), years, before, r);
    } else {
      NothingChosenNothingStored(t, cik, doc, c, before);
    }
  }

  lemma NothingChosenNothingStored(t: Table, cik: Cik, doc: Document, c: Concept, before: Option<int>)
    requires !c.TotalRevenue? && !c.NetIncome? && NoRowsUnder(t, cik, TagsOf(c))
    requires Selected(doc, TagsOf(c), UnitOf(c), HISTORY_YEARS, None, MINIMUM_YEARS).None?
    ensures NoAnnual(UpsertAll(t, Uploads(cik, doc)), cik, TagsOf(c), before)
  {
    var early, late := UploadsAround(cik, doc, c);
    assert early + [] == early;
    ElsewhereConcat(early, late, TagsOf(c));
    forall k | k in UpsertAll(t, Uploads(cik, doc)) && k.cik == cik
      ensures k.tag !in TagsOf(c)
    {
      if k.tag in TagsOf(c) {
        ElsewhereLeavesAlone(t, early + late, TagsOf(c), k);
      }
    }
  }

  /** And the query does have that answer. */
  lemma SelectionIsReturned(t: Table, cik: Cik, tags: seq<Tag>, s: Selection, unit: string, years: nat,
                            before: Option<int>)
    requires AnnualSelection(s, unit) && HoldsExactly(t, cik, tags, s) && s.tag in tags
    ensures AnnualValues(t, cik, tags, years, before, ChosenValues(s, years, before))
  {
    NothingWithin(t, cik, tags, s, unit, before);
    if AtOrBelow(ValuesOf(s), before) != [] {
      var p := FirstIndex(tags, s.tag);
      SelectedTagIsChosen(t, cik, tags, s, unit, before, p);
      SelectionAnswers(t, cik, tags, s, unit, years, before);
      assert Answers(t, cik, tags, years, before, tags[p], ChosenValues(s, years, before));
    }
  }

  lemma NewestIsFirst(v: seq<AnnualValue>, j: nat)
    requires NewestYearFirst(v) && j < |v|
    ensures v[j].fiscalYear <= v[0].fiscalYear
  {
  }

  /** The value an annual row holds is among those within the bound. */
  lemma RowAmong(t: Table, cik: Cik, tags: seq<Tag>, s: Selection, unit: string, before: Option<int>, k: RowKey)
    returns (i: nat, j: nat)
    requires AnnualSelection(s, unit) && HoldsExactly(t, cik, tags, s)
    requires k in t && IsAnnual(t, k, cik, tags, before)
    ensures k.tag == s.tag && i < |s.facts| && j < |AtOrBelow(ValuesOf(s), before)|
    ensures AtOrBelow(ValuesOf(s), before)[j].fiscalYear == t[k].fiscalYear
  {
    i := AnnualRowIsSelected(t, cik, tags, s, unit, before, k);
    var v, x := AtOrBelow(ValuesOf(s), before), ValuesOf(s)[i];
    j :| 0 <= j < |v| && v[j] == x;
  }

  /** A value is within the first ones, or they are full and all newer. */
  lemma WithinOrCut(v: seq<AnnualValue>, count: nat, j: nat)
    requires NewestYearFirst(v) && j < |v|
    ensures var r := FirstValues(v, count);
            Mentions(r, v[j].fiscalYear) || (|r| == count && AllNewer(r, v[j].fiscalYear))
  {
    var r := FirstValues(v, count);
    if j < |r| {
      assert r[j].fiscalYear == v[j].fiscalYear;
    }
  }

  lemma FirstAreAmong(v: seq<AnnualValue>, count: nat)
    requires NewestYearFirst(v)
    ensures NewestYearFirst(FirstValues(v, count)) && |FirstValues(v, count)| <= count
    ensures forall x :: x in FirstValues(v, count) ==> x in v
  {
  }

  lemma OtherTagHasNone(t: Table, cik: Cik, tags: seq<Tag>, s: Selection, unit: string, before: Option<int>, tag: Tag,
                        year: int)
    requires AnnualSelection(s, unit) && HoldsExactly(t, cik, tags, s) && tag != s.tag
    ensures !HasAnnual(t, cik, tags, before, tag, year)
  {
    forall k | k in t && IsAnnual(t, k, cik, tags, before)
      ensures k.tag != tag
    {
      var i := AnnualRowIsSelected(t, cik, tags, s, unit, before, k);
    }
  }

  lemma SelectedTagIsChosen(t: Table, cik: Cik, tags: seq<Tag>, s: Selection, unit: string, before: Option<int>, p: nat)
    requires AnnualSelection(s, unit) && HoldsExactly(t, cik, tags, s) && AtOrBelow(ValuesOf(s), before) != []
    requires p < |tags| && tags[p] == s.tag && forall q :: 0 <= q < p ==> tags[q] != s.tag
    ensures IsChosenTag(t, cik, tags, before, p)
  {
    var v := AtOrBelow(ValuesOf(s), before);
    var top := ChosenRowIsAnnual(t, cik, tags, s, unit, before, v[0]);
    ValuesDescend(s, unit);
    AtOrBelowMeans(ValuesOf(s), before);
    forall k | k in t && IsAnnual(t, k, cik, tags, before)
      ensures k.tag == s.tag && t[k].fiscalYear <= v[0].fiscalYear
    {
      var i, j := RowAmong(t, cik, tags, s, unit, before, k);
      NewestIsFirst(v, j);
    }
    forall q | 0 <= q < p
      ensures !HasAnnual(t, cik, tags, before, tags[q], v[0].fiscalYear)
    {
      OtherTagHasNone(t, cik, tags, s, unit, before, tags[q], v[0].fiscalYear);
    }
    assert IsNewest(t, cik, tags, before, p, v[0].fiscalYear);
  }

  lemma SelectionAnswers(t: Table, cik: Cik, tags: seq<Tag>, s: Selection, unit: string, years: nat,
          before: Option<int>)
    requires AnnualSelection(s, unit) && HoldsExactly(t, cik, tags, s) && s.tag in tags
    ensures Answers(t, cik, tags, years, before, s.tag, ChosenValues(s, years, before))
  {
    var v := AtOrBelow(ValuesOf(s), before);
    var r := FirstValues(v, years);
    ValuesDescend(s, unit);
    AtOrBelowMeans(ValuesOf(s), before);
    FirstAreAmong(v, years);
    forall x | x in r
      ensures KeptFor(t, cik, tags, before, s.tag, x)
    {
      var i := ChosenRowIsAnnual(t, cik, tags, s, unit, before, x);
      SelectedValueIsKept(t, cik, tags, s, unit, before, x, i);
    }
    forall year | HasAnnual(t, cik, tags, before, s.tag, year)
      ensures Mentions(r, year) || (|r| == years && AllNewer(r, year))
    {
      var k :| k in t && IsAnnual(t, k, cik, tags, before) && k.tag == s.tag && t[k].fiscalYear == year;
      var i, j := RowAmong(t, cik, tags, s, unit, before, k);
      WithinOrCut(v, years, j);
    }
  }

  lemma SelectedValueIsKept(t: Table, cik: Cik, tags: seq<Tag>, s: Selection, unit: string, before: Option<int>,
                            x: AnnualValue, i: nat)
    requires AnnualSelection(s, unit) && HoldsExactly(t, cik, tags, s) && s.tag in tags
    requires i < |s.facts| && x == ValuesOf(s)[i]
    requires var k := KeyOf(Upload(cik, s.tag, s.facts[i], s.unit));
             && k in t && IsAnnual(t, k, cik, tags, before) && t[k].fiscalYear == x.fiscalYear && t[k].value == x.value
    ensures KeptFor(t, cik, tags, before, s.tag, x)
  {
    var k := KeyOf(Upload(cik, s.tag, s.facts[i], s.unit));
    forall j | j in t && IsAnnual(t, j, cik, tags, before) && t[j].fiscalYear == x.fiscalYear
      ensures j == k
    {
      var m := AnnualRowIsSelected(t, cik, tags, s, unit, before, j);
    }
  }

  function FirstIndex(tags: seq<Tag>, tag: Tag): (i: nat)
    requires tag in tags
    ensures i < |tags| && tags[i] == tag && forall q :: 0 <= q < i ==> tags[q] != tag
  {
    if tags[0] == tag then 0 else 1 + FirstIndex(tags[1..], tag)
  }
}
