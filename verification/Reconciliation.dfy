/** The nightly cross-check of each stored company's revenue and net income against SEC's bulk file. */
module Reconciliation {
  import opened Common
  import opened AnnualFacts
  import opened FactStore
  import opened Ingestion

  /** What the comparison looks a fact up by; the unit is not part of it. */
  datatype FactKey = FactKey(tag: Tag, start: Option<Date>, end: Date)

  function FactKeyOf(tag: Tag, f: Fact): FactKey {
    FactKey(tag, f.start, f.end)
  }

  ghost predicate Under(t: Table, cik: Cik, key: FactKey, k: RowKey) {
    k in t && k.cik == cik && FactKey(k.tag, t[k].start, k.end) == key
  }

  /** Where the database sorts a unit. */
  type UnitOrder = string -> int

  ghost predicate IsOrder(order: UnitOrder) {
    forall a, b :: order(a) == order(b) ==> a == b
  }

  /** A row whose value may be the one kept for the key: in the last unit the view lists, with the latest date. */
  ghost predicate MayShow(order: UnitOrder, t: Table, cik: Cik, key: FactKey, k: RowKey) {
    && Under(t, cik, key, k)
    && (forall j :: Under(t, cik, key, j) ==> order(j.unit) <= order(k.unit))
    && (forall j :: Under(t, cik, key, j) && j.unit == k.unit ==> t[j].effectiveFrom <= t[k].effectiveFrom)
  }

  /** The company's current values by key, as the view gives them. */
  ghost predicate IsCurrent(order: UnitOrder, t: Table, cik: Cik, current: map<FactKey, real>) {
    && (forall k :: k in t && k.cik == cik ==> FactKey(k.tag, t[k].start, k.end) in current)
    && (forall key :: key in current ==> exists k :: MayShow(order, t, cik, key, k) && t[k].value == current[key])
  }

  /** No row of the key is of a later unit than the one shown, and none of its own unit took effect later. */
  lemma ShownRowIs(order: UnitOrder, t: Table, cik: Cik, current: map<FactKey, real>, key: FactKey)
    returns (k: RowKey)
    requires IsOrder(order) && IsCurrent(order, t, cik, current) && key in current
    ensures k in t && k.cik == cik && k.tag == key.tag && t[k].start == key.start && k.end == key.end
    ensures t[k].value == current[key]
    ensures forall j :: j in t && j.cik == cik && j.tag == key.tag && t[j].start == key.start && j.end == key.end ==>
              order(j.unit) < order(k.unit) || (j.unit == k.unit && t[j].effectiveFrom <= t[k].effectiveFrom)
  {
    k :| MayShow(order, t, cik, key, k) && t[k].value == current[key];
    forall j | j in t && j.cik == cik && j.tag == key.tag && t[j].start == key.start && j.end == key.end
      ensures order(j.unit) < order(k.unit) || (j.unit == k.unit && t[j].effectiveFrom <= t[k].effectiveFrom)
    {
      assert Under(t, cik, key, j);
    }
  }

  /** Missing, or not the value SEC's file has. */
  predicate IsDiscrepancy(current: map<FactKey, real>, u: Upload) {
    var key := FactKeyOf(u.tag, u.fact);
    key !in current || u.fact.val.None? || current[key] != u.fact.val.value
  }

  /** The values hold the bulk file's most recent fact of the list, if it has one, under that fact's tag and period. */
  ghost predicate Shows(values: map<FactKey, real>, doc: Document, tags: seq<Tag>) {
    var bulk := MostRecent(doc, tags);
    bulk.Some? ==>
      var key := FactKey(bulk.value.0, bulk.value.1.start, bulk.value.1.end);
      key in values && bulk.value.1.val == Some(values[key])
  }

  /** The facts of one list of tags that have to be corrected: at most one. */
  function Corrections(cik: Cik, doc: Document, current: map<FactKey, real>, tags: seq<Tag>): seq<Upload> {
    var r := RecentUpload(cik, doc, tags);
    if r != [] && IsDiscrepancy(current, r[0]) then r else []
  }

  function AllCorrections(cik: Cik, doc: Document, current: map<FactKey, real>): seq<Upload> {
    Corrections(cik, doc, current, REVENUE_TAGS) + Corrections(cik, doc, current, NET_INCOME_TAGS)
  }

  /** Listed later in the view, or of the same unit and effective later. */
  predicate Supersedes(order: UnitOrder, t: Table, k: RowKey, j: RowKey)
    requires k in t && j in t
  {
    order(k.unit) > order(j.unit) || (order(k.unit) == order(j.unit) && t[k].effectiveFrom > t[j].effectiveFrom)
  }

  method CurrentValues(db: FactDatabase, cik: Cik, order: UnitOrder) returns (current: map<FactKey, real>)
    requires IsOrder(order)
    ensures IsCurrent(order, db.facts, cik, current)
  {
    var t := db.facts;
    var shown: map<FactKey, RowKey> := map[];
    var rest := t.Keys;
    while rest != {}
      invariant rest <= t.Keys
      invariant forall k :: k in t && k !in rest && k.cik == cik ==> FactKey(k.tag, t[k].start, k.end) in shown
      invariant forall key :: key in shown ==> Under(t, cik, key, shown[key])
      invariant forall key, j :: key in shown && j !in rest && Under(t, cik, key, j)
                                 ==> !Supersedes(order, t, j, shown[key])
      decreases |rest|
    {
      var k :| k in rest;
      rest := rest - {k};
      if k.cik == cik {
        var key := FactKey(k.tag, t[k].start, k.end);
        if key !in shown || Supersedes(order, t, k, shown[key]) {
          shown := shown[key := k];
        }
      }
    }
    current := map key | key in shown :: t[shown[key]].value;
    forall key | key in current
      ensures exists k :: MayShow(order, t, cik, key, k) && t[k].value == current[key]
    {
      forall j | Under(t, cik, key, j)
        ensures order(j.unit) <= order(shown[key].unit)
        ensures j.unit == shown[key].unit ==> t[j].effectiveFrom <= t[shown[key]].effectiveFrom
      {
        assert !Supersedes(order, t, j, shown[key]);
      }
      assert MayShow(order, t, cik, key, shown[key]);
    }
  }

  /** The fact of one list of tags, corrected if the stored value is missing or different. */
  method ReconcileList(db: FactDatabase, cik: Cik, doc: Document, current: map<FactKey, real>, tags: seq<Tag>)
    returns (found: nat)
    modifies db`facts, db`quarantined
    ensures found == |Corrections(cik, doc, current, tags)|
    ensures db.facts == UpsertAll(old(db.facts), Corrections(cik, doc, current, tags))
    ensures db.quarantined == old(db.quarantined) + Refused(Corrections(cik, doc, current, tags))
  {
    found := 0;
    var bulk := MostRecentFact(doc, tags);
    if bulk.Some? {
      var u := Upload(cik, bulk.value.0, bulk.value.1, "USD");
      if IsDiscrepancy(current, u) {
        UpsertOneMore(db.facts, [], u);
        assert [] + [u] == Corrections(cik, doc, current, tags);
        found := 1;
        db.UpsertFact(u);
      }
    }
  }

  /** One more list. */
  lemma ListsInOrder(t: Table, refused: seq<Upload>, a: seq<Upload>, b: seq<Upload>)
    ensures UpsertAll(t, a + b) == UpsertAll(UpsertAll(t, a), b)
    ensures refused + Refused(a + b) == refused + Refused(a) + Refused(b)
  {
    UpsertAllConcat(t, a, b);
    RefusedConcat(a, b);
    Associates(refused, Refused(a), Refused(b));
  }

  /** The corrections of the first lists. */
  function FirstCorrections(cik: Cik, doc: Document, current: map<FactKey, real>, lists: seq<seq<Tag>>): seq<Upload> {
    if lists == [] then []
    else
      FirstCorrections(cik, doc, current, lists[..|lists| - 1])
      + Corrections(cik, doc, current, lists[|lists| - 1])
  }

  lemma BothLists(cik: Cik, doc: Document, current: map<FactKey, real>)
    ensures FirstCorrections(cik, doc, current, [REVENUE_TAGS, NET_INCOME_TAGS]) == AllCorrections(cik, doc, current)
  {
    var first, second := [REVENUE_TAGS], [REVENUE_TAGS, NET_INCOME_TAGS];
    assert first[..0] == [] && FirstCorrections(cik, doc, current, []) == [];
    assert FirstCorrections(cik, doc, current, first) == [] + Corrections(cik, doc, current, REVENUE_TAGS);
    assert second[..1] == first;
  }

  /** One company of the universe; without a `companies` row it is passed over. */
  method ReconcileCompany(db: FactDatabase, cik: Cik, doc: Document, order: UnitOrder)
    returns (discrepancies: nat, current: map<FactKey, real>, stored: bool)
    requires IsOrder(order)
    modifies db`facts, db`quarantined
    ensures stored == (cik in old(db.companies))
    ensures IsCurrent(order, old(db.facts), cik, current)
    ensures stored ==>
              && db.facts == UpsertAll(old(db.facts), AllCorrections(cik, doc, current))
              && db.quarantined == old(db.quarantined) + Refused(AllCorrections(cik, doc, current))
    ensures stored ==>
              discrepancies == (if Shows(current, doc, REVENUE_TAGS) then 0 else 1)
                               + (if Shows(current, doc, NET_INCOME_TAGS) then 0 else 1)
    ensures stored && ChosenAreCorrectable(old(db.facts), cik, doc) ==>
              forall later :: IsCurrent(order, db.facts, cik, later) ==>
                Shows(later, doc, REVENUE_TAGS) && Shows(later, doc, NET_INCOME_TAGS)
    ensures !stored ==> discrepancies == 0 && db.facts == old(db.facts) && db.quarantined == old(db.quarantined)
  {
    discrepancies := 0;
    current := CurrentValues(db, cik, order);
    stored := cik in db.companies;
    if !stored {
      return;
    }
    discrepancies := ReconcileLists(db, cik, doc, current, [REVENUE_TAGS, NET_INCOME_TAGS]);
    BothLists(cik, doc, current);
    ReconcilingShows(order, old(db.facts), cik, doc, current, db.facts);
  }

  /** The loop over the lists, each compared with the values read before the first. */
  method ReconcileLists(db: FactDatabase, cik: Cik, doc: Document, current: map<FactKey, real>, lists: seq<seq<Tag>>)
    returns (discrepancies: nat)
    modifies db`facts, db`quarantined
    ensures discrepancies == |FirstCorrections(cik, doc, current, lists)|
    ensures db.facts == UpsertAll(old(db.facts), FirstCorrections(cik, doc, current, lists))
    ensures db.quarantined == old(db.quarantined) + Refused(FirstCorrections(cik, doc, current, lists))
  {
    discrepancies := 0;
    ghost var before, refused := db.facts, db.quarantined;
    for i := 0 to |lists|
      invariant discrepancies == |FirstCorrections(cik, doc, current, lists[..i])|
      invariant db.facts == UpsertAll(before, FirstCorrections(cik, doc, current, lists[..i]))
      invariant db.quarantined == refused + Refused(FirstCorrections(cik, doc, current, lists[..i]))
    {
      OneFurther(lists, i);
      ListsInOrder(before, refused, FirstCorrections(cik, doc, current, lists[..i]),
                   Corrections(cik, doc, current, lists[i]));
      var found := ReconcileList(db, cik, doc, current, lists[i]);
      discrepancies := discrepancies + found;
    }
    WholePrefix(lists);
  }

  /** What one run counts, and what it leaves. */
  lemma ReconcilingShows(order: UnitOrder, t: Table, cik: Cik, doc: Document, current: map<FactKey, real>, t1: Table)
    requires IsCurrent(order, t, cik, current) && t1 == UpsertAll(t, AllCorrections(cik, doc, current))
    ensures |AllCorrections(cik, doc, current)|
            == (if Shows(current, doc, REVENUE_TAGS) then 0 else 1)
               + (if Shows(current, doc, NET_INCOME_TAGS) then 0 else 1)
    ensures ChosenAreCorrectable(t, cik, doc) ==>
              forall later :: IsCurrent(order, t1, cik, later) ==>
                Shows(later, doc, REVENUE_TAGS) && Shows(later, doc, NET_INCOME_TAGS)
  {
    DiffersOrShows(cik, doc, current, REVENUE_TAGS);
    DiffersOrShows(cik, doc, current, NET_INCOME_TAGS);
    if ChosenAreCorrectable(t, cik, doc) {
      forall later | IsCurrent(order, t1, cik, later)
        ensures Shows(later, doc, REVENUE_TAGS) && Shows(later, doc, NET_INCOME_TAGS)
      {
        SecondRunFindsNothing(order, t, cik, doc, current, later);
      }
    }
  }

  /** A list is corrected exactly if the values do not show its fact. */
  lemma DiffersOrShows(cik: Cik, doc: Document, values: map<FactKey, real>, tags: seq<Tag>)
    ensures |Corrections(cik, doc, values, tags)| == if Shows(values, doc, tags) then 0 else 1
  {
  }

  // What a second run finds.

  /** No period starts on the date a missing start is indexed as, and keys and rows agree on the start. */
  ghost predicate StartsAreClear(t: Table) {
    forall k :: k in t ==>
      t[k].start != Some(1_01_01) && k.startOrFirst == if t[k].start.Some? then t[k].start.value else 1_01_01
  }

  /** Figures under the tag are in dollars, as every writer stores them. */
  ghost predicate OnlyDollars(t: Table, cik: Cik, tag: Tag) {
    forall k :: k in t && k.cik == cik && k.tag == tag ==> k.unit == "USD"
  }

  /** When the fact's own row takes, or has taken, effect. */
  function OwnDate(t: Table, u: Upload): Date {
    if KeyOf(u) in t then t[KeyOf(u)].effectiveFrom else u.fact.filed
  }

  /** Another filing of the period took effect later. */
  ghost predicate Superseded(t: Table, u: Upload) {
    exists k :: Under(t, u.cik, FactKeyOf(u.tag, u.fact), k) && k != KeyOf(u) && t[k].effectiveFrom > OwnDate(t, u)
  }

  /** The filings of the fact's period took effect on different dates. */
  ghost predicate DatesDiffer(t: Table, u: Upload) {
    var key := FactKeyOf(u.tag, u.fact);
    && (forall j, k :: Under(t, u.cik, key, j) && Under(t, u.cik, key, k) && j != k
                       ==> t[j].effectiveFrom != t[k].effectiveFrom)
    && (forall k :: Under(t, u.cik, key, k) && k != KeyOf(u) ==> t[k].effectiveFrom != OwnDate(t, u))
  }

  /** A table on which the comparison of one fact is determined. */
  ghost predicate Determined(t: Table, u: Upload) {
    && StartsAreClear(t) && u.fact.start != Some(1_01_01)
    && OnlyDollars(t, u.cik, u.tag) && DatesDiffer(t, u)
  }

  /** The row that takes effect last is the one shown. */
  lemma LatestIsShown(order: UnitOrder, t: Table, u: Upload, current: map<FactKey, real>, k: RowKey)
    requires OnlyDollars(t, u.cik, u.tag) && IsCurrent(order, t, u.cik, current)
    requires Under(t, u.cik, FactKeyOf(u.tag, u.fact), k)
    requires forall j :: Under(t, u.cik, FactKeyOf(u.tag, u.fact), j) && j != k ==>
            t[j].effectiveFrom < t[k].effectiveFrom
    ensures FactKeyOf(u.tag, u.fact) in current && current[FactKeyOf(u.tag, u.fact)] == t[k].value
  {
    var key := FactKeyOf(u.tag, u.fact);
    var m :| MayShow(order, t, u.cik, key, m) && t[m].value == current[key];
    assert Under(t, u.cik, key, m);
  }

  lemma {:induction false} LatestOf(t: Table, ks: set<RowKey>) returns (k: RowKey)
    requires ks != {} && forall j :: j in ks ==> j in t
    ensures k in ks && forall j :: j in ks ==> t[j].effectiveFrom <= t[k].effectiveFrom
    decreases |ks|
  {
    k :| k in ks;
    if ks != {k} {
      var rest := LatestOf(t, ks - {k});
      var one := k;
      k := if t[rest].effectiveFrom >= t[one].effectiveFrom then rest else one;
      forall j | j in ks
        ensures t[j].effectiveFrom <= t[k].effectiveFrom
      {
        assert j == one || j in ks - {one};
      }
    }
  }

  /** The table after a fact is corrected, at the fact's own period. */
  lemma OnlyOwnRowChanges(t: Table, u: Upload, k: RowKey)
    requires StartsAreClear(t) && u.fact.start != Some(1_01_01) && ValidFact(u.unit, u.fact)
    ensures var t1 := Upsert(t, u);
            var key := FactKeyOf(u.tag, u.fact);
            && (Under(t1, u.cik, key, k) <==> k == KeyOf(u) || Under(t, u.cik, key, k))
            && (k != KeyOf(u) && k in t ==> t1[k] == t[k])
            && t1[KeyOf(u)].effectiveFrom == OwnDate(t, u) && t1[KeyOf(u)].value == u.fact.val.value
  {
  }

  /** Two tables have the same rows under a tag. */
  ghost predicate SameUnder(t: Table, t1: Table, tag: Tag) {
    && (forall k: RowKey :: k.tag == tag ==> (k in t <==> k in t1))
    && (forall k: RowKey :: k.tag == tag && k in t && k in t1 ==> t[k] == t1[k])
  }

  /** Tables that agree under a fact's tag show the same for it. */
  lemma SameRowsSameAnswer(order: UnitOrder, t: Table, t1: Table, u: Upload, current: map<FactKey, real>,
          later: map<FactKey, real>)
    requires DatesDiffer(t, u) && OnlyDollars(t, u.cik, u.tag) && SameUnder(t, t1, u.tag)
    requires IsCurrent(order, t, u.cik, current) && IsCurrent(order, t1, u.cik, later)
    ensures IsDiscrepancy(later, u) <==> IsDiscrepancy(current, u)
  {
    var key := FactKeyOf(u.tag, u.fact);
    var ks := set k | k in t && Under(t, u.cik, key, k);
    SameRowsUnder(t, t1, u.cik, key);
    if ks == {} {
      assert forall k :: k in t && Under(t, u.cik, key, k) ==> k in ks;
      NothingIsShown(order, t, u.cik, key, current);
      NothingIsShown(order, t1, u.cik, key, later);
    } else {
      var top := LatestOf(t, ks);
      assert forall j :: Under(t, u.cik, key, j) ==> j in ks;
      LatestIsShown(order, t, u, current, top);
      LatestIsShown(order, t1, u, later, top);
    }
  }

  lemma SameRowsUnder(t: Table, t1: Table, cik: Cik, key: FactKey)
    requires SameUnder(t, t1, key.tag)
    ensures forall k :: Under(t, cik, key, k) <==> Under(t1, cik, key, k)
    ensures forall k :: Under(t, cik, key, k) ==> t[k] == t1[k]
  {
  }

  lemma NothingIsShown(order: UnitOrder, t: Table, cik: Cik, key: FactKey, current: map<FactKey, real>)
    requires IsCurrent(order, t, cik, current) && forall k :: k in t ==> !Under(t, cik, key, k)
    ensures key !in current
  {
  }

  /**
   * A fact reported by one run is reported again by the next, on the same bulk data, exactly when the
   * gate refuses it or another filing of its period took effect later than it. (`t1` is the table after
   * the correction and after any others, under other tags.)
   */
  lemma ReportedAgainIff(order: UnitOrder, t: Table, t1: Table, u: Upload, current: map<FactKey, real>,
          later: map<FactKey, real>)
    requires Determined(t, u) && u.unit == "USD" && IsCurrent(order, t, u.cik, current)
    requires SameUnder(Upsert(t, u), t1, u.tag) && IsCurrent(order, t1, u.cik, later)
    requires var key := FactKey(u.tag, u.fact.start, u.fact.end); key !in current || Some(current[key]) != u.fact.val
    ensures var key := FactKey(u.tag, u.fact.start, u.fact.end);
            key !in later || Some(later[key]) != u.fact.val <==> !ValidFact(u.unit, u.fact) || Superseded(t, u)
  {
    if !ValidFact(u.unit, u.fact) {
      SameRowsSameAnswer(order, t, t1, u, current, later);
    } else if Superseded(t, u) {
      SupersededStaysWrong(order, t, t1, u, current, later);
    } else {
      CorrectedIsShown(order, t, t1, u, later);
    }
  }

  lemma CorrectedIsShown(order: UnitOrder, t: Table, t1: Table, u: Upload, later: map<FactKey, real>)
    requires Determined(t, u) && u.unit == "USD" && ValidFact(u.unit, u.fact) && !Superseded(t, u)
    requires SameUnder(Upsert(t, u), t1, u.tag) && IsCurrent(order, t1, u.cik, later)
    ensures !IsDiscrepancy(later, u)
    ensures var key := FactKey(u.tag, u.fact.start, u.fact.end); key in later && u.fact.val == Some(later[key])
  {
    var key := FactKeyOf(u.tag, u.fact);
    OnlyOwnRowChanges(t, u, KeyOf(u));
    forall j | Under(t1, u.cik, key, j) && j != KeyOf(u)
      ensures t1[j].effectiveFrom < t1[KeyOf(u)].effectiveFrom
    {
      OnlyOwnRowChanges(t, u, j);
      assert Under(t, u.cik, key, j);
    }
    forall j | j in t1 && j.cik == u.cik && j.tag == u.tag
      ensures j.unit == "USD"
    {
      OnlyOwnRowChanges(t, u, j);
    }
    LatestIsShown(order, t1, u, later, KeyOf(u));
  }

  lemma SupersededStaysWrong(order: UnitOrder, t: Table, t1: Table, u: Upload, current: map<FactKey, real>,
          later: map<FactKey, real>)
    requires Determined(t, u) && u.unit == "USD" && ValidFact(u.unit, u.fact) && Superseded(t, u)
    requires IsCurrent(order, t, u.cik, current) && IsDiscrepancy(current, u)
    requires SameUnder(Upsert(t, u), t1, u.tag) && IsCurrent(order, t1, u.cik, later)
    ensures IsDiscrepancy(later, u)
  {
    var key := FactKeyOf(u.tag, u.fact);
    var some :| Under(t, u.cik, key, some) && some != KeyOf(u) && t[some].effectiveFrom > OwnDate(t, u);
    var ks := set k | k in t && Under(t, u.cik, key, k);
    assert some in ks;
    var top := LatestOf(t, ks);
    assert forall j :: Under(t, u.cik, key, j) ==> j in ks;
    assert top != KeyOf(u);
    LatestIsShown(order, t, u, current, top);
    OnlyOwnRowChanges(t, u, KeyOf(u));
    OnlyOwnRowChanges(t, u, top);
    forall j | Under(t1, u.cik, key, j) && j != top
      ensures t1[j].effectiveFrom < t1[top].effectiveFrom
    {
      OnlyOwnRowChanges(t, u, j);
    }
    forall j | j in t1 && j.cik == u.cik && j.tag == u.tag
      ensures j.unit == "USD"
    {
      OnlyOwnRowChanges(t, u, j);
    }
    LatestIsShown(order, t1, u, later, top);
  }

  /** The other list's corrections are under other tags. */
  lemma OtherListLeavesAlone(t: Table, cik: Cik, doc: Document, current: map<FactKey, real>, mine: Concept,
          other: Concept, u: Upload)
    requires mine != other && [u] == RecentUpload(cik, doc, TagsOf(mine))
    ensures SameUnder(t, UpsertAll(t, Corrections(cik, doc, current, TagsOf(other))), u.tag)
  {
    MostRecentMeans(doc, TagsOf(mine));
    RecentIsElsewhere(cik, doc, other, mine);
    var us := Corrections(cik, doc, current, TagsOf(other));
    assert u.tag in TagsOf(mine) by { assert u == RecentUpload(cik, doc, TagsOf(mine))[0]; }
    forall k: RowKey | k.tag == u.tag
      ensures k in t <==> k in UpsertAll(t, us)
      ensures k in t ==> UpsertAll(t, us)[k] == t[k]
    {
      ElsewhereLeavesAlone(t, us, TagsOf(mine), k);
    }
  }

  /** A chosen bulk fact passes the gate, and no other stored filing of its period took effect later. */
  ghost predicate Correctable(t: Table, u: Upload) {
    Determined(t, u) && ValidFact(u.unit, u.fact) && !Superseded(t, u)
  }

  ghost predicate ChosenAreCorrectable(t: Table, cik: Cik, doc: Document) {
    forall u :: u in RecentUpload(cik, doc, REVENUE_TAGS) + RecentUpload(cik, doc, NET_INCOME_TAGS) ==>
      Correctable(t, u)
  }

  lemma ListIsSettled(order: UnitOrder, t: Table, t1: Table, cik: Cik, doc: Document, tags: seq<Tag>,
          current: map<FactKey, real>,
          later: map<FactKey, real>)
    requires forall u :: u in RecentUpload(cik, doc, tags) ==>
               Correctable(t, u) && SameUnder(UpsertAll(t, Corrections(cik, doc, current, tags)), t1, u.tag)
    requires IsCurrent(order, t, cik, current) && IsCurrent(order, t1, cik, later)
    ensures Corrections(cik, doc, later, tags) == []
  {
    var r := RecentUpload(cik, doc, tags);
    if r != [] {
      var u := r[0];
      assert u in r;
      if IsDiscrepancy(current, u) {
        UpsertOneMore(t, [], u);
        assert [] + [u] == r;
        ReportedAgainIff(order, t, t1, u, current, later);
      } else {
        SameRowsSameAnswer(order, t, t1, u, current, later);
      }
    }
  }

  /**
   * After a run over a stored company every current view shows both bulk facts, so that a second run on the same
   * bulk data finds nothing to correct, when each chosen fact passes the gate and took effect after every other stored
   * filing of its period.
   */
  lemma SecondRunFindsNothing(order: UnitOrder, t: Table, cik: Cik, doc: Document, current: map<FactKey, real>,
          later: map<FactKey, real>)
    requires ChosenAreCorrectable(t, cik, doc)
    requires IsCurrent(order, t, cik, current)
    requires IsCurrent(order, UpsertAll(t, AllCorrections(cik, doc, current)), cik, later)
    ensures AllCorrections(cik, doc, later) == []
    ensures Shows(later, doc, REVENUE_TAGS) && Shows(later, doc, NET_INCOME_TAGS)
  {
    var done := UpsertAll(t, AllCorrections(cik, doc, current));
    CorrectionsAreApart(t, cik, doc, current);
    ListIsSettled(order, t, done, cik, doc, TagsOf(TotalRevenue), current, later);
    ListIsSettled(order, t, done, cik, doc, TagsOf(NetIncome), current, later);
    DiffersOrShows(cik, doc, later, REVENUE_TAGS);
    DiffersOrShows(cik, doc, later, NET_INCOME_TAGS);
  }

  /** Each list's corrections, as far as its own fact is concerned, are the only ones. */
  lemma CorrectionsAreApart(t: Table, cik: Cik, doc: Document, current: map<FactKey, real>)
    ensures var done := UpsertAll(t, AllCorrections(cik, doc, current));
            && (forall u :: u in RecentUpload(cik, doc, TagsOf(TotalRevenue)) ==>
                  SameUnder(UpsertAll(t, Corrections(cik, doc, current, TagsOf(TotalRevenue))), done, u.tag))
            && (forall u :: u in RecentUpload(cik, doc, TagsOf(NetIncome)) ==>
                  SameUnder(UpsertAll(t, Corrections(cik, doc, current, TagsOf(NetIncome))), done, u.tag))
  {
    var a, b := Corrections(cik, doc, current, TagsOf(TotalRevenue)), Corrections(cik, doc, current, TagsOf(NetIncome));
    UpsertAllConcat(t, a, b);
    forall u | u in RecentUpload(cik, doc, TagsOf(TotalRevenue))
      ensures SameUnder(UpsertAll(t, a), UpsertAll(UpsertAll(t, a), b), u.tag)
    {
      assert RecentUpload(cik, doc, TagsOf(TotalRevenue)) == [u];
      OtherListLeavesAlone(UpsertAll(t, a), cik, doc, current, TotalRevenue, NetIncome, u);
    }
    forall u | u in RecentUpload(cik, doc, TagsOf(NetIncome))
      ensures SameUnder(UpsertAll(t, b), UpsertAll(UpsertAll(t, a), b), u.tag)
    {
      assert RecentUpload(cik, doc, TagsOf(NetIncome)) == [u];
      OtherListLeavesAlone(t, cik, doc, current, NetIncome, TotalRevenue, u);
      SameStartSameEnd(t, UpsertAll(t, a), b, u.tag);
    }
  }

  /** At most one upload, on two tables that agree under a tag, leaves them agreeing. */
  lemma SameStartSameEnd(t: Table, mid: Table, us: seq<Upload>, tag: Tag)
    requires SameUnder(t, mid, tag) && |us| <= 1
    ensures SameUnder(UpsertAll(t, us), UpsertAll(mid, us), tag)
  {
    if us != [] {
      assert UpsertAll(t, us) == UpsertAll(Upsert(t, us[0]), us[1..]) == Upsert(t, us[0]);
      assert UpsertAll(mid, us) == UpsertAll(Upsert(mid, us[0]), us[1..]) == Upsert(mid, us[0]);
    }
  }
}
