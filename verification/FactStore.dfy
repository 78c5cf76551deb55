/**
 * The fact table: the gate in front of it, the append-only upsert, what a company's document uploads, and the two
 * queries that read annual and current values back.
 */
module FactStore {
  import opened Common
  import opened AnnualFacts

  type Cik = string

  /** The unique index of `filing_facts`; a missing start counts as 0001-01-01. */
  datatype RowKey = RowKey(cik: Cik, tag: Tag, unit: string, end: Date, startOrFirst: Date, accn: string)

  datatype Row = Row(
    start: Option<Date>,
    value: real,
    fiscalYear: int,
    fiscalPeriod: string,
    form: string,
    filed: Date,
    effectiveFrom: Date)

  type Table = map<RowKey, Row>

  /** One call of `upsertFact`. */
  datatype Upload = Upload(cik: Cik, tag: Tag, fact: Fact, unit: string)

  const MAX_PLAUSIBLE := 50_000_000_000_000.0

  predicate PlausibleDate(d: Date) {
    IsDate(d)
  }

  /** The gate in front of the table. */
  predicate ValidFact(unit: string, f: Fact) {
    && f.val.Some?
    && -MAX_PLAUSIBLE <= f.val.value <= MAX_PLAUSIBLE
    && unit in {"USD", "shares"}
    && PlausibleDate(f.end)
    && (f.start.Some? ==> PlausibleDate(f.start.value))
  }

  function KeyOf(u: Upload): RowKey {
    RowKey(u.cik, u.tag, u.unit, u.fact.end, if u.fact.start.Some? then u.fact.start.value else 1_01_01, u.fact.accn)
  }

  /** A 10-K's annual value is labelled with its period's year, anything else with SEC's. */
  function FiscalYearOf(f: Fact): int {
    if f.form == "10-K" && f.fp == "FY" then YearOf(f.end) else f.fy
  }

  function NewRow(f: Fact): Row
    requires f.val.Some?
  {
    Row(f.start, f.val.value, FiscalYearOf(f), f.fp, f.form, f.filed, f.filed)
  }

  /** What a conflicting insert updates: not the period, and not the date the row took effect. */
  function Updated(r: Row, f: Fact): Row
    requires f.val.Some?
  {
    r.(value := f.val.value, form := f.form, filed := f.filed, fiscalYear := FiscalYearOf(f))
  }

  function Upsert(t: Table, u: Upload): Table {
    if !ValidFact(u.unit, u.fact) then t
    else
      var k := KeyOf(u);
      t[k := if k in t then Updated(t[k], u.fact) else NewRow(u.fact)]
  }

  function UpsertAll(t: Table, us: seq<Upload>): Table
    decreases |us|
  {
    if us == [] then t else UpsertAll(Upsert(t, us[0]), us[1..])
  }

  /** The uploads the gate refuses, in order. */
  function Refused(us: seq<Upload>): seq<Upload> {
    if us == [] then []
    else
      var u := us[|us| - 1];
      Refused(us[..|us| - 1]) + if ValidFact(u.unit, u.fact) then [] else [u]
  }

  lemma {:induction false} RefusedConcat(a: seq<Upload>, b: seq<Upload>)
    ensures Refused(a + b) == Refused(a) + Refused(b)
    decreases |b|
  {
    if b == [] {
      assert a + b == a;
    } else {
      var n := |b| - 1;
      RefusedConcat(a, b[..n]);
      assert (a + b)[..|a + b| - 1] == a + b[..n];
      Associates(Refused(a), Refused(b[..n]), if ValidFact(b[n].unit, b[n].fact) then [] else [b[n]]);
    }
  }

  // What a company's document uploads.

  /** The figures ingestion keeps five years of. */
  datatype Concept =
    | TotalRevenue | NetIncome | TotalAssets | TotalLiabilities | CurrentAssets | CurrentLiabilities
    | RetainedEarnings | OperatingIncome | Equity | CashFromOperations | NoncurrentDebt | SharesOutstanding
    | GrossEarnings | Receivables | PropertyAndEquipment | DepreciationCharge | SgaExpense | CostOfSales
    | SellingExpense | AdminExpense

  const REVENUE_TAGS := [Revenues, RevenueFromContractExcludingTax, SalesRevenueNet, SalesRevenueGoodsNet,
                         RevenueFromContractIncludingTax, RevenuesNetOfInterestExpense,
                         RegulatedAndUnregulatedOperatingRevenue]
  const NET_INCOME_TAGS := [NetIncomeLoss, ProfitLoss]

  /** The tags that may carry a figure, the preferred one first. */
  function TagsOf(c: Concept): seq<Tag> {
    match c
    case TotalRevenue => REVENUE_TAGS
    case NetIncome => NET_INCOME_TAGS
    case TotalAssets => [Assets]
    case TotalLiabilities => [Liabilities]
    case CurrentAssets => [AssetsCurrent]
    case CurrentLiabilities => [LiabilitiesCurrent]
    case RetainedEarnings => [RetainedEarningsAccumulatedDeficit]
    case OperatingIncome => [OperatingIncomeLoss]
    case Equity => [StockholdersEquity, StockholdersEquityIncludingNoncontrollingInterest]
    case CashFromOperations => [OperatingCashFlow, OperatingCashFlowContinuingOperations]
    case NoncurrentDebt => [LongTermDebtNoncurrent, LongTermDebt, LongTermDebtAndCapitalLeaseObligations]
    case SharesOutstanding => [CommonStockSharesOutstanding, WeightedAverageSharesBasic]
    case GrossEarnings => [GrossProfit]
    case Receivables => [AccountsReceivableNetCurrent, ReceivablesNetCurrent, AccountsReceivableNet]
    case PropertyAndEquipment => [PropertyPlantAndEquipmentNet]
    case DepreciationCharge => [DepreciationDepletionAndAmortization, DepreciationAmortizationAndAccretionNet,
                                Depreciation, DepreciationAndAmortization]
    case SgaExpense => [SellingGeneralAndAdministrativeExpense]
    case CostOfSales => [CostOfRevenue, CostOfGoodsAndServicesSold, CostOfGoodsExcludingDepreciation, CostOfGoodsSold]
    case SellingExpense => [SellingAndMarketingExpense]
    case AdminExpense => [GeneralAndAdministrativeExpense]
  }

  function UnitOf(c: Concept): string {
    if c.SharesOutstanding? then "shares" else "USD"
  }

  /** The order ingestion takes them in. */
  const CONCEPTS := [TotalRevenue, NetIncome, TotalAssets, TotalLiabilities, CurrentAssets, CurrentLiabilities,
                     RetainedEarnings, OperatingIncome, Equity, CashFromOperations, NoncurrentDebt, SharesOutstanding,
                     GrossEarnings, Receivables, PropertyAndEquipment, DepreciationCharge, SgaExpense, CostOfSales,
                     SellingExpense, AdminExpense]

  const HISTORY_YEARS := 5
  const MINIMUM_YEARS := 2

  /** The concept a tag belongs to. */
  function Owner(tag: Tag): Option<Concept> {
    match tag
    case Revenues | RevenueFromContractExcludingTax | SalesRevenueNet | SalesRevenueGoodsNet => Some(TotalRevenue)
    case RevenueFromContractIncludingTax | RevenuesNetOfInterestExpense => Some(TotalRevenue)
    case RegulatedAndUnregulatedOperatingRevenue => Some(TotalRevenue)
    case NetIncomeLoss | ProfitLoss => Some(NetIncome)
    case Assets => Some(TotalAssets)
    case Liabilities => Some(TotalLiabilities)
    case AssetsCurrent => Some(CurrentAssets)
    case LiabilitiesCurrent => Some(CurrentLiabilities)
    case RetainedEarningsAccumulatedDeficit => Some(RetainedEarnings)
    case OperatingIncomeLoss => Some(OperatingIncome)
    case StockholdersEquity | StockholdersEquityIncludingNoncontrollingInterest => Some(Equity)
    case OperatingCashFlow | OperatingCashFlowContinuingOperations => Some(CashFromOperations)
    case LongTermDebtNoncurrent | LongTermDebt | LongTermDebtAndCapitalLeaseObligations => Some(NoncurrentDebt)
    case CommonStockSharesOutstanding | WeightedAverageSharesBasic => Some(SharesOutstanding)
    case GrossProfit => Some(GrossEarnings)
    case AccountsReceivableNetCurrent | ReceivablesNetCurrent | AccountsReceivableNet => Some(Receivables)
    case PropertyPlantAndEquipmentNet => Some(PropertyAndEquipment)
    case DepreciationDepletionAndAmortization | DepreciationAmortizationAndAccretionNet => Some(DepreciationCharge)
    case Depreciation | DepreciationAndAmortization => Some(DepreciationCharge)
    case SellingGeneralAndAdministrativeExpense => Some(SgaExpense)
    case CostOfRevenue | CostOfGoodsAndServicesSold | CostOfGoodsExcludingDepreciation => Some(CostOfSales)
    case CostOfGoodsSold => Some(CostOfSales)
    case SellingAndMarketingExpense => Some(SellingExpense)
    case GeneralAndAdministrativeExpense => Some(AdminExpense)
    case OtherTag(_) => None
  }

  lemma RevenueOwner(k: nat)
    requires k < |REVENUE_TAGS|
    ensures Owner(REVENUE_TAGS[k]) == Some(TotalRevenue)
  {
  }

  lemma FirstOwner(c: Concept)
    ensures TagsOf(c) != [] && Owner(TagsOf(c)[0]) == Some(c)
  {
  }

  lemma LaterOwner(c: Concept, k: nat)
    requires !c.TotalRevenue? && 0 < k < |TagsOf(c)|
    ensures Owner(TagsOf(c)[k]) == Some(c)
  {
  }

  /** No tag is in two concepts. */
  lemma ConceptsAreDisjoint(c: Concept, tag: Tag)
    requires tag in TagsOf(c)
    ensures Owner(tag) == Some(c)
  {
    var k :| 0 <= k < |TagsOf(c)| && TagsOf(c)[k] == tag;
    if c.TotalRevenue? {
      RevenueOwner(k);
    } else if k == 0 {
      FirstOwner(c);
    } else {
      LaterOwner(c, k);
    }
  }

  /** And every owned tag is listed under its concept. */
  lemma OwnedTagsAreListed(tag: Tag)
    requires Owner(tag).Some?
    ensures tag in TagsOf(Owner(tag).value)
  {
    if Owner(tag) == Some(TotalRevenue) {
      RevenueTags(tag);
    }
  }

  lemma RevenueTags(tag: Tag)
    requires Owner(tag) == Some(TotalRevenue)
    ensures tag in REVENUE_TAGS
  {
  }

  function FactUploads(cik: Cik, s: Selection): seq<Upload> {
    seq(|s.facts|, i requires 0 <= i < |s.facts| => Upload(cik, s.tag, s.facts[i], s.unit))
  }

  ghost function ConceptUploads(cik: Cik, doc: Document, c: Concept): seq<Upload> {
    var s := Selected(doc, TagsOf(c), UnitOf(c), HISTORY_YEARS, None, MINIMUM_YEARS);
    if s.None? then [] else FactUploads(cik, s.value)
  }

  ghost function Batches(cik: Cik, doc: Document, cs: seq<Concept>): seq<seq<Upload>> {
    seq(|cs|, i requires 0 <= i < |cs| => ConceptUploads(cik, doc, cs[i]))
  }

  ghost function UploadsOf(cik: Cik, doc: Document, cs: seq<Concept>): seq<Upload> {
    Flatten(Batches(cik, doc, cs))
  }

  function RecentUpload(cik: Cik, doc: Document, tags: seq<Tag>): seq<Upload> {
    var r := MostRecent(doc, tags);
    if r.None? then [] else [Upload(cik, r.value.0, r.value.1, "USD")]
  }

  /** All that storing a company uploads, in order. */
  ghost function Uploads(cik: Cik, doc: Document): seq<Upload> {
    RecentUpload(cik, doc, REVENUE_TAGS) + RecentUpload(cik, doc, NET_INCOME_TAGS) + UploadsOf(cik, doc, CONCEPTS)
  }

  lemma {:induction false} UpsertAllConcat(t: Table, a: seq<Upload>, b: seq<Upload>)
    ensures UpsertAll(t, a + b) == UpsertAll(UpsertAll(t, a), b)
    decreases |a|
  {
    if a == [] {
      assert a + b == b;
    } else {
      assert (a + b)[1..] == a[1..] + b;
      UpsertAllConcat(Upsert(t, a[0]), a[1..], b);
    }
  }

  lemma UpsertOneMore(t: Table, us: seq<Upload>, u: Upload)
    ensures UpsertAll(t, us + [u]) == Upsert(UpsertAll(t, us), u)
  {
    UpsertAllConcat(t, us, [u]);
    assert UpsertAll(UpsertAll(t, us), [u]) == UpsertAll(Upsert(UpsertAll(t, us), u), []);
  }

  // What one upload does.

  /** A year, a month and a day of it. */
  ghost predicate HasDateParts(d: Date) {
    0 <= d <= 9999_12_31 && 1 <= d / 100 % 100 <= 12 && 1 <= d % 100 <= 31
  }

  /** A number of up to fifty trillion either way, in dollars or shares, for a period with proper dates. */
  ghost predicate Acceptable(u: Upload) {
    && u.fact.val.Some? && -50_000_000_000_000.0 <= u.fact.val.value <= 50_000_000_000_000.0
    && (u.unit == "USD" || u.unit == "shares")
    && HasDateParts(u.fact.end) && (u.fact.start.Some? ==> HasDateParts(u.fact.start.value))
  }

  /**
   * An acceptable fact gets the row of its company, tag, unit, period and filing, with its value as it is, zero or
   * negative ones included; a row that is there keeps its fiscal period and the date it took effect. Nothing else
   * changes, and nothing at all for other facts.
   */
  lemma UploadMeans(t: Table, u: Upload)
    ensures var f, t1 := u.fact, Upsert(t, u);
            var k := RowKey(u.cik, u.tag, u.unit, f.end, if f.start.Some? then f.start.value else 1_01_01, f.accn);
            var year := if f.form == "10-K" && f.fp == "FY" then f.end / 10000 else f.fy;
            && (!Acceptable(u) ==> t1 == t)
            && (Acceptable(u) ==> t1.Keys == t.Keys + {k} && forall j :: j in t && j != k ==> t1[j] == t[j])
            && (Acceptable(u) && k !in t ==> t1[k] == Row(f.start, f.val.value, year, f.fp, f.form, f.filed, f.filed))
            && (Acceptable(u) && k in t ==>
                  t1[k] == Row(t[k].start, f.val.value, year, t[k].fiscalPeriod, f.form, f.filed, t[k].effectiveFrom))
  {
    assert Acceptable(u) <==> ValidFact(u.unit, u.fact);
  }

  /** A period reported again by another filing keeps both values, each from the date its filing was made. */
  lemma RestatementAppends(t: Table, u: Upload, accn: string, filed: Date, value: real)
    requires accn != u.fact.accn && Acceptable(u) && KeyOf(u) !in t
    requires var v := u.(fact := u.fact.(accn := accn, filed := filed, val := Some(value)));
             Acceptable(v) && KeyOf(v) !in t
    ensures var v := u.(fact := u.fact.(accn := accn, filed := filed, val := Some(value)));
            var r := UpsertAll(t, [u, v]);
            && KeyOf(u) != KeyOf(v) && KeyOf(u) in r && KeyOf(v) in r
            && r[KeyOf(u)].value == u.fact.val.value && r[KeyOf(u)].effectiveFrom == u.fact.filed
            && r[KeyOf(v)].value == value && r[KeyOf(v)].effectiveFrom == filed
  {
    var v := u.(fact := u.fact.(accn := accn, filed := filed, val := Some(value)));
    UploadMeans(t, u);
    UploadMeans(Upsert(t, u), v);
    UpsertOneMore(t, [u], v);
    UpsertOneMore(t, [], u);
    assert [u] + [v] == [u, v] && [] + [u] == [u];
  }

  // Reading back.

  /** The rows `getAnnualValues` considers. */
  predicate IsAnnual(t: Table, k: RowKey, cik: Cik, tags: seq<Tag>, before: Option<int>)
    requires k in t
  {
    && k.cik == cik && k.tag in tags
    && t[k].form == "10-K" && t[k].fiscalPeriod == "FY"
    && AboutAYear(t[k].start, k.end)
    && (before.Some? ==> t[k].fiscalYear <= before.value)
  }

  ghost predicate HasAnnual(t: Table, cik: Cik, tags: seq<Tag>, before: Option<int>, tag: Tag, year: int) {
    exists k :: k in t && IsAnnual(t, k, cik, tags, before) && k.tag == tag && t[k].fiscalYear == year
  }

  /** `chosen`: the tag of a row with the newest year, the first in the list among those. */
  ghost predicate IsChosenTag(t: Table, cik: Cik, tags: seq<Tag>, before: Option<int>, p: nat) {
    p < |tags| && exists newest :: IsNewest(t, cik, tags, before, p, newest)
  }

  ghost predicate IsNewest(t: Table, cik: Cik, tags: seq<Tag>, before: Option<int>, p: nat, newest: int)
    requires p < |tags|
  {
    && HasAnnual(t, cik, tags, before, tags[p], newest)
    && (forall k :: k in t && IsAnnual(t, k, cik, tags, before) ==> t[k].fiscalYear <= newest)
    && (forall q :: 0 <= q < p ==> !HasAnnual(t, cik, tags, before, tags[q], newest))
  }

  /** The row DISTINCT ON keeps for a year: one with the latest effective date. */
  ghost predicate KeptFor(t: Table, cik: Cik, tags: seq<Tag>, before: Option<int>, tag: Tag, v: AnnualValue) {
    exists k :: k in t && IsAnnual(t, k, cik, tags, before) && k.tag == tag
      && t[k].fiscalYear == v.fiscalYear && t[k].value == v.value
      && forall j :: j in t && IsAnnual(t, j, cik, tags, before) && j.tag == tag && t[j].fiscalYear == v.fiscalYear
                     ==> t[j].effectiveFrom <= t[k].effectiveFrom
  }

  ghost predicate NoAnnual(t: Table, cik: Cik, tags: seq<Tag>, before: Option<int>) {
    forall k :: k in t ==> !IsAnnual(t, k, cik, tags, before)
  }

  predicate NewestYearFirst(r: seq<AnnualValue>) {
    forall i, j :: 0 <= i < j < |r| ==> r[i].fiscalYear > r[j].fiscalYear
  }

  predicate Mentions(r: seq<AnnualValue>, year: int) {
    exists i :: 0 <= i < |r| && r[i].fiscalYear == year
  }

  predicate AllNewer(r: seq<AnnualValue>, year: int) {
    forall i :: 0 <= i < |r| ==> r[i].fiscalYear > year
  }

  /** Newest years of one tag first, each with a kept value, as many as there are or as were asked for. */
  ghost predicate Answers(t: Table, cik: Cik, tags: seq<Tag>, years: nat, before: Option<int>, tag: Tag,
          r: seq<AnnualValue>) {
    && |r| <= years
    && NewestYearFirst(r)
    && (forall v :: v in r ==> KeptFor(t, cik, tags, before, tag, v))
    && (forall year :: HasAnnual(t, cik, tags, before, tag, year) ==>
            Mentions(r, year) || (|r| == years && AllNewer(r, year)))
  }

  /** What `getAnnualValues` may return; equal effective dates leave it a choice. */
  ghost predicate AnnualValues(t: Table, cik: Cik, tags: seq<Tag>, years: nat, before: Option<int>,
          r: seq<AnnualValue>) {
    if NoAnnual(t, cik, tags, before) then r == []
    else exists p: nat :: IsChosenTag(t, cik, tags, before, p) && Answers(t, cik, tags, years, before, tags[p], r)
  }

  /** A row of the company from a 10-K for a full year, under one tag. */
  ghost predicate IsYearly(t: Table, k: RowKey, cik: Cik, tag: Tag, year: int) {
    && k in t && k.cik == cik && k.tag == tag && t[k].fiscalYear == year
    && t[k].form == "10-K" && t[k].fiscalPeriod == "FY"
    && (t[k].start.Some? ==>
          && IsDate(t[k].start.value) && IsDate(k.end)
          && 330 <= DayNumber(k.end) - DayNumber(t[k].start.value) <= 400)
  }

  /**
   * Whatever the query returns is under one tag: each value is a yearly row's, for a year no later than asked for,
   * and of the year's rows under that tag one that took effect last.
   */
  lemma ReturnedRowsAreYearly(t: Table, cik: Cik, tags: seq<Tag>, years: nat, before: Option<int>,
                              r: seq<AnnualValue>)
    requires AnnualValues(t, cik, tags, years, before, r) && r != []
    ensures |r| <= years
    ensures exists tag :: tag in tags && forall v :: v in r ==>
              (before.Some? ==> v.fiscalYear <= before.value) && IsLatestOfYear(t, cik, tag, v)
  {
    var p: nat :| IsChosenTag(t, cik, tags, before, p) && Answers(t, cik, tags, years, before, tags[p], r);
    var tag := tags[p];
    assert tag in tags;
    forall v | v in r
      ensures before.Some? ==> v.fiscalYear <= before.value
      ensures IsLatestOfYear(t, cik, tag, v)
    {
      KeptIsLatest(t, cik, tags, before, tag, v);
    }
  }

  /** The value is a yearly row's, one of the year's that took effect last. */
  ghost predicate IsLatestOfYear(t: Table, cik: Cik, tag: Tag, v: AnnualValue) {
    exists k :: IsYearly(t, k, cik, tag, v.fiscalYear) && t[k].value == v.value
                && forall j :: IsYearly(t, j, cik, tag, v.fiscalYear) ==> t[j].effectiveFrom <= t[k].effectiveFrom
  }

  lemma KeptIsLatest(t: Table, cik: Cik, tags: seq<Tag>, before: Option<int>, tag: Tag, v: AnnualValue)
    requires tag in tags && KeptFor(t, cik, tags, before, tag, v)
    ensures before.Some? ==> v.fiscalYear <= before.value
    ensures IsLatestOfYear(t, cik, tag, v)
  {
    var k :| k in t && IsAnnual(t, k, cik, tags, before) && k.tag == tag
             && t[k].fiscalYear == v.fiscalYear && t[k].value == v.value
             && forall j :: (j in t && IsAnnual(t, j, cik, tags, before) && j.tag == tag
                             && t[j].fiscalYear == v.fiscalYear)
                            ==> t[j].effectiveFrom <= t[k].effectiveFrom;
    assert IsYearly(t, k, cik, tag, v.fiscalYear);
    forall j | IsYearly(t, j, cik, tag, v.fiscalYear)
      ensures t[j].effectiveFrom <= t[k].effectiveFrom
    {
      assert IsAnnual(t, j, cik, tags, before);
    }
  }

  /** The values a selection holds. */
  function ValuesOf(s: Selection): seq<AnnualValue>
    requires forall i :: 0 <= i < |s.facts| ==> s.facts[i].val.Some?
  {
    seq(|s.facts|, i requires 0 <= i < |s.facts| => AnnualValue(s.facts[i].fy, s.facts[i].val.value))
  }

  /** The values for years up to a bound, if there is one. */
  function AtOrBelow(v: seq<AnnualValue>, before: Option<int>): seq<AnnualValue> {
    if v == [] then []
    else
      (if before.Some? && v[0].fiscalYear > before.value then [] else [v[0]]) + AtOrBelow(v[1..], before)
  }

  function FirstValues(v: seq<AnnualValue>, count: nat): seq<AnnualValue> {
    if count < |v| then v[..count] else v
  }

  // What any sequence of upserts keeps.

  /** Rows are never removed, and a row changes only by an upload with its own key. */
  lemma {:induction false} AppendOnly(t: Table, us: seq<Upload>, k: RowKey)
    requires k in t
    ensures k in UpsertAll(t, us)
    ensures (forall i :: 0 <= i < |us| ==> KeyOf(us[i]) != k) ==> UpsertAll(t, us)[k] == t[k]
    ensures UpsertAll(t, us)[k].effectiveFrom == t[k].effectiveFrom && UpsertAll(t, us)[k].start == t[k].start
    decreases |us|
  {
    if us != [] {
      AppendOnly(Upsert(t, us[0]), us[1..], k);
      if forall i :: 0 <= i < |us| ==> KeyOf(us[i]) != k {
        assert KeyOf(us[0]) != k;
        assert forall i :: 0 <= i < |us[1..]| ==> us[1..][i] == us[i + 1];
      }
    }
  }

  lemma RepeatChangesNothing(t: Table, u: Upload)
    ensures Upsert(Upsert(t, u), u) == Upsert(t, u)
  {
    if ValidFact(u.unit, u.fact) {
      var once := Upsert(t, u);
      assert once[KeyOf(u)] == Updated(once[KeyOf(u)], u.fact);
    }
  }

  /** The uploads agree on what each key holds. */
  ghost predicate Consistent(us: seq<Upload>) {
    forall i, j :: 0 <= i < |us| && 0 <= j < |us| && KeyOf(us[i]) == KeyOf(us[j]) ==> us[i] == us[j]
  }

  lemma ConsistentWithoutLast(us: seq<Upload>)
    requires Consistent(us) && us != []
    ensures var init, last := us[..|us| - 1], us[|us| - 1];
            && Consistent(init) && (forall u :: u in init && KeyOf(u) == KeyOf(last) ==> u == last)
            && (forall u :: u in us <==> u in init || u == last)
  {
    var n := |us| - 1;
    var init := us[..n];
    SplitLast(us);
    forall i, j | 0 <= i < |init| && 0 <= j < |init| && KeyOf(init[i]) == KeyOf(init[j])
      ensures init[i] == init[j]
    {
      assert init[i] == us[i] && init[j] == us[j];
    }
    forall u | u in init && KeyOf(u) == KeyOf(us[n])
      ensures u == us[n]
    {
      var i :| 0 <= i < |init| && init[i] == u;
      assert us[i] == u;
    }
  }

  /** What one row is after consistent uploads, whatever their order. */
  lemma {:induction false} RowAfter(t: Table, us: seq<Upload>, k: RowKey)
    requires Consistent(us)
    ensures var r := UpsertAll(t, us);
            && (k in r <==> k in t || exists u :: u in us && ValidFact(u.unit, u.fact) && KeyOf(u) == k)
            && (forall u :: u in us && ValidFact(u.unit, u.fact) && KeyOf(u) == k ==>
                  r[k] == if k in t then Updated(t[k], u.fact) else NewRow(u.fact))
            && (k in t && (forall u :: u in us && ValidFact(u.unit, u.fact) ==> KeyOf(u) != k) ==> r[k] == t[k])
    decreases |us|
  {
    if us != [] {
      var n := |us| - 1;
      var init := us[..n];
      SplitLast(us);
      ConsistentWithoutLast(us);
      RowAfter(t, init, k);
      UpsertOneMore(t, init, us[n]);
    }
  }

  /** The order of ingestion leaves no trace, when equal keys carry equal facts. */
  lemma OrderDoesNotMatter(t: Table, us: seq<Upload>, vs: seq<Upload>)
    requires Consistent(us) && Consistent(vs) && (forall u :: u in us <==> u in vs)
    ensures UpsertAll(t, us) == UpsertAll(t, vs)
  {
    var a, b := UpsertAll(t, us), UpsertAll(t, vs);
    forall k
      ensures k in a <==> k in b
      ensures k in a ==> a[k] == b[k]
    {
      RowAfter(t, us, k);
      RowAfter(t, vs, k);
    }
  }

  datatype Period = Period(tag: Tag, unit: string, end: Date, start: Option<Date>)

  function PeriodOf(t: Table, k: RowKey): Period
    requires k in t
  {
    Period(k.tag, k.unit, k.end, t[k].start)
  }

  ghost predicate InPeriod(t: Table, cik: Cik, p: Period, k: RowKey) {
    k in t && k.cik == cik && PeriodOf(t, k) == p
  }

  /** What `getFactsByCik` may return: for each period, a row with the latest effective date. */
  ghost predicate CurrentView(t: Table, cik: Cik, view: map<Period, RowKey>) {
    && (forall k :: k in t && k.cik == cik ==> PeriodOf(t, k) in view)
    && (forall p :: p in view ==>
          && InPeriod(t, cik, p, view[p])
          && forall j :: InPeriod(t, cik, p, j) ==> t[j].effectiveFrom <= t[view[p]].effectiveFrom)
  }

  ghost predicate DistinctDates(t: Table, cik: Cik) {
    forall j, k :: j in t && k in t && j.cik == cik && k.cik == cik && j != k && PeriodOf(t, j) == PeriodOf(t, k)
                   ==> t[j].effectiveFrom != t[k].effectiveFrom
  }

  /** Whatever order a company's filings were ingested in, the current values are the same. */
  lemma CurrentViewIgnoresOrder(t: Table, us: seq<Upload>, vs: seq<Upload>, cik: Cik, view: map<Period, RowKey>,
                                other: map<Period, RowKey>)
    requires Consistent(us) && Consistent(vs) && (forall u :: u in us <==> u in vs)
    requires DistinctDates(UpsertAll(t, us), cik)
    requires CurrentView(UpsertAll(t, us), cik, view) && CurrentView(UpsertAll(t, vs), cik, other)
    ensures view == other
  {
    OrderDoesNotMatter(t, us, vs);
    CurrentViewIsUnique(UpsertAll(t, us), cik, view, other);
  }

  /** Of a period two filings report, the view shows the one that took effect later. */
  lemma RestatementIsShown(t: Table, cik: Cik, view: map<Period, RowKey>, earlier: RowKey, later: RowKey)
    requires CurrentView(t, cik, view) && earlier in t && later in t && earlier.cik == cik && later.cik == cik
    requires PeriodOf(t, earlier) == PeriodOf(t, later) && t[earlier].effectiveFrom < t[later].effectiveFrom
    ensures PeriodOf(t, later) in view && view[PeriodOf(t, later)] in t && view[PeriodOf(t, later)] != earlier
    ensures t[view[PeriodOf(t, later)]].effectiveFrom >= t[later].effectiveFrom
  {
    assert InPeriod(t, cik, PeriodOf(t, later), later);
  }

  lemma CurrentViewIsUnique(t: Table, cik: Cik, view: map<Period, RowKey>, other: map<Period, RowKey>)
    requires DistinctDates(t, cik) && CurrentView(t, cik, view) && CurrentView(t, cik, other)
    ensures view == other
  {
    forall p | p in view
      ensures p in other && view[p] == other[p]
    {
      assert InPeriod(t, cik, p, view[p]);
      assert PeriodOf(t, view[p]) in other;
      assert InPeriod(t, cik, p, other[p]);
    }
    forall p | p in other
      ensures p in view
    {
      assert InPeriod(t, cik, p, other[p]);
      assert PeriodOf(t, other[p]) in view;
    }
  }
}
