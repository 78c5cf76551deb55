/**
 * Choosing a company's annual figures, and its most recent one, from SEC's companyfacts document. A date
 * is the number its digits spell (20250927), which orders dates as the text does.
 */
module AnnualFacts {
  import opened Common

  type Date = int

  /** The XBRL tags the concepts name; any other tag keeps its text. */
  datatype Tag =
    | Revenues | RevenueFromContractExcludingTax | SalesRevenueNet | SalesRevenueGoodsNet
    | RevenueFromContractIncludingTax | RevenuesNetOfInterestExpense | RegulatedAndUnregulatedOperatingRevenue
    | NetIncomeLoss | ProfitLoss
    | Assets | Liabilities | AssetsCurrent | LiabilitiesCurrent | RetainedEarningsAccumulatedDeficit
    | OperatingIncomeLoss | StockholdersEquity | StockholdersEquityIncludingNoncontrollingInterest
    | OperatingCashFlow | OperatingCashFlowContinuingOperations
    | LongTermDebtNoncurrent | LongTermDebt | LongTermDebtAndCapitalLeaseObligations
    | CommonStockSharesOutstanding | WeightedAverageSharesBasic
    | GrossProfit | AccountsReceivableNetCurrent | ReceivablesNetCurrent | AccountsReceivableNet
    | PropertyPlantAndEquipmentNet
    | DepreciationDepletionAndAmortization | DepreciationAmortizationAndAccretionNet | Depreciation
    | DepreciationAndAmortization
    | SellingGeneralAndAdministrativeExpense
    | CostOfRevenue | CostOfGoodsAndServicesSold | CostOfGoodsExcludingDepreciation | CostOfGoodsSold
    | SellingAndMarketingExpense | GeneralAndAdministrativeExpense
    | OtherTag(name: string)

  /** A reported value; None when SEC gives something that is not a finite number. */
  datatype Fact = Fact(
    start: Option<Date>,
    end: Date,
    val: Option<real>,
    fy: int,
    fp: string,
    form: string,
    filed: Date,
    accn: string)

  /** The values of each tag and unit, in the document's order. */
  type Document = map<(Tag, string), seq<Fact>>

  function Values(doc: Document, tag: Tag, unit: string): seq<Fact> {
    if (tag, unit) in doc then doc[(tag, unit)] else []
  }

  function YearOf(d: Date): int {
    d / 10000
  }

  predicate IsDate(d: Date) {
    0 <= d <= 9999_12_31 && 1 <= d / 100 % 100 <= 12 && 1 <= d % 100 <= 31
  }

  /** Days since an epoch, in the Gregorian calendar; years are counted from March. */
  function NumberFrom(year: int, month: int, day: int): int {
    var y := if month <= 2 then year - 1 else year;
    var monthFromMarch := if month > 2 then month - 3 else month + 9;
    365 * y + y / 4 - y / 100 + y / 400 + (153 * monthFromMarch + 2) / 5 + day
  }

  function DayNumber(d: Date): int
    requires IsDate(d)
  {
    NumberFrom(YearOf(d), d / 100 % 100, d % 100)
  }

  // That these are days: the next day of the calendar is numbered one more.

  predicate IsLeapYear(year: int) {
    year % 4 == 0 && (year % 100 != 0 || year % 400 == 0)
  }

  function DaysIn(year: int, month: int): int {
    if month == 2 then (if IsLeapYear(year) then 29 else 28)
    else if month in {4, 6, 9, 11} then 30
    else 31
  }

  /** A day of the calendar. */
  datatype Day = Day(year: int, month: int, day: int) {
    predicate Exists() {
      0 <= year <= 9999 && 1 <= month <= 12 && 1 <= day <= DaysIn(year, month)
    }

    function Next(): Day {
      if day < DaysIn(year, month) then Day(year, month, day + 1)
      else if month < 12 then Day(year, month + 1, 1)
      else Day(year + 1, 1, 1)
    }

    function Written(): Date {
      year * 10000 + month * 100 + day
    }

    function Number(): int {
      NumberFrom(year, month, day)
    }
  }

  lemma WrittenIsRead(d: Day)
    requires d.Exists()
    ensures IsDate(d.Written())
    ensures DayNumber(d.Written()) == d.Number()
  {
    assert d.Written() / 100 == d.year * 100 + d.month;
    assert YearOf(d.Written()) == d.year && d.Written() / 100 % 100 == d.month && d.Written() % 100 == d.day;
  }

  /** A year adds a multiple of four, of a hundred or of four hundred if it is one. */
  lemma Fourth(year: int)
    ensures year / 4 - (year - 1) / 4 == if year % 4 == 0 then 1 else 0
  {
  }

  lemma Hundredth(year: int)
    ensures year / 100 - (year - 1) / 100 == if year % 100 == 0 then 1 else 0
  {
  }

  lemma FourHundredth(year: int)
    ensures year / 400 - (year - 1) / 400 == if year % 400 == 0 then 1 else 0
  {
  }

  lemma MultiplesOfFourHundred(year: int)
    ensures year % 400 == 0 ==> year % 100 == 0
  {
    var n := 4 * (year / 400);
    assert year % 400 == 0 ==> year == 100 * n;
  }

  lemma MultiplesOfHundred(year: int)
    ensures year % 100 == 0 ==> year % 4 == 0
  {
    var n := 25 * (year / 100);
    assert year % 100 == 0 ==> year == 4 * n;
  }

  /** The last day of February. */
  lemma FebruaryEnds(year: int)
    ensures NumberFrom(year, 3, 1) == NumberFrom(year, 2, if IsLeapYear(year) then 29 else 28) + 1
  {
    Fourth(year);
    Hundredth(year);
    FourHundredth(year);
    MultiplesOfFourHundred(year);
    MultiplesOfHundred(year);
  }

  lemma DaysAreCounted(d: Day)
    requires d.Exists()
    ensures d.Next().Number() == d.Number() + 1
  {
    if d.month == 2 && d.day == DaysIn(d.year, 2) {
      FebruaryEnds(d.year);
    }
  }

  predicate AboutAYear(start: Option<Date>, end: Date) {
    start.None? || (IsDate(start.value) && IsDate(end) && 330 <= DayNumber(end) - DayNumber(start.value) <= 400)
  }

  predicate CoversAFullYear(f: Fact) {
    AboutAYear(f.start, f.end)
  }

  predicate Qualifies(f: Fact, maxFiscalYear: Option<int>) {
    && f.form == "10-K" && f.fp == "FY" && CoversAFullYear(f)
    && (maxFiscalYear.Some? ==> YearOf(f.end) <= maxFiscalYear.value)
  }

  // The specification of one tag's annual figures.

  /** Of the qualifying values for a period end, the one filed last; the first of them on equal dates. */
  function LatestFiled(values: seq<Fact>, maxFiscalYear: Option<int>, end: Date): Option<Fact> {
    if values == [] then None
    else
      var before := LatestFiled(values[..|values| - 1], maxFiscalYear, end);
      var f := values[|values| - 1];
      if Qualifies(f, maxFiscalYear) && f.end == end && (before.None? || f.filed > before.value.filed) then Some(f)
      else before
  }

  ghost function Ends(values: seq<Fact>, maxFiscalYear: Option<int>): set<Date> {
    set f | f in values && Qualifies(f, maxFiscalYear) :: f.end
  }

  lemma {:induction false} MaxExists(s: set<int>)
    requires s != {}
    ensures exists m :: m in s && forall x :: x in s ==> x <= m
    decreases |s|
  {
    var x := Member(s);
    if s == {x} {
      assert x in s;
    } else {
      MaxExists(s - {x});
      var m :| m in s - {x} && forall y :: y in s - {x} ==> y <= m;
      var top := if x > m then x else m;
      assert top in s;
      forall y | y in s
        ensures y <= top
      {
        assert y == x || y in s - {x};
      }
    }
  }

  ghost function Max(s: set<int>): (m: int)
    requires s != {}
    ensures m in s && forall x :: x in s ==> x <= m
  {
    MaxExists(s);
    var m :| m in s && forall x :: x in s ==> x <= m;
    m
  }

  /** The members of a set of dates, newest first. */
  ghost function NewestFirst(dates: set<Date>): seq<Date>
    decreases |dates|
  {
    if dates == {} then [] else [Max(dates)] + NewestFirst(dates - {Max(dates)})
  }

  /** Of dates newest first, the first of each year. */
  function FirstOfYears(dates: seq<Date>): seq<Date> {
    if dates == [] then []
    else
      var r := FirstOfYears(dates[..|dates| - 1]);
      var d := dates[|dates| - 1];
      if r == [] || YearOf(r[|r| - 1]) != YearOf(d) then r + [d] else r
  }

  /** One period end for each year, newest first: the latest of the year. */
  ghost function YearEnds(ends: set<Date>): seq<Date> {
    FirstOfYears(NewestFirst(ends))
  }

  predicate Descending(r: seq<Date>) {
    forall i, j :: 0 <= i < j < |r| ==> r[i] > r[j]
  }

  lemma {:induction false} NewestFirstMeans(dates: set<Date>)
    ensures Descending(NewestFirst(dates))
    ensures forall i :: 0 <= i < |NewestFirst(dates)| ==> NewestFirst(dates)[i] in dates
    decreases |dates|
  {
    if dates != {} {
      NewestFirstMeans(dates - {Max(dates)});
    }
  }

  lemma {:induction false} NewestFirstHasAll(dates: set<Date>, d: Date)
    requires d in dates
    ensures d in NewestFirst(dates)
    decreases |dates|
  {
    if d != Max(dates) {
      NewestFirstHasAll(dates - {Max(dates)}, d);
    }
  }

  /** The fact stored for a period end: the latest-filed one, labelled with the period's own year. */
  ghost function Chosen(values: seq<Fact>, maxFiscalYear: Option<int>, end: Date): Fact
    requires LatestFiled(values, maxFiscalYear, end).Some?
  {
    LatestFiled(values, maxFiscalYear, end).value.(fy := YearOf(end))
  }

  lemma {:induction false} LatestFiledMeans(values: seq<Fact>, maxFiscalYear: Option<int>, end: Date)
    ensures var l := LatestFiled(values, maxFiscalYear, end);
            && (l.None? <==>
                  forall i :: 0 <= i < |values| ==> !(Qualifies(values[i], maxFiscalYear) && values[i].end == end))
            && (l.Some? ==>
                  exists k :: 0 <= k < |values| && values[k] == l.value && FirstLatest(values, maxFiscalYear, k))
            && (l.Some? ==> l.value.end == end)
    decreases |values|
  {
    if values != [] {
      var n := |values| - 1;
      var shorter := values[..n];
      LatestFiledMeans(shorter, maxFiscalYear, end);
      var before := LatestFiled(shorter, maxFiscalYear, end);
      var l := LatestFiled(values, maxFiscalYear, end);
      assert forall i :: 0 <= i < n ==> values[i] == shorter[i];
      if l.Some? {
        if l == before {
          var k :| 0 <= k < n && shorter[k] == before.value && FirstLatest(shorter, maxFiscalYear, k);
          assert FirstLatest(values, maxFiscalYear, k);
        } else {
          assert FirstLatest(values, maxFiscalYear, n);
        }
      }
    }
  }

  /** The k-th value is the latest-filed one of its period, and the first such in the document. */
  ghost predicate FirstLatest(values: seq<Fact>, maxFiscalYear: Option<int>, k: nat)
    requires k < |values|
  {
    && Qualifies(values[k], maxFiscalYear)
    && forall i :: 0 <= i < |values| && Qualifies(values[i], maxFiscalYear) && values[i].end == values[k].end
                   ==> values[i].filed < values[k].filed || (values[i].filed == values[k].filed && k <= i)
  }

  lemma EndHasFact(values: seq<Fact>, maxFiscalYear: Option<int>, end: Date)
    requires end in Ends(values, maxFiscalYear)
    ensures LatestFiled(values, maxFiscalYear, end).Some?
  {
    LatestFiledMeans(values, maxFiscalYear, end);
    var f :| f in values && Qualifies(f, maxFiscalYear) && f.end == end;
    var i :| 0 <= i < |values| && values[i] == f;
  }

  lemma YearEndsAreEnds(values: seq<Fact>, maxFiscalYear: Option<int>, i: nat)
    requires i < |YearEnds(Ends(values, maxFiscalYear))|
    ensures YearEnds(Ends(values, maxFiscalYear))[i] in Ends(values, maxFiscalYear)
  {
    var ends := Ends(values, maxFiscalYear);
    NewestFirstMeans(ends);
    FirstOfYearsAreDates(NewestFirst(ends), i);
    var k :| 0 <= k < |NewestFirst(ends)| && NewestFirst(ends)[k] == YearEnds(ends)[i];
  }

  ghost function Series(values: seq<Fact>, maxFiscalYear: Option<int>): (facts: seq<Fact>) {
    var ends := YearEnds(Ends(values, maxFiscalYear));
    seq(|ends|, i requires 0 <= i < |ends| =>
      YearEndsAreEnds(values, maxFiscalYear, i);
      EndHasFact(values, maxFiscalYear, ends[i]);
      Chosen(values, maxFiscalYear, ends[i]))
  }

  ghost predicate YearsDescend(r: seq<Date>) {
    forall i, j :: 0 <= i < j < |r| ==> YearOf(r[i]) > YearOf(r[j])
  }

  lemma {:induction false} FirstOfYearsAreDates(dates: seq<Date>, i: nat)
    requires i < |FirstOfYears(dates)|
    ensures FirstOfYears(dates)[i] in dates
    decreases |dates|
  {
    var n := |dates| - 1;
    var r := FirstOfYears(dates[..n]);
    if i < |r| {
      FirstOfYearsAreDates(dates[..n], i);
      assert FirstOfYears(dates)[i] == r[i] && r[i] in dates[..n];
    } else {
      assert FirstOfYears(dates)[i] == dates[n];
    }
  }

  lemma {:induction false} FirstOfYearsMeans(dates: seq<Date>)
    requires Descending(dates)
    ensures YearsDescend(FirstOfYears(dates))
    ensures dates != [] ==>
              var r := FirstOfYears(dates);
              r != [] && dates[|dates| - 1] <= r[|r| - 1] && YearOf(dates[|dates| - 1]) == YearOf(r[|r| - 1])
    decreases |dates|
  {
    if dates != [] {
      var n := |dates| - 1;
      FirstOfYearsMeans(dates[..n]);
      var r := FirstOfYears(dates[..n]);
      var d := dates[n];
      if n > 0 {
        assert d < dates[n - 1] == dates[..n][n - 1];
        assert YearOf(d) <= YearOf(dates[n - 1]) == YearOf(r[|r| - 1]);
      }
      assert FirstOfYears(dates) == if r == [] || YearOf(r[|r| - 1]) != YearOf(d) then r + [d] else r;
    }
  }

  /** The year of every date is there, with a date no older. */
  lemma {:induction false} FirstOfYearsCovers(dates: seq<Date>, d: Date) returns (i: nat)
    requires Descending(dates) && d in dates
    ensures i < |FirstOfYears(dates)| && YearOf(FirstOfYears(dates)[i]) == YearOf(d) && d <= FirstOfYears(dates)[i]
    decreases |dates|
  {
    var n := |dates| - 1;
    FirstOfYearsMeans(dates);
    if d == dates[n] {
      i := |FirstOfYears(dates)| - 1;
    } else {
      assert d in dates[..n];
      i := FirstOfYearsCovers(dates[..n], d);
    }
  }

  /** A figure is a value of the document, labelled with its own year. */
  ghost predicate ComesFrom(values: seq<Fact>, maxFiscalYear: Option<int>, f: Fact) {
    exists k :: 0 <= k < |values|
      && FirstLatest(values, maxFiscalYear, k) && f == values[k].(fy := YearOf(values[k].end))
  }

  lemma SeriesAt(values: seq<Fact>, maxFiscalYear: Option<int>, i: nat)
    requires i < |Series(values, maxFiscalYear)|
    ensures var f := Series(values, maxFiscalYear)[i];
            && f.end == YearEnds(Ends(values, maxFiscalYear))[i] && f.fy == YearOf(f.end)
            && ComesFrom(values, maxFiscalYear, f)
  {
    var end := YearEnds(Ends(values, maxFiscalYear))[i];
    YearEndsAreEnds(values, maxFiscalYear, i);
    EndHasFact(values, maxFiscalYear, end);
    LatestFiledMeans(values, maxFiscalYear, end);
  }

  /**
   * What the figures of one tag are: years strictly descending, each figure the value filed last for its
   * period end, labelled with that period's year.
   */
  lemma SeriesMeans(values: seq<Fact>, maxFiscalYear: Option<int>, i: nat, j: nat)
    requires i < j < |Series(values, maxFiscalYear)|
    ensures var s := Series(values, maxFiscalYear);
            s[i].fy > s[j].fy && ComesFrom(values, maxFiscalYear, s[i]) && ComesFrom(values, maxFiscalYear, s[j])
  {
    NewestFirstMeans(Ends(values, maxFiscalYear));
    FirstOfYearsMeans(NewestFirst(Ends(values, maxFiscalYear)));
    SeriesAt(values, maxFiscalYear, i);
    SeriesAt(values, maxFiscalYear, j);
  }

  /** Reported in a 10-K for a full year: at one date, or over 330 to 400 days; and no later than asked for. */
  ghost predicate IsAnnualReport(f: Fact, maxFiscalYear: Option<int>) {
    && f.form == "10-K" && f.fp == "FY"
    && (f.start.Some? ==>
          IsDate(f.start.value) && IsDate(f.end) && 330 <= DayNumber(f.end) - DayNumber(f.start.value) <= 400)
    && (maxFiscalYear.Some? ==> f.end / 10000 <= maxFiscalYear.value)
  }

  /** And nothing is passed over: every year with a full-year 10-K value is there, with its latest period end. */
  lemma SeriesCovers(values: seq<Fact>, maxFiscalYear: Option<int>, f: Fact) returns (i: nat)
    requires f in values && IsAnnualReport(f, maxFiscalYear)
    ensures i < |Series(values, maxFiscalYear)|
    ensures Series(values, maxFiscalYear)[i].fy == YearOf(f.end) && f.end <= Series(values, maxFiscalYear)[i].end
  {
    var ends := Ends(values, maxFiscalYear);
    NewestFirstMeans(ends);
    NewestFirstHasAll(ends, f.end);
    i := FirstOfYearsCovers(NewestFirst(ends), f.end);
    SeriesAt(values, maxFiscalYear, i);
  }

  // The specification of the choice of a tag.

  datatype Selection = Selection(tag: Tag, unit: string, facts: seq<Fact>)

  /** The figures of each tag. */
  ghost function AllSeries(doc: Document, tags: seq<Tag>, unit: string, maxFiscalYear: Option<int>): seq<seq<Fact>> {
    seq(|tags|, i requires 0 <= i < |tags| => Series(Values(doc, tags[i], unit), maxFiscalYear))
  }

  /** Among the first n: the one with the newest period of those with enough years, the first on ties. */
  ghost function Best(all: seq<seq<Fact>>, minimum: nat, n: nat): (b: Option<nat>)
    requires minimum >= 1 && n <= |all|
    ensures b.Some? ==> b.value < n && |all[b.value]| >= minimum
  {
    if n == 0 then None
    else
      var before := Best(all, minimum, n - 1);
      if |all[n - 1]| < minimum then before
      else if before.None? || all[n - 1][0].end > all[before.value][0].end then Some(n - 1)
      else before
  }

  function FirstOf(facts: seq<Fact>, count: nat): seq<Fact> {
    if count < |facts| then facts[..count] else facts
  }

  ghost function Selected(doc: Document, tags: seq<Tag>, unit: string, count: nat, maxFiscalYear: Option<int>,
          minimum: nat): Option<Selection>
    requires minimum >= 1
  {
    var all := AllSeries(doc, tags, unit, maxFiscalYear);
    var b := Best(all, minimum, |all|);
    if b.None? then None else Some(Selection(tags[b.value], unit, FirstOf(all[b.value], count)))
  }

  /** Fresher, or as fresh and named earlier. */
  predicate Preferred(all: seq<seq<Fact>>, b: nat, i: nat)
    requires b < |all| && i < |all| && all[b] != [] && all[i] != []
  {
    all[i][0].end < all[b][0].end || (all[i][0].end == all[b][0].end && b <= i)
  }

  lemma {:induction false} BestMeans(all: seq<seq<Fact>>, minimum: nat, n: nat)
    requires minimum >= 1 && n <= |all|
    ensures var b := Best(all, minimum, n);
            && (b.None? <==> forall i :: 0 <= i < n ==> |all[i]| < minimum)
            && (b.Some? ==> forall i :: 0 <= i < n && |all[i]| >= minimum ==> Preferred(all, b.value, i))
  {
    if n > 0 {
      BestMeans(all, minimum, n - 1);
    }
  }

  /**
   * The choice: nothing exactly when no tag has enough years, and otherwise the figures of a single tag,
   * the one with the newest period end among those with enough years, earliest in the list on ties.
   */
  lemma SelectedMeans(doc: Document, tags: seq<Tag>, unit: string, count: nat, maxFiscalYear: Option<int>, minimum: nat)
    requires minimum >= 1
    ensures var all := AllSeries(doc, tags, unit, maxFiscalYear);
            var r := Selected(doc, tags, unit, count, maxFiscalYear, minimum);
            (r.None? <==> forall i :: 0 <= i < |all| ==> |all[i]| < minimum)
    ensures var all := AllSeries(doc, tags, unit, maxFiscalYear);
            var r := Selected(doc, tags, unit, count, maxFiscalYear, minimum);
            r.Some? ==>
              exists b :: 0 <= b < |all| && |all[b]| >= minimum
                && r == Some(Selection(tags[b], unit, if count < |all[b]| then all[b][..count] else all[b]))
                && forall i :: 0 <= i < |all| && |all[i]| >= minimum ==> Preferred(all, b, i)
  {
    var all := AllSeries(doc, tags, unit, maxFiscalYear);
    BestMeans(all, minimum, |all|);
    var best := Best(all, minimum, |all|);
    if best.Some? {
      var b := best.value;
      assert |all[b]| >= minimum;
    }
  }

  /**
   * Every fact selected is the document's own, under one of the tags and in the unit, reported in a 10-K for a full
   * year - never for a quarter - and labelled with the year its period ends in.
   */
  lemma SelectedAreAnnual(doc: Document, tags: seq<Tag>, unit: string, count: nat, maxFiscalYear: Option<int>,
                          minimum: nat, i: nat)
    requires minimum >= 1
    requires var r := Selected(doc, tags, unit, count, maxFiscalYear, minimum); r.Some? && i < |r.value.facts|
    ensures var s := Selected(doc, tags, unit, count, maxFiscalYear, minimum).value;
            && s.tag in tags && s.unit == unit && (s.tag, unit) in doc && |s.facts| <= count
            && exists k :: 0 <= k < |doc[(s.tag, unit)]| && IsAnnualReport(doc[(s.tag, unit)][k], maxFiscalYear)
                           && s.facts[i] == doc[(s.tag, unit)][k].(fy := doc[(s.tag, unit)][k].end / 10000)
  {
    var all := AllSeries(doc, tags, unit, maxFiscalYear);
    var b := Best(all, minimum, |all|).value;
    var values := Values(doc, tags[b], unit);
    SeriesAt(values, maxFiscalYear, i);
    var k :| 0 <= k < |values| && FirstLatest(values, maxFiscalYear, k)
             && Series(values, maxFiscalYear)[i] == values[k].(fy := YearOf(values[k].end));
    assert IsAnnualReport(values[k], maxFiscalYear);
  }

  // The loops.

  /** `byPeriodEnd` as the loop over one tag's values fills it. */
  method ByPeriodEnd(values: seq<Fact>, maxFiscalYear: Option<int>) returns (byPeriodEnd: map<Date, Fact>)
    ensures byPeriodEnd.Keys == Ends(values, maxFiscalYear)
    ensures forall e :: e in byPeriodEnd ==> LatestFiled(values, maxFiscalYear, e) == Some(byPeriodEnd[e])
  {
    byPeriodEnd := map[];
    var i := 0;
    while i < |values|
      invariant 0 <= i <= |values|
      invariant forall e :: LatestFiled(values[..i], maxFiscalYear, e)
                            == if e in byPeriodEnd then Some(byPeriodEnd[e]) else None
    {
      var f := values[i];
      assert values[..i + 1][..i] == values[..i];
      if Qualifies(f, maxFiscalYear) && (f.end !in byPeriodEnd || f.filed > byPeriodEnd[f.end].filed) {
        byPeriodEnd := byPeriodEnd[f.end := f];
      }
      i := i + 1;
    }
    assert values[..|values|] == values;
    forall e
      ensures e in byPeriodEnd <==> e in Ends(values, maxFiscalYear)
    {
      LatestFiledMeans(values, maxFiscalYear, e);
      if e in Ends(values, maxFiscalYear) {
        EndHasFact(values, maxFiscalYear, e);
      }
    }
  }

  /** The keys newest first, as sorting the map's values by period end gives them. */
  method EndsDescending(byPeriodEnd: map<Date, Fact>) returns (ends: seq<Date>)
    ensures ends == NewestFirst(byPeriodEnd.Keys)
  {
    ends := [];
    var rest := byPeriodEnd.Keys;
    while rest != {}
      invariant NewestFirst(byPeriodEnd.Keys) == ends + NewestFirst(rest)
      decreases |rest|
    {
      MaxExists(rest);
      var e :| e in rest && forall x :: x in rest ==> x <= e;
      assert Max(rest) == e;
      ends := ends + [e];
      rest := rest - {e};
    }
  }

  /** The map's facts for some of its period ends, labelled with their years. */
  function Labelled(byPeriodEnd: map<Date, Fact>, ends: seq<Date>): seq<Fact> {
    if ends == [] then []
    else
      var last := ends[|ends| - 1];
      Labelled(byPeriodEnd, ends[..|ends| - 1])
      + (if last in byPeriodEnd then [byPeriodEnd[last].(fy := YearOf(last))] else [])
  }

  lemma LabelledOneMore(byPeriodEnd: map<Date, Fact>, ends: seq<Date>, end: Date)
    requires end in byPeriodEnd
    ensures Labelled(byPeriodEnd, ends + [end]) == Labelled(byPeriodEnd, ends) + [byPeriodEnd[end].(fy := YearOf(end))]
  {
    assert (ends + [end])[..|ends|] == ends;
  }

  lemma {:induction false} LabelledAt(byPeriodEnd: map<Date, Fact>, ends: seq<Date>)
    requires forall k :: 0 <= k < |ends| ==> ends[k] in byPeriodEnd
    ensures |Labelled(byPeriodEnd, ends)| == |ends|
    ensures forall k :: 0 <= k < |ends| ==>
            Labelled(byPeriodEnd, ends)[k] == byPeriodEnd[ends[k]].(fy := YearOf(ends[k]))
    decreases |ends|
  {
    if ends != [] {
      LabelledAt(byPeriodEnd, ends[..|ends| - 1]);
    }
  }

  lemma IsSeries(values: seq<Fact>, maxFiscalYear: Option<int>, byPeriodEnd: map<Date, Fact>)
    requires byPeriodEnd.Keys == Ends(values, maxFiscalYear)
    requires forall e :: e in byPeriodEnd ==> LatestFiled(values, maxFiscalYear, e) == Some(byPeriodEnd[e])
    ensures Labelled(byPeriodEnd, YearEnds(byPeriodEnd.Keys)) == Series(values, maxFiscalYear)
  {
    forall k | 0 <= k < |YearEnds(byPeriodEnd.Keys)|
      ensures YearEnds(byPeriodEnd.Keys)[k] in byPeriodEnd
    {
      YearEndsAreEnds(values, maxFiscalYear, k);
    }
    LabelledAt(byPeriodEnd, YearEnds(Ends(values, maxFiscalYear)));
  }

  lemma FirstOfYearsOneMore(dates: seq<Date>, i: nat)
    requires i < |dates|
    ensures var r := FirstOfYears(dates[..i]);
            FirstOfYears(dates[..i + 1])
            == if r == [] || YearOf(r[|r| - 1]) != YearOf(dates[i]) then r + [dates[i]] else r
  {
    assert dates[..i + 1][..i] == dates[..i];
  }

  function LastYear(facts: seq<Fact>): Option<int> {
    if facts == [] then None else Some(facts[|facts| - 1].fy)
  }

  /** The loop that keeps one fact a year, over the period ends newest first. */
  method PickYears(byPeriodEnd: map<Date, Fact>, ends: seq<Date>) returns (facts: seq<Fact>)
    requires forall k :: 0 <= k < |ends| ==> ends[k] in byPeriodEnd
    ensures facts == Labelled(byPeriodEnd, FirstOfYears(ends))
  {
    facts := [];
    ghost var taken: seq<Date> := [];
    var i := 0;
    while i < |ends|
      invariant 0 <= i <= |ends|
      invariant taken == FirstOfYears(ends[..i])
      invariant facts == Labelled(byPeriodEnd, taken)
      invariant LastYear(facts) == if taken == [] then None else Some(YearOf(taken[|taken| - 1]))
    {
      var end := ends[i];
      FirstOfYearsOneMore(ends, i);
      if facts == [] || facts[|facts| - 1].fy != YearOf(end) {
        LabelledOneMore(byPeriodEnd, taken, end);
        WithoutLast(taken, end);
        facts := facts + [byPeriodEnd[end].(fy := YearOf(end))];
        taken := taken + [end];
      }
      i := i + 1;
    }
    WholePrefix(ends);
  }

  /** One fact for each fiscal year, newest first. */
  method OnePerYear(values: seq<Fact>, maxFiscalYear: Option<int>) returns (facts: seq<Fact>)
    ensures facts == Series(values, maxFiscalYear)
  {
    var byPeriodEnd := ByPeriodEnd(values, maxFiscalYear);
    var ends := EndsDescending(byPeriodEnd);
    NewestFirstMeans(byPeriodEnd.Keys);
    IsSeries(values, maxFiscalYear, byPeriodEnd);
    facts := PickYears(byPeriodEnd, ends);
  }

  // The loop over the tags, for any minimum.

  /** The best tag so far; or comparing period ends failed, which takes a tag with values but no figures. */
  datatype Choice = Picked(best: Option<nat>) | Failed

  /** Whether each tag has values at all. */
  function Listed(doc: Document, tags: seq<Tag>, unit: string): seq<bool> {
    seq(|tags|, i requires 0 <= i < |tags| => Values(doc, tags[i], unit) != [])
  }

  ghost function Choose(all: seq<seq<Fact>>, listed: seq<bool>, minimum: nat, n: nat): (c: Choice)
    requires n <= |all| == |listed|
    ensures c.Picked? && c.best.Some? ==> c.best.value < n && listed[c.best.value]
  {
    if n == 0 then Picked(None)
    else
      var before := Choose(all, listed, minimum, n - 1);
      if before.Failed? || !listed[n - 1] || |all[n - 1]| < minimum then before
      else if before.best.None? then Picked(Some(n - 1))
      else if all[n - 1] == [] || all[before.best.value] == [] then Failed
      else if all[n - 1][0].end > all[before.best.value][0].end then Picked(Some(n - 1))
      else before
  }

  /** Asked for at least one year, the choice never fails and is the best tag. */
  lemma {:induction false} ChooseIsBest(all: seq<seq<Fact>>, listed: seq<bool>, minimum: nat, n: nat)
    requires minimum >= 1 && n <= |all| == |listed| && forall i :: 0 <= i < n && !listed[i] ==> all[i] == []
    ensures Choose(all, listed, minimum, n) == Picked(Best(all, minimum, n))
  {
    if n > 0 {
      ChooseIsBest(all, listed, minimum, n - 1);
    }
  }

  /** Asked for none, it fails exactly when two tags have values and one of those with values has no figures. */
  lemma {:induction false} ZeroMinimumFailsIff(all: seq<seq<Fact>>, listed: seq<bool>, n: nat)
    requires n <= |all| == |listed|
    ensures var c := Choose(all, listed, 0, n);
            && (c.Failed? <==> (exists i, j :: 0 <= i < j < n && listed[i] && listed[j])
                               && (exists k :: 0 <= k < n && listed[k] && all[k] == []))
            && (c == Picked(None) <==> forall i :: 0 <= i < n ==> !listed[i])
            && (c.Picked? && c.best.Some? && all[c.best.value] == [] ==>
                  forall i :: 0 <= i < n && listed[i] ==> i == c.best.value)
            && (c.Picked? && c.best.Some? && all[c.best.value] != [] ==>
                  forall i :: 0 <= i < n && listed[i] ==> all[i] != [])
  {
    if n > 0 {
      ZeroMinimumFailsIff(all, listed, n - 1);
      var before := Choose(all, listed, 0, n - 1);
      if listed[n - 1] && before.Picked? && before.best.Some? && (all[n - 1] == [] || all[before.best.value] == []) {
        assert listed[before.best.value];
      }
    }
  }

  /** What asking for the figures gives: a selection, none, or the failure. */
  datatype Answer = Found(selection: Option<Selection>) | TypeError

  ghost function AnswerOf(doc: Document, tags: seq<Tag>, unit: string, count: nat, maxFiscalYear: Option<int>,
                          minimum: nat): Answer
  {
    var all := AllSeries(doc, tags, unit, maxFiscalYear);
    match Choose(all, Listed(doc, tags, unit), minimum, |tags|)
    case Failed => TypeError
    case Picked(None) => Found(None)
    case Picked(Some(b)) => Found(Some(Selection(tags[b], unit, FirstOf(all[b], count))))
  }

  lemma AnswerIsSelected(doc: Document, tags: seq<Tag>, unit: string, count: nat, maxFiscalYear: Option<int>,
          minimum: nat)
    requires minimum >= 1
    ensures AnswerOf(doc, tags, unit, count, maxFiscalYear, minimum)
            == Found(Selected(doc, tags, unit, count, maxFiscalYear, minimum))
  {
    var all, listed := AllSeries(doc, tags, unit, maxFiscalYear), Listed(doc, tags, unit);
    forall i | 0 <= i < |tags| && !listed[i]
      ensures all[i] == []
    {
      assert Ends(Values(doc, tags[i], unit), maxFiscalYear) == {};
    }
    ChooseIsBest(all, listed, minimum, |tags|);
  }

  /** The best selection so far, from the choice so far. */
  ghost predicate Holds(c: Choice, best: Option<Selection>, tags: seq<Tag>, unit: string, all: seq<seq<Fact>>)
    requires |all| == |tags|
  {
    && c.Picked? && (c.best.None? <==> best.None?)
    && (c.best.Some? ==> c.best.value < |tags| && best == Some(Selection(tags[c.best.value], unit, all[c.best.value])))
  }

  /** Up to `count` annual figures of the best of the candidate tags, newest first. */
  method AnnualFactsOf(doc: Document, tags: seq<Tag>, unit: string, count: nat, maxFiscalYear: Option<int>,
          minimum: nat)
    returns (answer: Answer)
    ensures answer == AnswerOf(doc, tags, unit, count, maxFiscalYear, minimum)
    ensures minimum >= 1 ==> answer == Found(Selected(doc, tags, unit, count, maxFiscalYear, minimum))
  {
    ghost var all := AllSeries(doc, tags, unit, maxFiscalYear);
    ghost var listed := Listed(doc, tags, unit);
    var best: Option<Selection> := None;
    if minimum >= 1 {
      AnswerIsSelected(doc, tags, unit, count, maxFiscalYear, minimum);
    }
    var i := 0;
    while i < |tags|
      invariant 0 <= i <= |tags|
      invariant Holds(Choose(all, listed, minimum, i), best, tags, unit, all)
    {
      var failed;
      best, failed := ConsiderTag(doc, tags, unit, maxFiscalYear, minimum, i, best);
      if failed {
        FailureIsFinal(all, listed, minimum, i + 1, |tags|);
        return TypeError;
      }
      i := i + 1;
    }
    answer := Found(if best.None? then None else Some(best.value.(facts := FirstOf(best.value.facts, count))));
  }

  lemma {:induction false} FailureIsFinal(all: seq<seq<Fact>>, listed: seq<bool>, minimum: nat, n: nat, m: nat)
    requires n <= m <= |all| == |listed| && Choose(all, listed, minimum, n).Failed?
    ensures Choose(all, listed, minimum, m).Failed?
  {
    if n < m {
      FailureIsFinal(all, listed, minimum, n, m - 1);
    }
  }

  /** One tag of the loop. */
  method ConsiderTag(doc: Document, tags: seq<Tag>, unit: string, maxFiscalYear: Option<int>, minimum: nat, i: nat,
                     best: Option<Selection>)
    returns (better: Option<Selection>, failed: bool)
    requires i < |tags|
    requires var all := AllSeries(doc, tags, unit, maxFiscalYear);
             Holds(Choose(all, Listed(doc, tags, unit), minimum, i), best, tags, unit, all)
    ensures var all := AllSeries(doc, tags, unit, maxFiscalYear);
            var c := Choose(all, Listed(doc, tags, unit), minimum, i + 1);
            if failed then c.Failed? else Holds(c, better, tags, unit, all)
  {
    better, failed := best, false;
    var values := Values(doc, tags[i], unit);
    if values == [] {
      return;
    }
    var facts := OnePerYear(values, maxFiscalYear);
    if |facts| < minimum {
      return;
    }
    if best.None? {
      better := Some(Selection(tags[i], unit, facts));
    } else if facts == [] || best.value.facts == [] {
      failed := true;
    } else if facts[0].end > best.value.facts[0].end {
      better := Some(Selection(tags[i], unit, facts));
    }
  }

  // The most recent fact of any kind.

  /** The last of the values with the newest period end, which a stable ascending sort puts at the end. */
  function LastNewest(values: seq<Fact>): Fact
    requires values != []
  {
    if |values| == 1 then values[0]
    else
      var before := LastNewest(values[..|values| - 1]);
      var f := values[|values| - 1];
      if f.end >= before.end then f else before
  }

  function MostRecent(doc: Document, tags: seq<Tag>): Option<(Tag, Fact)> {
    if tags == [] then None
    else
      var before := MostRecent(doc, tags[..|tags| - 1]);
      var values := Values(doc, tags[|tags| - 1], "USD");
      if values == [] then before
      else
        var latest := LastNewest(values);
        if before.None? || latest.end > before.value.1.end then Some((tags[|tags| - 1], latest)) else before
  }

  /** What a stable sort by period end puts last. */
  method FindLastNewest(values: seq<Fact>) returns (latest: Fact)
    requires values != []
    ensures latest == LastNewest(values)
  {
    latest := values[0];
    var k := 1;
    while k < |values|
      invariant 1 <= k <= |values|
      invariant latest == LastNewest(values[..k])
    {
      OneFurther(values, k);
      if values[k].end >= latest.end {
        latest := values[k];
      }
      k := k + 1;
    }
    WholePrefix(values);
  }

  method MostRecentFact(doc: Document, tags: seq<Tag>) returns (best: Option<(Tag, Fact)>)
    ensures best == MostRecent(doc, tags)
  {
    best := None;
    var i := 0;
    while i < |tags|
      invariant 0 <= i <= |tags|
      invariant best == MostRecent(doc, tags[..i])
    {
      OneFurther(tags, i);
      var values := Values(doc, tags[i], "USD");
      if values != [] {
        var latest := FindLastNewest(values);
        if best.None? || latest.end > best.value.1.end {
          best := Some((tags[i], latest));
        }
      }
      i := i + 1;
    }
    WholePrefix(tags);
  }

  /** Position `k` holds the newest period end, for the last time. */
  ghost predicate IsLastNewest(values: seq<Fact>, k: nat)
    requires k < |values|
  {
    forall i :: 0 <= i < |values| ==> values[i].end < values[k].end || (values[i].end == values[k].end && i <= k)
  }

  lemma {:induction false} LastNewestMeans(values: seq<Fact>) returns (k: nat)
    requires values != []
    ensures k < |values| && values[k] == LastNewest(values) && IsLastNewest(values, k)
    decreases |values|
  {
    var n := |values| - 1;
    if n == 0 {
      k := 0;
    } else {
      var shorter := values[..n];
      k := LastNewestMeans(shorter);
      LastNewestOneMore(values, k);
      k := if values[n].end >= shorter[k].end then n else k;
    }
  }

  lemma LastNewestOneMore(values: seq<Fact>, k: nat)
    requires k < |values| - 1 && IsLastNewest(values[..|values| - 1], k)
    ensures var n := |values| - 1;
            IsLastNewest(values, if values[n].end >= values[k].end then n else k)
  {
    var n := |values| - 1;
    var shorter := values[..n];
    forall i | 0 <= i < n
      ensures values[i].end < values[k].end || (values[i].end == values[k].end && i <= k)
    {
      assert shorter[i].end < shorter[k].end || (shorter[i].end == shorter[k].end && i <= k);
    }
  }

  /** The b-th tag's last newest value, newer than every value under an earlier tag. */
  ghost predicate IsFirstNewest(doc: Document, tags: seq<Tag>, r: (Tag, Fact), b: nat)
    requires b < |tags|
  {
    && tags[b] == r.0
    && (exists k :: 0 <= k < |Values(doc, r.0, "USD")| && Values(doc, r.0, "USD")[k] == r.1
                    && IsLastNewest(Values(doc, r.0, "USD"), k))
    && forall i, f :: 0 <= i < b && f in Values(doc, tags[i], "USD") ==> f.end < r.1.end
  }

  /** Of equally new values the one of the tag listed first is taken, and the last one in the document for it. */
  lemma {:induction false} MostRecentIsFirst(doc: Document, tags: seq<Tag>) returns (b: nat)
    requires MostRecent(doc, tags).Some?
    ensures b < |tags| && IsFirstNewest(doc, tags, MostRecent(doc, tags).value, b)
    decreases |tags|
  {
    var n := |tags| - 1;
    var before, r := MostRecent(doc, tags[..n]), MostRecent(doc, tags).value;
    if before == Some(r) {
      b := MostRecentIsFirst(doc, tags[..n]);
      assert tags[..n][b] == tags[b];
    } else {
      b := n;
      var k := LastNewestMeans(Values(doc, tags[n], "USD"));
      MostRecentMeans(doc, tags[..n]);
      forall i, f | 0 <= i < n && f in Values(doc, tags[i], "USD")
        ensures f.end < r.1.end
      {
        assert tags[..n][i] in tags[..n];
      }
    }
  }

  /** Nothing exactly when no tag has a value in dollars; otherwise no value under any of the tags is newer. */
  lemma {:induction false} MostRecentMeans(doc: Document, tags: seq<Tag>)
    ensures var r := MostRecent(doc, tags);
            && (r.None? <==> forall t :: t in tags ==> Values(doc, t, "USD") == [])
            && (r.Some? ==> r.value.0 in tags && r.value.1 in Values(doc, r.value.0, "USD"))
            && (r.Some? ==> forall t, f :: t in tags && f in Values(doc, t, "USD") ==> f.end <= r.value.1.end)
    decreases |tags|
  {
    if tags != [] {
      var n := |tags| - 1;
      MostRecentMeans(doc, tags[..n]);
      assert forall t :: t in tags <==> t in tags[..n] || t == tags[n];
      var values := Values(doc, tags[n], "USD");
      if values != [] {
        var k := LastNewestMeans(values);
        assert values[k] in values;
      }
    }
  }
}
