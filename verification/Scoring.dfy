/** The ratio scores over series of annual figures: derivation of missing series, year alignment, formulas. */
module Scoring {
  import opened Common

  /** The figures of the three scores. */
  datatype Key =
    | Assets | Liabilities | CurrentAssets | CurrentLiabilities | RetainedEarnings | Ebit | Equity
    | LongTermDebt | Cfo | NetIncome | Shares | GrossProfit | Revenue | Receivables | Ppe | Depreciation | Sga

  type Series = seq<AnnualValue>
  type Table = map<Key, Series>

  /** The newest year, or None - below every year - for an empty series. */
  function NewestYear(s: Series): Option<int> {
    if s == [] then None
    else
      var rest := NewestYear(s[1..]);
      if rest.Some? && rest.value > s[0].fiscalYear then rest else Some(s[0].fiscalYear)
  }

  predicate Below(a: Option<int>, b: Option<int>) {
    b.Some? && (a.None? || a.value < b.value)
  }

  function Later(a: Option<int>, b: Option<int>): Option<int> {
    if Below(a, b) then b else a
  }

  /** The value a map built from the series holds for a year: the last one listed. */
  function ValueFor(s: Series, year: int): Option<real> {
    if s == [] then None
    else if s[|s| - 1].fiscalYear == year then Some(s[|s| - 1].value)
    else ValueFor(s[..|s| - 1], year)
  }

  predicate HasYear(s: Series, year: int) {
    exists i :: 0 <= i < |s| && s[i].fiscalYear == year
  }

  datatype Operation = Plus | Minus

  function Apply(op: Operation, x: real, y: real): real {
    if op.Plus? then x + y else x - y
  }

  /** `op(a, b)` for every year of the first series that the second has too. */
  function CombineByYear(a: Series, b: Series, op: Operation): Series {
    if a == [] then []
    else
      (if ValueFor(b, a[0].fiscalYear).Some?
       then [AnnualValue(a[0].fiscalYear, Apply(op, a[0].value, ValueFor(b, a[0].fiscalYear).value))]
       else [])
      + CombineByYear(a[1..], b, op)
  }

  lemma {:induction false} NewestYearMeans(s: Series)
    ensures NewestYear(s).None? <==> s == []
    ensures forall i :: 0 <= i < |s| ==> NewestYear(s).Some? && s[i].fiscalYear <= NewestYear(s).value
    ensures s != [] ==> exists i :: 0 <= i < |s| && s[i].fiscalYear == NewestYear(s).value
  {
    if s != [] {
      NewestYearMeans(s[1..]);
      if NewestYear(s) != Some(s[0].fiscalYear) {
        var i :| 0 <= i < |s[1..]| && s[1..][i].fiscalYear == NewestYear(s).value;
        assert s[i + 1] == s[1..][i];
      } else {
        assert s[0].fiscalYear == NewestYear(s).value;
      }
    }
  }

  lemma YearOfFirst(s: Series, year: int)
    requires s != []
    ensures HasYear(s, year) <==> s[0].fiscalYear == year || HasYear(s[1..], year)
  {
    if i :| 0 <= i < |s| && s[i].fiscalYear == year {
      assert i > 0 ==> s[1..][i - 1] == s[i];
    }
    if i :| 0 <= i < |s[1..]| && s[1..][i].fiscalYear == year {
      assert s[i + 1] == s[1..][i];
    }
  }

  lemma YearOfLast(s: Series, year: int)
    requires s != []
    ensures HasYear(s, year) <==> s[|s| - 1].fiscalYear == year || HasYear(s[..|s| - 1], year)
  {
    var n := |s| - 1;
    if i :| 0 <= i < |s| && s[i].fiscalYear == year {
      assert i < n ==> s[..n][i] == s[i];
    }
    if i :| 0 <= i < |s[..n]| && s[..n][i].fiscalYear == year {
      assert s[i] == s[..n][i];
    }
  }

  lemma {:induction false} ValueForEachYear(s: Series, year: int)
    ensures ValueFor(s, year).Some? <==> HasYear(s, year)
  {
    if s != [] {
      ValueForEachYear(s[..|s| - 1], year);
      YearOfLast(s, year);
    }
  }

  /** The combined series has exactly the years both series have. */
  lemma {:induction false} CombinedYears(a: Series, b: Series, op: Operation, year: int)
    ensures HasYear(CombineByYear(a, b, op), year) <==> HasYear(a, year) && HasYear(b, year)
    decreases |a|
  {
    if a != [] {
      var c, rest := CombineByYear(a, b, op), CombineByYear(a[1..], b, op);
      CombinedYears(a[1..], b, op, year);
      YearOfFirst(a, year);
      ValueForEachYear(b, a[0].fiscalYear);
      if ValueFor(b, a[0].fiscalYear).Some? {
        YearOfFirst(c, year);
        assert c[1..] == rest;
      } else {
        assert c == rest;
      }
    }
  }

  /** Each combined value is the operation on a value of the first series and the second's value for that year. */
  ghost predicate IsCombined(v: AnnualValue, a: Series, b: Series, op: Operation) {
    && ValueFor(b, v.fiscalYear).Some?
    && exists i :: 0 <= i < |a| && a[i].fiscalYear == v.fiscalYear
                   && v.value == Apply(op, a[i].value, ValueFor(b, v.fiscalYear).value)
  }

  lemma {:induction false} CombinedValues(a: Series, b: Series, op: Operation, j: nat)
    requires j < |CombineByYear(a, b, op)|
    ensures IsCombined(CombineByYear(a, b, op)[j], a, b, op)
    decreases |a|
  {
    var c, rest := CombineByYear(a, b, op), CombineByYear(a[1..], b, op);
    var v := c[j];
    if ValueFor(b, a[0].fiscalYear).Some? && j == 0 {
      assert a[0].fiscalYear == v.fiscalYear && v.value == Apply(op, a[0].value, ValueFor(b, v.fiscalYear).value);
    } else {
      var k := if ValueFor(b, a[0].fiscalYear).Some? then j - 1 else j;
      CombinedValues(a[1..], b, op, k);
      assert rest[k] == v;
      var i :| 0 <= i < |a[1..]| && a[1..][i].fiscalYear == v.fiscalYear
               && v.value == Apply(op, a[1..][i].value, ValueFor(b, v.fiscalYear).value);
      assert a[i + 1] == a[1..][i];
    }
  }

  /** Combining never reaches a year the first series does not. */
  lemma {:induction false} CombinedIsNoNewer(a: Series, b: Series, op: Operation)
    ensures !Below(NewestYear(a), NewestYear(CombineByYear(a, b, op)))
    decreases |a|
  {
    if a != [] {
      var c := CombineByYear(a, b, op);
      var rest := CombineByYear(a[1..], b, op);
      CombinedIsNoNewer(a[1..], b, op);
      if c != rest {
        assert c[1..] == rest;
      }
    }
  }

  // Derivation.

  /** The newest year any figure of the table but one has. */
  ghost predicate NewestElsewhere(t: Table, key: Key, year: Option<int>) {
    && (forall k :: k in t && k != key ==> !Below(year, NewestYear(t[k])))
    && (year.Some? ==> exists k :: k in t && k != key && NewestYear(t[k]) == year)
  }

  function Reported(t: Table, key: Key): Series {
    if key in t then t[key] else []
  }

  /** The derived series replaces the reported one exactly when it reaches a newer year. */
  predicate Derives(reported: Series, combined: Series) {
    Below(NewestYear(reported), NewestYear(combined))
  }

  /** The outcome if the parts were always read: the whole series is the derived one, or nothing changes. */
  function DerivedAlways(t: Table, key: Key, a: Series, b: Series, op: Operation): (Table, bool) {
    var combined := CombineByYear(a, b, op);
    if Derives(Reported(t, key), combined) then (t[key := combined], true) else (t, false)
  }

  /** The reported series is as new as anything else in the table, so the parts are not read. */
  predicate Skips(reported: Series, newestElsewhere: Option<int>) {
    reported != [] && !Below(NewestYear(reported), newestElsewhere)
  }

  class ScoreInputs {
    var series: Table
    var derived: seq<Key>

    constructor (series: Table)
      ensures this.series == series && derived == []
    {
      this.series, derived := series, [];
    }

    method FindNewestElsewhere(key: Key) returns (year: Option<int>)
      ensures NewestElsewhere(series, key, year)
    {
      year := None;
      var rest := series.Keys - {key};
      while rest != {}
        invariant rest <= series.Keys - {key}
        invariant forall k :: k in series && k != key && k !in rest ==> !Below(year, NewestYear(series[k]))
        invariant year.Some? ==> exists k :: k in series && k != key && NewestYear(series[k]) == year
        decreases |rest|
      {
        var k :| k in rest;
        rest := rest - {k};
        year := Later(year, NewestYear(series[k]));
      }
    }

    /** `a` and `b` are what reading the parts gives, if they are read. */
    method DeriveIfMissing(key: Key, a: Series, b: Series, op: Operation)
      modifies this
      ensures exists year :: NewestElsewhere(old(series), key, year)
                && (if Skips(Reported(old(series), key), year) then series == old(series) && derived == old(derived)
                    else
                      var (t, d) := DerivedAlways(old(series), key, a, b, op);
                      series == t && derived == if d then old(derived) + [key] else old(derived))
    {
      var reported := if key in series then series[key] else [];
      var newestElsewhere := FindNewestElsewhere(key);
      if |reported| > 0 && !Below(NewestYear(reported), newestElsewhere) {
        return;
      }
      var combined := CombineByYear(a, b, op);
      if Below(NewestYear(reported), NewestYear(combined)) {
        series := series[key := combined];
        derived := derived + [key];
      }
    }

    /** Revenue less cost of revenue; the first part is in the table. */
    method DeriveGrossProfit(costOfRevenue: Series)
      requires Revenue in series
      modifies this
      ensures var (t, d) := DerivedAlways(old(series), GrossProfit, old(series)[Revenue], costOfRevenue, Minus);
              series == t && derived == if d then old(derived) + [GrossProfit] else old(derived)
    {
      ghost var t := series;
      DeriveIfMissing(GrossProfit, series[Revenue], costOfRevenue, Minus);
      ghost var year :| NewestElsewhere(t, GrossProfit, year)
                && (if Skips(Reported(t, GrossProfit), year) then series == t && derived == old(derived)
                    else
                      var (t1, d) := DerivedAlways(t, GrossProfit, t[Revenue], costOfRevenue, Minus);
                      series == t1 && derived == if d then old(derived) + [GrossProfit] else old(derived));
      SkippingIsHarmless(t, GrossProfit, Revenue, costOfRevenue, Minus, year);
    }

    /** Assets less equity; both are in the table. */
    method DeriveLiabilities()
      requires Assets in series && Equity in series
      modifies this
      ensures var (t, d) := DerivedAlways(old(series), Liabilities, old(series)[Assets], old(series)[Equity], Minus);
              series == t && derived == if d then old(derived) + [Liabilities] else old(derived)
    {
      ghost var t := series;
      DeriveIfMissing(Liabilities, series[Assets], series[Equity], Minus);
      ghost var year :| NewestElsewhere(t, Liabilities, year)
                && (if Skips(Reported(t, Liabilities), year) then series == t && derived == old(derived)
                    else
                      var (t1, d) := DerivedAlways(t, Liabilities, t[Assets], t[Equity], Minus);
                      series == t1 && derived == if d then old(derived) + [Liabilities] else old(derived));
      SkippingIsHarmless(t, Liabilities, Assets, t[Equity], Minus, year);
    }
  }

  /** When the first part is itself in the table, not reading the parts never changes the outcome. */
  lemma SkippingIsHarmless(t: Table, key: Key, part: Key, b: Series, op: Operation, year: Option<int>)
    requires NewestElsewhere(t, key, year) && part in t && part != key
    ensures Skips(Reported(t, key), year) ==> DerivedAlways(t, key, t[part], b, op) == (t, false)
  {
    CombinedIsNoNewer(t[part], b, op);
    assert !Below(year, NewestYear(t[part]));
  }

  /** What deriving a figure with the skip comes to, for the newest year the rest of the table has. */
  function DerivedWithSkip(t: Table, key: Key, a: Series, b: Series, op: Operation, year: Option<int>): (Table, bool) {
    if Skips(Reported(t, key), year) then (t, false) else DerivedAlways(t, key, a, b, op)
  }

  lemma NewerYearIsThere(s: Series, c: Series)
    ensures Below(NewestYear(s), NewestYear(c)) <==> exists y :: HasYear(c, y) && Below(NewestYear(s), Some(y))
  {
    NewestYearMeans(c);
    if Below(NewestYear(s), NewestYear(c)) {
      assert HasYear(c, NewestYear(c).value);
    }
    if y :| HasYear(c, y) && Below(NewestYear(s), Some(y)) {
      var i :| 0 <= i < |c| && c[i].fiscalYear == y;
    }
  }

  /** The skip applies, and yet both parts have a year the reported series does not reach. */
  ghost predicate SkipLoses(t: Table, key: Key, a: Series, b: Series, year: Option<int>) {
    && Skips(Reported(t, key), year)
    && exists y :: HasYear(a, y) && HasYear(b, y) && Below(NewestYear(Reported(t, key)), Some(y))
  }

  /** The skip makes a difference exactly when it applies and both parts have a year newer than the reported ones. */
  lemma SkippingLosesIff(t: Table, key: Key, a: Series, b: Series, op: Operation, year: Option<int>)
    ensures DerivedWithSkip(t, key, a, b, op, year) != DerivedAlways(t, key, a, b, op)
            <==> SkipLoses(t, key, a, b, year)
  {
    var c := CombineByYear(a, b, op);
    NewerYearIsThere(Reported(t, key), c);
    forall y
      ensures HasYear(c, y) <==> HasYear(a, y) && HasYear(b, y)
    {
      CombinedYears(a, b, op, y);
    }
  }

  /**
   * A derivation leaves the reported series as it was, or a series with exactly the common years of the parts and
   * no value but combined ones - the flag says which - and never touches another series or makes this one older.
   */
  lemma WhollyReportedOrWhollyDerived(t: Table, key: Key, a: Series, b: Series, op: Operation, year: Option<int>)
    ensures var (u, d) := DerivedWithSkip(t, key, a, b, op, year);
            && (!d ==> u == t)
            && (d ==> key in u && forall y :: HasYear(u[key], y) <==> HasYear(a, y) && HasYear(b, y))
            && (d ==> forall j :: 0 <= j < |u[key]| ==> IsCombined(u[key][j], a, b, op))
            && (forall k :: k != key ==> (k in u <==> k in t) && (k in t ==> u[k] == t[k]))
            && !Below(NewestYear(Reported(u, key)), NewestYear(Reported(t, key)))
  {
    var c := CombineByYear(a, b, op);
    forall y
      ensures HasYear(c, y) <==> HasYear(a, y) && HasYear(b, y)
    {
      CombinedYears(a, b, op, y);
    }
    forall j | 0 <= j < |c|
      ensures IsCombined(c[j], a, b, op)
    {
      CombinedValues(a, b, op, j);
    }
  }

  lemma NewestElsewhereIsUnique(t: Table, key: Key, x: Option<int>, y: Option<int>)
    requires NewestElsewhere(t, key, x) && NewestElsewhere(t, key, y)
    ensures x == y
  {
  }

  /** Deriving gross profit leaves the newest year seen from SG&A alone, because revenue reaches at least as far. */
  lemma GrossProfitKeepsNewest(t: Table, cost: Series, year: Option<int>)
    requires Revenue in t && NewestElsewhere(t, Sga, year)
    ensures NewestElsewhere(DerivedAlways(t, GrossProfit, t[Revenue], cost, Minus).0, Sga, year)
  {
    var combined := CombineByYear(t[Revenue], cost, Minus);
    var u := DerivedAlways(t, GrossProfit, t[Revenue], cost, Minus).0;
    CombinedIsNoNewer(t[Revenue], cost, Minus);
    assert !Below(year, NewestYear(t[Revenue]));
    if year.Some? {
      var k :| k in t && k != Sga && NewestYear(t[k]) == year;
      assert u[k] == t[k];
    }
  }

  lemma UpdatesCommute(t: Table, x: Key, a: Series, y: Key, b: Series)
    requires x != y
    ensures t[x := a][y := b] == t[y := b][x := a]
  {
  }

  lemma DerivationsCommuteFor(t: Table, cost: Series, selling: Series, admin: Series, year: Option<int>)
    requires Revenue in t
    ensures var (g, gd) := DerivedAlways(t, GrossProfit, t[Revenue], cost, Minus);
            var (gs, gsd) := DerivedWithSkip(g, Sga, selling, admin, Plus, year);
            var (s, sd) := DerivedWithSkip(t, Sga, selling, admin, Plus, year);
            var (sg, sgd) := DerivedAlways(s, GrossProfit, s[Revenue], cost, Minus);
            gs == sg && gd == sgd && gsd == sd
  {
    UpdatesCommute(t, GrossProfit, CombineByYear(t[Revenue], cost, Minus), Sga, CombineByYear(selling, admin, Plus));
  }

  /** The two derivations of the M-Score give the same series in either order. */
  lemma DerivationsCommute(t: Table, cost: Series, selling: Series, admin: Series, year: Option<int>,
          yearAfter: Option<int>)
    requires Revenue in t
    requires NewestElsewhere(t, Sga, year)
    requires NewestElsewhere(DerivedAlways(t, GrossProfit, t[Revenue], cost, Minus).0, Sga, yearAfter)
    ensures var (g, gd) := DerivedAlways(t, GrossProfit, t[Revenue], cost, Minus);
            var (gs, gsd) := DerivedWithSkip(g, Sga, selling, admin, Plus, yearAfter);
            var (s, sd) := DerivedWithSkip(t, Sga, selling, admin, Plus, year);
            var (sg, sgd) := DerivedAlways(s, GrossProfit, s[Revenue], cost, Minus);
            gs == sg && gd == sgd && gsd == sd
  {
    DerivationsCommuteFor(t, cost, selling, admin, year);
    GrossProfitKeepsNewest(t, cost, year);
    NewestElsewhereIsUnique(DerivedAlways(t, GrossProfit, t[Revenue], cost, Minus).0, Sga, year, yearAfter);
  }

  // The chart's liabilities.

  datatype ChartLiabilities = ChartLiabilities(series: Series, derived: bool)

  /** What the company page shows, before putting the oldest year first. */
  function LiabilitiesForChart(assets: Series, liabilities: Series, equity: Series): ChartLiabilities {
    var derived := CombineByYear(assets, equity, Minus);
    if Below(NewestYear(liabilities), NewestYear(derived)) then ChartLiabilities(derived, true)
    else ChartLiabilities(liabilities, false)
  }

  /** The chart and the Altman score never disagree about liabilities, whatever is stored. */
  lemma ChartAgreesWithAltman(t: Table, year: Option<int>)
    requires Assets in t && Equity in t && Liabilities in t && NewestElsewhere(t, Liabilities, year)
    ensures var (u, d) := DerivedWithSkip(t, Liabilities, t[Assets], t[Equity], Minus, year);
            LiabilitiesForChart(t[Assets], t[Liabilities], t[Equity]) == ChartLiabilities(u[Liabilities], d)
  {
    SkippingIsHarmless(t, Liabilities, Assets, t[Equity], Minus, year);
  }

  // Year alignment.

  predicate HasEverywhere(t: Table, year: int) {
    forall k :: k in t ==> HasYear(t[k], year)
  }

  /** A year every figure has and, when two are needed, so has the year before. */
  predicate Usable(t: Table, needPrior: bool, year: int) {
    HasEverywhere(t, year) && (needPrior ==> HasEverywhere(t, year - 1))
  }

  /** The first value of the year. */
  function At(s: Series, year: int): (v: AnnualValue)
    requires HasYear(s, year)
    ensures v in s && v.fiscalYear == year
  {
    if s[0].fiscalYear == year then s[0]
    else
      assert HasYear(s[1..], year) by {
        var i :| 0 <= i < |s| && s[i].fiscalYear == year;
        assert s[1..][i - 1] == s[i];
      }
      At(s[1..], year)
  }

  function Figures(t: Table, year: int): (f: map<Key, AnnualValue>)
    requires HasEverywhere(t, year)
    ensures f.Keys == t.Keys && forall k :: k in t ==> f[k] in t[k] && f[k].fiscalYear == year
  {
    map k | k in t :: At(t[k], year)
  }

  datatype Selection =
    | TooFewYears(missing: set<Key>)
    | NoCommonYear
    | Selected(year: int, current: map<Key, AnnualValue>, prior: map<Key, AnnualValue>)

  /** The newest usable year among the years of one series. */
  function NewestUsable(t: Table, needPrior: bool, candidates: Series): (y: Option<int>)
    ensures y.Some? ==> Usable(t, needPrior, y.value)
  {
    if candidates == [] then None
    else
      var rest := NewestUsable(t, needPrior, candidates[1..]);
      var year := candidates[0].fiscalYear;
      if Usable(t, needPrior, year) && Below(rest, Some(year)) then Some(year) else rest
  }

  function TooShort(t: Table, needPrior: bool): set<Key> {
    set k | k in t && |t[k]| < if needPrior then 2 else 1
  }

  function PriorFigures(t: Table, needPrior: bool, year: int): map<Key, AnnualValue>
    requires Usable(t, needPrior, year)
  {
    if needPrior then Figures(t, year - 1) else map[]
  }

  /** The figures of a usable year, or none if there is no such year. */
  function SelectionAt(t: Table, needPrior: bool, year: Option<int>): Selection
    requires year.Some? ==> Usable(t, needPrior, year.value)
  {
    if year.None? then NoCommonYear
    else Selected(year.value, Figures(t, year.value), PriorFigures(t, needPrior, year.value))
  }

  /** `first` is the figure listed first, whose years are the candidates. */
  function SelectYears(t: Table, first: Key, needPrior: bool): Selection
    requires first in t
  {
    var missing := TooShort(t, needPrior);
    if missing != {} then TooFewYears(missing)
    else SelectionAt(t, needPrior, NewestUsable(t, needPrior, t[first]))
  }

  lemma {:induction false} NewestUsableMeans(t: Table, needPrior: bool, candidates: Series, year: int)
    requires HasYear(candidates, year) && Usable(t, needPrior, year)
    ensures var y := NewestUsable(t, needPrior, candidates); y.Some? && year <= y.value
    decreases |candidates|
  {
    var i :| 0 <= i < |candidates| && candidates[i].fiscalYear == year;
    if i > 0 {
      assert candidates[1..][i - 1] == candidates[i];
      NewestUsableMeans(t, needPrior, candidates[1..], year);
    }
  }

  lemma UsableHasEnough(t: Table, needPrior: bool, year: int, k: Key)
    requires Usable(t, needPrior, year) && k in t
    ensures |t[k]| >= if needPrior then 2 else 1
  {
    assert HasYear(t[k], year);
    if needPrior {
      assert HasYear(t[k], year - 1);
    }
  }

  lemma UsableLeavesNoneShort(t: Table, needPrior: bool, year: int)
    requires Usable(t, needPrior, year)
    ensures TooShort(t, needPrior) == {}
  {
    forall k | k in t
      ensures |t[k]| >= if needPrior then 2 else 1
    {
      UsableHasEnough(t, needPrior, year, k);
    }
  }

  lemma UsableIsReached(t: Table, first: Key, needPrior: bool, year: int)
    requires first in t && Usable(t, needPrior, year)
    ensures TooShort(t, needPrior) == {}
    ensures var y := NewestUsable(t, needPrior, t[first]); y.Some? && year <= y.value
  {
    UsableLeavesNoneShort(t, needPrior, year);
    assert HasYear(t[first], year);
    NewestUsableMeans(t, needPrior, t[first], year);
  }

  /** Nothing usable is newer. */
  ghost predicate IsNewestUsable(t: Table, needPrior: bool, year: int) {
    Usable(t, needPrior, year) && forall y :: Usable(t, needPrior, y) ==> y <= year
  }

  lemma NewestIsFound(t: Table, first: Key, needPrior: bool, found: Option<int>)
    requires first in t && found == NewestUsable(t, needPrior, t[first])
    ensures found.Some? ==> IsNewestUsable(t, needPrior, found.value) && TooShort(t, needPrior) == {}
    ensures found.None? ==> forall y :: !Usable(t, needPrior, y)
  {
    forall y | Usable(t, needPrior, y)
      ensures found.Some? && y <= found.value
    {
      UsableIsReached(t, first, needPrior, y);
    }
    if found.Some? {
      UsableLeavesNoneShort(t, needPrior, found.value);
    }
  }

  /** The newest usable year, with the figures of that year and, if needed, of the one before. */
  ghost predicate TakesNewest(t: Table, needPrior: bool, r: Selection)
    requires r.Selected?
  {
    && IsNewestUsable(t, needPrior, r.year)
    && r.current == Figures(t, r.year) && r.prior == PriorFigures(t, needPrior, r.year)
  }

  lemma SelectionTakesNewest(t: Table, needPrior: bool, year: int)
    requires IsNewestUsable(t, needPrior, year)
    ensures var r := SelectionAt(t, needPrior, Some(year)); r.Selected? && TakesNewest(t, needPrior, r)
  {
  }

  /**
   * A year is selected exactly when some year is usable; it is then the newest one, and every figure - and
   * every prior-year figure, when two years are needed - is its own series' value for that very year.
   */
  lemma SelectYearsMeans(t: Table, first: Key, needPrior: bool)
    requires first in t
    ensures var r := SelectYears(t, first, needPrior);
            && (r.Selected? ==> TakesNewest(t, needPrior, r))
            && (!r.Selected? ==> forall y :: !Usable(t, needPrior, y))
            && (r.TooFewYears? <==> TooShort(t, needPrior) != {})
            && (r.TooFewYears? ==> r.missing == TooShort(t, needPrior))
  {
    var found := NewestUsable(t, needPrior, t[first]);
    NewestIsFound(t, first, needPrior, found);
    if found.Some? {
      SelectionTakesNewest(t, needPrior, found.value);
    }
  }
}
