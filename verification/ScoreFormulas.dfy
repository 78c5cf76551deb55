/** What the three scores are, read off the series of annual figures they are computed from. */
module ScoreFormulas {
  import opened Common
  import opened Scoring
  import opened Scores

  /** No year twice, as in every series the annual query returns. */
  ghost predicate OneAYear(s: Series) {
    forall i, j :: 0 <= i < j < |s| ==> s[i].fiscalYear != s[j].fiscalYear
  }

  ghost predicate AllOneAYear(t: Table) {
    forall k :: k in t ==> OneAYear(t[k])
  }

  lemma OnlyValue(s: Series, year: int, x: real, y: real)
    requires OneAYear(s) && AnnualValue(year, x) in s && AnnualValue(year, y) in s
    ensures x == y
  {
    var i :| 0 <= i < |s| && s[i] == AnnualValue(year, x);
    var j :| 0 <= j < |s| && s[j] == AnnualValue(year, y);
    assert i == j;
  }

  lemma {:induction false} ValueForIsListed(s: Series, year: int)
    requires ValueFor(s, year).Some?
    ensures AnnualValue(year, ValueFor(s, year).value) in s
    decreases |s|
  {
    if s[|s| - 1].fiscalYear != year {
      ValueForIsListed(s[..|s| - 1], year);
    }
  }

  /** A combined value is made of the two series' values for its year. */
  lemma CombinedFrom(a: Series, b: Series, op: Operation, year: int, x: real) returns (p: real, q: real)
    requires AnnualValue(year, x) in CombineByYear(a, b, op)
    ensures AnnualValue(year, p) in a && AnnualValue(year, q) in b && x == if op == Plus then p + q else p - q
  {
    var c := CombineByYear(a, b, op);
    var j :| 0 <= j < |c| && c[j] == AnnualValue(year, x);
    CombinedValues(a, b, op, j);
    q := ValueFor(b, year).value;
    var i :| 0 <= i < |a| && a[i].fiscalYear == year && x == Apply(op, a[i].value, q);
    p := a[i].value;
    assert a[i] == AnnualValue(year, p);
    ValueForIsListed(b, year);
  }

  /** The parts share a year newer than every reported one. */
  ghost predicate PartsReachFurther(reported: Series, a: Series, b: Series) {
    exists y :: HasYear(a, y) && HasYear(b, y) && forall v :: v in reported ==> v.fiscalYear < y
  }

  lemma BelowMeans(s: Series, y: int)
    ensures Below(NewestYear(s), Some(y)) <==> forall v :: v in s ==> v.fiscalYear < y
  {
    NewestYearMeans(s);
    if s != [] {
      var i :| 0 <= i < |s| && s[i].fiscalYear == NewestYear(s).value;
      assert s[i] in s;
    }
  }

  /** When a series is derived, and the years it then has. */
  lemma DerivesIff(t: Table, key: Key, a: Series, b: Series, op: Operation)
    requires key in t
    ensures var (u, d) := DerivedAlways(t, key, a, b, op);
            && u.Keys == t.Keys && (forall k :: k in t && k != key ==> u[k] == t[k])
            && (d <==> PartsReachFurther(t[key], a, b))
            && u[key] == (if d then CombineByYear(a, b, op) else t[key])
            && (d ==> forall y :: HasYear(u[key], y) <==> HasYear(a, y) && HasYear(b, y))
  {
    var c := CombineByYear(a, b, op);
    NewerYearIsThere(t[key], c);
    forall y
      ensures HasYear(c, y) <==> HasYear(a, y) && HasYear(b, y)
      ensures Below(NewestYear(t[key]), Some(y)) <==> forall v :: v in t[key] ==> v.fiscalYear < y
    {
      CombinedYears(a, b, op, y);
      BelowMeans(t[key], y);
    }
  }

  /** The newest usable year is taken, with its own figures and those of the year before. */
  lemma NewestIsTaken(u: Table, first: Key, needPrior: bool, ready: int -> bool) returns (last: int)
    requires first in u && forall y :: Usable(u, needPrior, y) <==> ready(y)
    ensures match SelectYears(u, first, needPrior)
            case Selected(year, current, prior) =>
              && ready(year) && (forall y :: ready(y) ==> y <= year) && Usable(u, needPrior, year)
              && current == Figures(u, year)
              && last == year - 1 && (needPrior ==> HasEverywhere(u, last) && prior == Figures(u, last))
            case _ => forall y :: !ready(y)
  {
    SelectYearsMeans(u, first, needPrior);
    var s := SelectYears(u, first, needPrior);
    last := if s.Selected? then s.year - 1 else 0;
  }

  // Altman.

  /** All figures have the year; liabilities do if they are derived, since assets and equity have it. */
  ghost predicate AltmanReady(t: Table, year: int, derived: bool)
    requires t.Keys == ALTMAN_KEYS
  {
    && HasYear(t[Assets], year) && HasYear(t[CurrentAssets], year) && HasYear(t[CurrentLiabilities], year)
    && HasYear(t[RetainedEarnings], year) && HasYear(t[Ebit], year) && HasYear(t[Equity], year)
    && (derived || HasYear(t[Liabilities], year))
  }

  /** The values the series list for the year; derived liabilities are assets less equity. */
  ghost predicate AltmanValues(t: Table, year: int, derived: bool, f: AltmanFigures)
    requires t.Keys == ALTMAN_KEYS
  {
    && AnnualValue(year, f.assets) in t[Assets]
    && AnnualValue(year, f.currentAssets) in t[CurrentAssets]
    && AnnualValue(year, f.currentLiabilities) in t[CurrentLiabilities]
    && AnnualValue(year, f.retainedEarnings) in t[RetainedEarnings]
    && AnnualValue(year, f.ebit) in t[Ebit]
    && AnnualValue(year, f.equity) in t[Equity]
    && if derived then f.liabilities == f.assets - f.equity else AnnualValue(year, f.liabilities) in t[Liabilities]
  }

  /** The Z'' formula and its three classes; no score only if assets or liabilities are zero. */
  ghost predicate IsAltman(r: Altman, f: AltmanFigures) {
    if f.assets == 0.0 || f.liabilities == 0.0 then r == AltmanZeroDivisor
    else
      && r.AltmanScore?
      && r.z == 6.56 * ((f.currentAssets - f.currentLiabilities) / f.assets) + 3.26 * (f.retainedEarnings / f.assets)
                + 6.72 * (f.ebit / f.assets) + 1.05 * (f.equity / f.liabilities)
      && (r.classification == Safe <==> r.z > 2.6)
      && (r.classification == GreyZone <==> 1.1 < r.z <= 2.6)
      && (r.classification == Distress <==> r.z <= 1.1)
  }

  lemma AltmanOfIs(f: AltmanFigures)
    ensures IsAltman(AltmanOf(f), f)
  {
  }

  lemma AltmanEverywhere(u: Table, year: int)
    requires u.Keys == ALTMAN_KEYS
    ensures HasEverywhere(u, year) <==> AltmanReady(u, year, false)
  {
    assert forall k :: k in ALTMAN_KEYS ==> k in u;
  }

  lemma AltmanYears(t: Table, year: int)
    requires t.Keys == ALTMAN_KEYS
    ensures var (u, d) := DerivedAlways(t, Liabilities, t[Assets], t[Equity], Minus);
            && d == PartsReachFurther(t[Liabilities], t[Assets], t[Equity])
            && (HasEverywhere(u, year) <==> AltmanReady(t, year, d))
  {
    DerivesIff(t, Liabilities, t[Assets], t[Equity], Minus);
    AltmanEverywhere(DerivedAlways(t, Liabilities, t[Assets], t[Equity], Minus).0, year);
  }

  /** What is selected for the Altman score is what the reported series list, or assets less equity. */
  lemma AltmanSelects(t: Table, year: int)
    requires t.Keys == ALTMAN_KEYS && AllOneAYear(t)
    requires HasEverywhere(DerivedAlways(t, Liabilities, t[Assets], t[Equity], Minus).0, year)
    ensures var (u, d) := DerivedAlways(t, Liabilities, t[Assets], t[Equity], Minus);
            AltmanValues(t, year, d, AltmanFiguresOf(Figures(u, year)))
  {
    var (u, d) := DerivedAlways(t, Liabilities, t[Assets], t[Equity], Minus);
    DerivesIff(t, Liabilities, t[Assets], t[Equity], Minus);
    var v := Figures(u, year);
    var f := AltmanFiguresOf(v);
    assert forall k :: k in u ==> v[k] == AnnualValue(year, v[k].value);
    if d {
      var p, q := CombinedFrom(t[Assets], t[Equity], Minus, year, f.liabilities);
      OnlyValue(t[Assets], year, p, f.assets);
      OnlyValue(t[Equity], year, q, f.equity);
    }
  }

  /**
   * The Altman score, key by key: it is of the newest year all figures have, liabilities being derived exactly when
   * assets and equity reach a newer year than they do, and it is the Z'' of the values the series list for that year.
   */
  lemma AltmanMeans(t: Table) returns (f: AltmanFigures)
    requires t.Keys == ALTMAN_KEYS && AllOneAYear(t)
    ensures var derived := PartsReachFurther(t[Liabilities], t[Assets], t[Equity]);
            var o := ComputeAltman(t);
            && (o.NoScore? ==> forall y :: !AltmanReady(t, y, derived))
            && (o.Scored? ==>
                  && o.derived == (if derived then [Liabilities] else [])
                  && AltmanReady(t, o.year, derived) && (forall y :: AltmanReady(t, y, derived) ==> y <= o.year)
                  && AltmanValues(t, o.year, derived, f) && IsAltman(o.score, f))
  {
    var (u, d) := DerivedAlways(t, Liabilities, t[Assets], t[Equity], Minus);
    DerivesIff(t, Liabilities, t[Assets], t[Equity], Minus);
    forall y
      ensures Usable(u, false, y) <==> AltmanReady(t, y, d)
    {
      AltmanYears(t, y);
    }
    var _ := NewestIsTaken(u, Assets, false, y => AltmanReady(t, y, d));
    var s := SelectYears(u, Assets, false);
    if s.Selected? {
      f := AltmanFiguresOf(s.current);
      AltmanSelects(t, s.year);
      AltmanOfIs(f);
    } else {
      f := AltmanFigures(0.0, 0.0, 0.0, 0.0, 0.0, 0.0, 0.0);
    }
  }

  // Piotroski.

  /** All figures have the year, gross profit or else what it is derived from. */
  ghost predicate PiotroskiHas(t: Table, cost: Series, year: int, derived: bool)
    requires t.Keys == PIOTROSKI_KEYS
  {
    && HasYear(t[Assets], year) && HasYear(t[CurrentAssets], year) && HasYear(t[CurrentLiabilities], year)
    && HasYear(t[LongTermDebt], year) && HasYear(t[Cfo], year) && HasYear(t[NetIncome], year)
    && HasYear(t[Shares], year) && HasYear(t[Revenue], year)
    && HasYear(if derived then cost else t[GrossProfit], year)
  }

  ghost predicate PiotroskiReady(t: Table, cost: Series, year: int, derived: bool)
    requires t.Keys == PIOTROSKI_KEYS
  {
    PiotroskiHas(t, cost, year, derived) && PiotroskiHas(t, cost, year - 1, derived)
  }

  /** Gross profit as listed, or revenue less the cost listed for the year. */
  ghost predicate GrossProfitIs(reported: Series, cost: Series, year: int, derived: bool, revenue: real, x: real) {
    if derived then AnnualValue(year, revenue - x) in cost else AnnualValue(year, x) in reported
  }

  ghost predicate PiotroskiValues(t: Table, cost: Series, year: int, derived: bool, f: PiotroskiFigures)
    requires t.Keys == PIOTROSKI_KEYS
  {
    && AnnualValue(year, f.assets) in t[Assets]
    && AnnualValue(year, f.currentAssets) in t[CurrentAssets]
    && AnnualValue(year, f.currentLiabilities) in t[CurrentLiabilities]
    && AnnualValue(year, f.longTermDebt) in t[LongTermDebt]
    && AnnualValue(year, f.cfo) in t[Cfo]
    && AnnualValue(year, f.netIncome) in t[NetIncome]
    && AnnualValue(year, f.shares) in t[Shares]
    && AnnualValue(year, f.revenue) in t[Revenue]
    && GrossProfitIs(t[GrossProfit], cost, year, derived, f.revenue, f.grossProfit)
  }

  /**
   * One ratio above another when divisors may be zero: a zero divisor makes the ratio infinite with the sign of what
   * is divided, or undefined, and then nothing is above or below it.
   */
  ghost predicate RatioAbove(a: real, b: real, c: real, d: real) {
    if b != 0.0 && d != 0.0 then a / b > c / d
    else if b == 0.0 && d != 0.0 then a > 0.0
    else if b != 0.0 then c < 0.0
    else a > 0.0 && c < 0.0
  }

  ghost predicate AreSignals(s: Signals, t: PiotroskiFigures, p: PiotroskiFigures)
    requires t.assets != 0.0 && p.assets != 0.0 && t.revenue != 0.0 && p.revenue != 0.0
  {
    && s.positiveRoa == (t.netIncome / t.assets > 0.0)
    && s.positiveCfo == (t.cfo > 0.0)
    && s.improvingRoa == (t.netIncome / t.assets > p.netIncome / p.assets)
    && s.cfoExceedsNetIncome == (t.cfo > t.netIncome)
    && s.decreasingLeverage == (t.longTermDebt / t.assets < p.longTermDebt / p.assets)
    && s.improvingCurrentRatio
       == RatioAbove(t.currentAssets, t.currentLiabilities, p.currentAssets, p.currentLiabilities)
    && s.noNewShares == (t.shares <= p.shares)
    && s.improvingGrossMargin == (t.grossProfit / t.revenue > p.grossProfit / p.revenue)
    && s.improvingAssetTurnover == (t.revenue / t.assets > p.revenue / p.assets)
  }

  /** How many of them hold. */
  function Holding(s: Signals): nat {
    (if s.positiveRoa then 1 else 0) + (if s.positiveCfo then 1 else 0) + (if s.improvingRoa then 1 else 0)
    + (if s.cfoExceedsNetIncome then 1 else 0) + (if s.decreasingLeverage then 1 else 0)
    + (if s.improvingCurrentRatio then 1 else 0) + (if s.noNewShares then 1 else 0)
    + (if s.improvingGrossMargin then 1 else 0) + (if s.improvingAssetTurnover then 1 else 0)
  }

  /** The nine signals, how many of them hold, and the class that gives. */
  ghost predicate IsPiotroski(r: Piotroski, t: PiotroskiFigures, p: PiotroskiFigures) {
    if t.assets == 0.0 || p.assets == 0.0 || t.revenue == 0.0 || p.revenue == 0.0 then r == PiotroskiZeroDivisor
    else
      && r.PiotroskiScore? && AreSignals(r.signals, t, p)
      && r.value == Holding(r.signals)
      && (r.classification == HighQuality <==> r.value >= 8)
      && (r.classification == Moderate <==> 3 <= r.value <= 7)
      && (r.classification == LowQuality <==> r.value <= 2)
  }

  lemma CurrentRatioRises(a: real, b: real, c: real, d: real)
    ensures Greater(Quotient(a, b), Quotient(c, d)) <==> RatioAbove(a, b, c, d)
  {
  }

  lemma SignalsAre(t: PiotroskiFigures, p: PiotroskiFigures)
    requires t.assets != 0.0 && p.assets != 0.0 && t.revenue != 0.0 && p.revenue != 0.0
    ensures PiotroskiOf(t, p).PiotroskiScore? && AreSignals(PiotroskiOf(t, p).signals, t, p)
  {
    CurrentRatioRises(t.currentAssets, t.currentLiabilities, p.currentAssets, p.currentLiabilities);
  }

  lemma PointsAre(s: Signals)
    ensures Points(s) == Holding(s) <= 9
  {
  }

  lemma PiotroskiOfIs(t: PiotroskiFigures, p: PiotroskiFigures)
    ensures IsPiotroski(PiotroskiOf(t, p), t, p)
  {
    var r := PiotroskiOf(t, p);
    if r.PiotroskiScore? {
      SignalsAre(t, p);
      PointsAre(r.signals);
    }
  }

  lemma PiotroskiEverywhere(u: Table, year: int)
    requires u.Keys == PIOTROSKI_KEYS
    ensures HasEverywhere(u, year) <==> PiotroskiHas(u, [], year, false)
  {
    assert forall k :: k in PIOTROSKI_KEYS ==> k in u;
  }

  lemma PiotroskiYears(t: Table, cost: Series, year: int)
    requires t.Keys == PIOTROSKI_KEYS
    ensures var (u, d) := DerivedAlways(t, GrossProfit, t[Revenue], cost, Minus);
            && d == PartsReachFurther(t[GrossProfit], t[Revenue], cost)
            && (HasEverywhere(u, year) <==> PiotroskiHas(t, cost, year, d))
  {
    DerivesIff(t, GrossProfit, t[Revenue], cost, Minus);
    PiotroskiEverywhere(DerivedAlways(t, GrossProfit, t[Revenue], cost, Minus).0, year);
  }

  lemma GrossProfitSelected(t: Table, cost: Series, year: int, revenue: real, x: real)
    requires GrossProfit in t && Revenue in t && OneAYear(t[Revenue]) && AnnualValue(year, revenue) in t[Revenue]
    requires AnnualValue(year, x) in DerivedAlways(t, GrossProfit, t[Revenue], cost, Minus).0[GrossProfit]
    ensures var d := DerivedAlways(t, GrossProfit, t[Revenue], cost, Minus).1;
            GrossProfitIs(t[GrossProfit], cost, year, d, revenue, x)
  {
    DerivesIff(t, GrossProfit, t[Revenue], cost, Minus);
    if DerivedAlways(t, GrossProfit, t[Revenue], cost, Minus).1 {
      var p, q := CombinedFrom(t[Revenue], cost, Minus, year, x);
      OnlyValue(t[Revenue], year, p, revenue);
      assert revenue - x == q;
    }
  }

  lemma PiotroskiSelects(t: Table, cost: Series, year: int)
    requires t.Keys == PIOTROSKI_KEYS && AllOneAYear(t)
    requires HasEverywhere(DerivedAlways(t, GrossProfit, t[Revenue], cost, Minus).0, year)
    ensures var (u, d) := DerivedAlways(t, GrossProfit, t[Revenue], cost, Minus);
            PiotroskiValues(t, cost, year, d, PiotroskiFiguresOf(Figures(u, year)))
  {
    var (u, d) := DerivedAlways(t, GrossProfit, t[Revenue], cost, Minus);
    DerivesIff(t, GrossProfit, t[Revenue], cost, Minus);
    var v := Figures(u, year);
    var f := PiotroskiFiguresOf(v);
    assert forall k :: k in u ==> v[k] == AnnualValue(year, v[k].value);
    GrossProfitSelected(t, cost, year, f.revenue, f.grossProfit);
  }

  lemma PiotroskiUsable(t: Table, cost: Series)
    requires t.Keys == PIOTROSKI_KEYS
    ensures var (u, d) := DerivedAlways(t, GrossProfit, t[Revenue], cost, Minus);
            forall y :: Usable(u, true, y) <==> PiotroskiReady(t, cost, y, d)
  {
    var (u, d) := DerivedAlways(t, GrossProfit, t[Revenue], cost, Minus);
    forall y
      ensures Usable(u, true, y) <==> PiotroskiReady(t, cost, y, d)
    {
      PiotroskiYears(t, cost, y);
      PiotroskiYears(t, cost, y - 1);
    }
  }

  /** The score of the newest year, for whatever makes a year usable and whatever its figures are. */
  lemma PiotroskiOfNewest(u: Table, list: seq<Key>, ready: int -> bool)
    returns (last: int, now: PiotroskiFigures, before: PiotroskiFigures)
    requires u.Keys == PIOTROSKI_KEYS && forall y :: Usable(u, true, y) <==> ready(y)
    ensures var o := PiotroskiOutcome(u, list);
            && (o.NoScore? ==> forall y :: !ready(y))
            && (o.Scored? ==>
                  && o.derived == list && ready(o.year) && (forall y :: ready(y) ==> y <= o.year)
                  && HasEverywhere(u, o.year) && now == PiotroskiFiguresOf(Figures(u, o.year))
                  && last == o.year - 1 && HasEverywhere(u, last) && before == PiotroskiFiguresOf(Figures(u, last))
                  && o.score == PiotroskiOf(now, before))
  {
    last := NewestIsTaken(u, Assets, true, ready);
    var s := SelectYears(u, Assets, true);
    if s.Selected? {
      now, before := PiotroskiFiguresOf(s.current), PiotroskiFiguresOf(s.prior);
    } else {
      now := PiotroskiFigures(0.0, 0.0, 0.0, 0.0, 0.0, 0.0, 0.0, 0.0, 0.0);
      before := now;
    }
  }

  /** The same for the F-Score, from the values of the newest usable year and the year before. */
  lemma PiotroskiMeans(t: Table, cost: Series) returns (last: int, now: PiotroskiFigures, before: PiotroskiFigures)
    requires t.Keys == PIOTROSKI_KEYS && AllOneAYear(t)
    ensures var derived := PartsReachFurther(t[GrossProfit], t[Revenue], cost);
            var o := ComputePiotroski(t, cost);
            && (o.NoScore? ==> forall y :: !PiotroskiReady(t, cost, y, derived))
            && (o.Scored? ==>
                  && o.derived == (if derived then [GrossProfit] else [])
                  && PiotroskiReady(t, cost, o.year, derived)
                  && (forall y :: PiotroskiReady(t, cost, y, derived) ==> y <= o.year)
                  && PiotroskiValues(t, cost, o.year, derived, now)
                  && last == o.year - 1 && PiotroskiValues(t, cost, last, derived, before)
                  && IsPiotroski(o.score, now, before))
  {
    var (u, d) := DerivedAlways(t, GrossProfit, t[Revenue], cost, Minus);
    GrossProfitDerivesIff(t, cost);
    PiotroskiUsable(t, cost);
    last, now, before := PiotroskiOfNewest(u, if d then [GrossProfit] else [], y => PiotroskiReady(t, cost, y, d));
    var o := ComputePiotroski(t, cost);
    if o.Scored? {
      PiotroskiSelects(t, cost, o.year);
      PiotroskiSelects(t, cost, last);
      PiotroskiOfIs(now, before);
    }
  }

  // Beneish.

  /** A ratio whose divisor may be zero. */
  ghost predicate IsRatio(n: Number, a: real, b: real) {
    if b != 0.0 then n == Finite(a / b)
    else
      && (n == PlusInfinity <==> a > 0.0) && (n == MinusInfinity <==> a < 0.0) && (n == NaN <==> a == 0.0)
  }

  ghost predicate AreIndices(i: Indices, t: BeneishFigures, p: BeneishFigures)
    requires t.revenue != 0.0 && p.revenue != 0.0 && t.assets != 0.0 && p.assets != 0.0
    requires t.depreciation + t.ppe != 0.0 && p.depreciation + p.ppe != 0.0
  {
    && IsRatio(i.dsri, t.receivables / t.revenue, p.receivables / p.revenue)
    && IsRatio(i.gmi, p.grossProfit / p.revenue, t.grossProfit / t.revenue)
    && IsRatio(i.aqi, 1.0 - (t.currentAssets + t.ppe) / t.assets, 1.0 - (p.currentAssets + p.ppe) / p.assets)
    && i.sgi == Finite(t.revenue / p.revenue)
    && IsRatio(i.depi, p.depreciation / (p.depreciation + p.ppe), t.depreciation / (t.depreciation + t.ppe))
    && IsRatio(i.sgai, t.sga / t.revenue, p.sga / p.revenue)
    && i.tata == Finite((t.netIncome - t.cfo) / t.assets)
    && IsRatio(i.lvgi, (t.longTermDebt + t.currentLiabilities) / t.assets,
               (p.longTermDebt + p.currentLiabilities) / p.assets)
  }

  function ValueOf(n: Number): real {
    if n.Finite? then n.value else 0.0
  }

  /** A weighted sum of numbers: whether one is undefined, whether one pushes it up or down without bound, the rest. */
  datatype Tally = Tally(undefined: bool, up: bool, down: bool, sum: real) {
    function Total(): Number {
      if undefined || (up && down) then NaN else if up then PlusInfinity else if down then MinusInfinity
      else Finite(sum)
    }

    function Add(c: real, x: Number): Tally {
      Tally(undefined || x == NaN,
            up || x == (if c > 0.0 then PlusInfinity else MinusInfinity),
            down || x == (if c > 0.0 then MinusInfinity else PlusInfinity),
            sum + c * ValueOf(x))
    }
  }

  /** The M formula: eight weighted indices, six of which can be infinite or undefined. */
  ghost predicate IsM(m: Number, i: Indices) {
    m == Tally(
      NaN in [i.dsri, i.gmi, i.aqi, i.sgi, i.depi, i.sgai, i.tata, i.lvgi],
      PlusInfinity in [i.dsri, i.gmi, i.aqi, i.sgi, i.depi, i.tata] || MinusInfinity in [i.sgai, i.lvgi],
      MinusInfinity in [i.dsri, i.gmi, i.aqi, i.sgi, i.depi, i.tata] || PlusInfinity in [i.sgai, i.lvgi],
      -4.84 + 0.92 * ValueOf(i.dsri) + 0.528 * ValueOf(i.gmi) + 0.404 * ValueOf(i.aqi) + 0.892 * ValueOf(i.sgi)
      + 0.115 * ValueOf(i.depi) - 0.172 * ValueOf(i.sgai) + 4.679 * ValueOf(i.tata) - 0.327 * ValueOf(i.lvgi)).Total()
  }

  ghost predicate IsBeneish(r: Beneish, t: BeneishFigures, p: BeneishFigures) {
    if t.revenue == 0.0 || p.revenue == 0.0 || t.assets == 0.0 || p.assets == 0.0
       || t.depreciation + t.ppe == 0.0 || p.depreciation + p.ppe == 0.0
    then r == BeneishZeroDivisor
    else
      && r.BeneishScore? && AreIndices(r.indices, t, p) && IsM(r.m, r.indices)
      && (r.classification == LikelyManipulator <==> r.m == PlusInfinity || (r.m.Finite? && r.m.value > -2.22))
      && (r.classification == UnlikelyManipulator <==> r.classification != LikelyManipulator)
  }

  /** One more weighted number. */
  lemma TotalOneMore(t: Tally, c: real, x: Number)
    requires c != 0.0
    ensures Sum(t.Total(), Weighed(c, x)) == t.Add(c, x).Total()
  {
  }

  lemma MOfIs(i: Indices)
    ensures IsM(MOf(i), i)
  {
    var t0 := Tally(false, false, false, -4.84);
    var t1 := t0.Add(0.92, i.dsri);
    var t2 := t1.Add(0.528, i.gmi);
    var t3 := t2.Add(0.404, i.aqi);
    var t4 := t3.Add(0.892, i.sgi);
    var t5 := t4.Add(0.115, i.depi);
    var t6 := t5.Add(-0.172, i.sgai);
    var t7 := t6.Add(4.679, i.tata);
    TotalOneMore(t0, 0.92, i.dsri);
    TotalOneMore(t1, 0.528, i.gmi);
    TotalOneMore(t2, 0.404, i.aqi);
    TotalOneMore(t3, 0.892, i.sgi);
    TotalOneMore(t4, 0.115, i.depi);
    TotalOneMore(t5, -0.172, i.sgai);
    TotalOneMore(t6, 4.679, i.tata);
    TotalOneMore(t7, -0.327, i.lvgi);
  }

  lemma QuotientIsRatio(a: real, b: real)
    ensures IsRatio(Quotient(a, b), a, b)
  {
  }

  lemma IndicesAre(t: BeneishFigures, p: BeneishFigures)
    requires BeneishTestsPass(t) && BeneishTestsPass(p)
    ensures AreIndices(IndicesOf(t, p), t, p)
  {
    QuotientIsRatio(t.receivables / t.revenue, p.receivables / p.revenue);
    QuotientIsRatio(p.grossProfit / p.revenue, t.grossProfit / t.revenue);
    QuotientIsRatio(AssetQuality(t), AssetQuality(p));
    QuotientIsRatio(DepreciationRate(p), DepreciationRate(t));
    QuotientIsRatio(t.sga / t.revenue, p.sga / p.revenue);
    QuotientIsRatio(Leverage(t), Leverage(p));
  }

  lemma BeneishOfIs(t: BeneishFigures, p: BeneishFigures)
    ensures IsBeneish(BeneishOf(t, p), t, p)
  {
    if BeneishTestsPass(t) && BeneishTestsPass(p) {
      IndicesAre(t, p);
      MOfIs(IndicesOf(t, p));
    }
  }

  /** SG&A is reported for a year as new as any other figure's, so its parts are not looked at. */
  ghost predicate SgaIsRecent(t: Table)
    requires Sga in t
  {
    && t[Sga] != []
    && forall k, v :: k in t && k != Sga && v in t[k] ==> exists w :: w in t[Sga] && v.fiscalYear <= w.fiscalYear
  }

  ghost predicate SgaDerived(t: Table, selling: Series, admin: Series)
    requires Sga in t
  {
    !SgaIsRecent(t) && PartsReachFurther(t[Sga], selling, admin)
  }

  /** All figures have the year, derived ones the parts they are derived from. */
  ghost predicate BeneishHas(t: Table, cost: Series, selling: Series, admin: Series, year: int, gd: bool, sd: bool)
    requires t.Keys == BENEISH_KEYS
  {
    && HasYear(t[Assets], year) && HasYear(t[CurrentAssets], year) && HasYear(t[CurrentLiabilities], year)
    && HasYear(t[LongTermDebt], year) && HasYear(t[Cfo], year) && HasYear(t[NetIncome], year)
    && HasYear(t[Revenue], year) && HasYear(t[Receivables], year) && HasYear(t[Ppe], year)
    && HasYear(t[Depreciation], year)
    && HasYear(if gd then cost else t[GrossProfit], year)
    && if sd then HasYear(selling, year) && HasYear(admin, year) else HasYear(t[Sga], year)
  }

  ghost predicate BeneishReady(t: Table, cost: Series, selling: Series, admin: Series, year: int, gd: bool, sd: bool)
    requires t.Keys == BENEISH_KEYS
  {
    BeneishHas(t, cost, selling, admin, year, gd, sd) && BeneishHas(t, cost, selling, admin, year - 1, gd, sd)
  }

  /** SG&A as listed, or the sum of its parts' values for the year. */
  ghost predicate SgaIs(reported: Series, selling: Series, admin: Series, year: int, derived: bool, x: real) {
    if derived then exists p :: AnnualValue(year, p) in selling && AnnualValue(year, x - p) in admin
    else AnnualValue(year, x) in reported
  }

  ghost predicate BeneishValues(t: Table, cost: Series, selling: Series, admin: Series, year: int, gd: bool, sd: bool,
                                f: BeneishFigures)
    requires t.Keys == BENEISH_KEYS
  {
    && AnnualValue(year, f.assets) in t[Assets]
    && AnnualValue(year, f.currentAssets) in t[CurrentAssets]
    && AnnualValue(year, f.currentLiabilities) in t[CurrentLiabilities]
    && AnnualValue(year, f.longTermDebt) in t[LongTermDebt]
    && AnnualValue(year, f.cfo) in t[Cfo]
    && AnnualValue(year, f.netIncome) in t[NetIncome]
    && AnnualValue(year, f.revenue) in t[Revenue]
    && AnnualValue(year, f.receivables) in t[Receivables]
    && AnnualValue(year, f.ppe) in t[Ppe]
    && AnnualValue(year, f.depreciation) in t[Depreciation]
    && GrossProfitIs(t[GrossProfit], cost, year, gd, f.revenue, f.grossProfit)
    && SgaIs(t[Sga], selling, admin, year, sd, f.sga)
  }

  /** What the skip comes to. */
  lemma SkipsIff(t: Table, year: Option<int>)
    requires Sga in t && NewestElsewhere(t, Sga, year)
    ensures Skips(t[Sga], year) <==> SgaIsRecent(t)
  {
    if Skips(t[Sga], year) {
      SkipsThenRecent(t, year);
    }
    if SgaIsRecent(t) {
      RecentThenSkips(t, year);
    }
  }

  /** The newest year is some value's. */
  lemma NewestIsListed(s: Series) returns (v: AnnualValue)
    requires s != []
    ensures v in s && NewestYear(s) == Some(v.fiscalYear)
  {
    NewestYearMeans(s);
    var i :| 0 <= i < |s| && s[i].fiscalYear == NewestYear(s).value;
    v := s[i];
  }

  lemma NoneNewer(s: Series, v: AnnualValue)
    requires v in s
    ensures NewestYear(s).Some? && v.fiscalYear <= NewestYear(s).value
  {
    NewestYearMeans(s);
  }

  lemma SkipsThenRecent(t: Table, year: Option<int>)
    requires Sga in t && NewestElsewhere(t, Sga, year) && Skips(t[Sga], year)
    ensures SgaIsRecent(t)
  {
    var w := NewestIsListed(t[Sga]);
    forall k, v | k in t && k != Sga && v in t[k]
      ensures v.fiscalYear <= w.fiscalYear
    {
      NoneNewer(t[k], v);
    }
  }

  lemma RecentThenSkips(t: Table, year: Option<int>)
    requires Sga in t && NewestElsewhere(t, Sga, year) && SgaIsRecent(t)
    ensures Skips(t[Sga], year)
  {
    if year.Some? {
      var k :| k in t && k != Sga && NewestYear(t[k]) == year;
      var v := NewestIsListed(t[k]);
      var w :| w in t[Sga] && v.fiscalYear <= w.fiscalYear;
      NoneNewer(t[Sga], w);
    }
  }

  /** When the two series of the M-Score are derived, and the years they then have. */
  lemma BeneishDerives(t: Table, cost: Series, selling: Series, admin: Series, year: Option<int>)
    requires t.Keys == BENEISH_KEYS && NewestElsewhere(t, Sga, year)
    ensures var (u, list) := BeneishInputs(t, cost, selling, admin, year);
            var gd, sd := PartsReachFurther(t[GrossProfit], t[Revenue], cost), SgaDerived(t, selling, admin);
            && list == (if gd then [GrossProfit] else []) + (if sd then [Sga] else [])
            && (forall k :: k in t && k != GrossProfit && k != Sga ==> u[k] == t[k])
            && u[GrossProfit] == DerivedAlways(t, GrossProfit, t[Revenue], cost, Minus).0[GrossProfit]
            && u[Sga] == (if sd then CombineByYear(selling, admin, Plus) else t[Sga])
  {
    var (g, gd) := DerivedAlways(t, GrossProfit, t[Revenue], cost, Minus);
    DerivesIff(t, GrossProfit, t[Revenue], cost, Minus);
    DerivesIff(g, Sga, selling, admin, Plus);
    assert g[Sga] == t[Sga];
    SkipsIff(t, year);
  }

  /** The years they then have. */
  lemma BeneishDerivedYears(t: Table, cost: Series, selling: Series, admin: Series, newest: Option<int>, y: int)
    requires t.Keys == BENEISH_KEYS && NewestElsewhere(t, Sga, newest)
    ensures var u := BeneishInputs(t, cost, selling, admin, newest).0;
            var gd, sd := PartsReachFurther(t[GrossProfit], t[Revenue], cost), SgaDerived(t, selling, admin);
            && (HasYear(u[GrossProfit], y)
                <==> if gd then HasYear(t[Revenue], y) && HasYear(cost, y) else HasYear(t[GrossProfit], y))
            && (HasYear(u[Sga], y) <==> if sd then HasYear(selling, y) && HasYear(admin, y) else HasYear(t[Sga], y))
  {
    BeneishDerives(t, cost, selling, admin, newest);
    DerivesIff(t, GrossProfit, t[Revenue], cost, Minus);
    CombinedYears(selling, admin, Plus, y);
  }

  lemma BeneishEverywhere(u: Table, year: int)
    requires u.Keys == BENEISH_KEYS
    ensures HasEverywhere(u, year) <==> BeneishHas(u, [], [], [], year, false, false)
  {
    assert forall k :: k in BENEISH_KEYS ==> k in u;
  }

  lemma BeneishYears(t: Table, cost: Series, selling: Series, admin: Series, newest: Option<int>, year: int)
    requires t.Keys == BENEISH_KEYS && NewestElsewhere(t, Sga, newest)
    ensures var u := BeneishInputs(t, cost, selling, admin, newest).0;
            var gd, sd := PartsReachFurther(t[GrossProfit], t[Revenue], cost), SgaDerived(t, selling, admin);
            HasEverywhere(u, year) <==> BeneishHas(t, cost, selling, admin, year, gd, sd)
  {
    BeneishDerives(t, cost, selling, admin, newest);
    BeneishDerivedYears(t, cost, selling, admin, newest, year);
    BeneishEverywhere(BeneishInputs(t, cost, selling, admin, newest).0, year);
  }

  lemma BeneishSelects(t: Table, cost: Series, selling: Series, admin: Series, newest: Option<int>, year: int)
    requires t.Keys == BENEISH_KEYS && NewestElsewhere(t, Sga, newest) && AllOneAYear(t)
    requires HasEverywhere(BeneishInputs(t, cost, selling, admin, newest).0, year)
    ensures var u := BeneishInputs(t, cost, selling, admin, newest).0;
            var gd, sd := PartsReachFurther(t[GrossProfit], t[Revenue], cost), SgaDerived(t, selling, admin);
            BeneishValues(t, cost, selling, admin, year, gd, sd, BeneishFiguresOf(Figures(u, year)))
  {
    var u := BeneishInputs(t, cost, selling, admin, newest).0;
    BeneishDerives(t, cost, selling, admin, newest);
    var f := BeneishFiguresOf(Figures(u, year));
    var sd := SgaDerived(t, selling, admin);
    BeneishFiguresAreListed(u, year);
    GrossProfitDerivesIff(t, cost);
    GrossProfitSelected(t, cost, year, f.revenue, f.grossProfit);
    if sd {
      SgaSelected(t[Sga], selling, admin, year, f.sga);
    }
    BeneishValuesFrom(t, u, cost, selling, admin, year, sd, f);
  }

  lemma GrossProfitDerivesIff(t: Table, cost: Series)
    requires GrossProfit in t && Revenue in t
    ensures DerivedAlways(t, GrossProfit, t[Revenue], cost, Minus).1
            == PartsReachFurther(t[GrossProfit], t[Revenue], cost)
  {
    DerivesIff(t, GrossProfit, t[Revenue], cost, Minus);
  }

  lemma BeneishValuesFrom(t: Table, u: Table, cost: Series, selling: Series, admin: Series, year: int, sd: bool,
                          f: BeneishFigures)
    requires t.Keys == BENEISH_KEYS && u.Keys == BENEISH_KEYS
    requires forall k :: k in t && k != GrossProfit && k != Sga ==> u[k] == t[k]
    requires BeneishValues(u, [], [], [], year, false, false, f)
    requires var gd := PartsReachFurther(t[GrossProfit], t[Revenue], cost);
             GrossProfitIs(t[GrossProfit], cost, year, gd, f.revenue, f.grossProfit)
    requires SgaIs(t[Sga], selling, admin, year, sd, f.sga)
    ensures BeneishValues(t, cost, selling, admin, year, PartsReachFurther(t[GrossProfit], t[Revenue], cost), sd, f)
  {
  }

  lemma SgaSelected(reported: Series, selling: Series, admin: Series, year: int, x: real)
    requires AnnualValue(year, x) in CombineByYear(selling, admin, Plus)
    ensures SgaIs(reported, selling, admin, year, true, x)
  {
    var p, q := CombinedFrom(selling, admin, Plus, year, x);
    assert x - p == q;
  }

  lemma BeneishFiguresAreListed(u: Table, year: int)
    requires u.Keys == BENEISH_KEYS && HasEverywhere(u, year)
    ensures BeneishValues(u, [], [], [], year, false, false, BeneishFiguresOf(Figures(u, year)))
  {
    var v := Figures(u, year);
    assert forall k :: k in u ==> v[k] == AnnualValue(year, v[k].value);
  }

  lemma BeneishUsable(t: Table, cost: Series, selling: Series, admin: Series, newest: Option<int>)
    requires t.Keys == BENEISH_KEYS && NewestElsewhere(t, Sga, newest)
    ensures var u := BeneishInputs(t, cost, selling, admin, newest).0;
            var gd, sd := PartsReachFurther(t[GrossProfit], t[Revenue], cost), SgaDerived(t, selling, admin);
            forall y :: Usable(u, true, y) <==> BeneishReady(t, cost, selling, admin, y, gd, sd)
  {
    var u := BeneishInputs(t, cost, selling, admin, newest).0;
    var gd, sd := PartsReachFurther(t[GrossProfit], t[Revenue], cost), SgaDerived(t, selling, admin);
    forall y
      ensures Usable(u, true, y) <==> BeneishReady(t, cost, selling, admin, y, gd, sd)
    {
      BeneishYears(t, cost, selling, admin, newest, y);
      BeneishYears(t, cost, selling, admin, newest, y - 1);
    }
  }

  lemma BeneishOfNewest(u: Table, list: seq<Key>, ready: int -> bool)
    returns (last: int, now: BeneishFigures, before: BeneishFigures)
    requires u.Keys == BENEISH_KEYS && forall y :: Usable(u, true, y) <==> ready(y)
    ensures var o := BeneishOutcome(u, list);
            && (o.NoScore? ==> forall y :: !ready(y))
            && (o.Scored? ==>
                  && o.derived == list && ready(o.year) && (forall y :: ready(y) ==> y <= o.year)
                  && HasEverywhere(u, o.year) && now == BeneishFiguresOf(Figures(u, o.year))
                  && last == o.year - 1 && HasEverywhere(u, last) && before == BeneishFiguresOf(Figures(u, last))
                  && o.score == BeneishOf(now, before))
  {
    last := NewestIsTaken(u, Assets, true, ready);
    var s := SelectYears(u, Assets, true);
    if s.Selected? {
      now, before := BeneishFiguresOf(s.current), BeneishFiguresOf(s.prior);
    } else {
      now := BeneishFigures(0.0, 0.0, 0.0, 0.0, 0.0, 0.0, 0.0, 0.0, 0.0, 0.0, 0.0, 0.0);
      before := now;
    }
  }

  /** And for the M-Score. */
  lemma BeneishMeans(t: Table, cost: Series, selling: Series, admin: Series, newest: Option<int>)
    returns (last: int, now: BeneishFigures, before: BeneishFigures)
    requires t.Keys == BENEISH_KEYS && NewestElsewhere(t, Sga, newest) && AllOneAYear(t)
    ensures var gd, sd := PartsReachFurther(t[GrossProfit], t[Revenue], cost), SgaDerived(t, selling, admin);
            var o := ComputeBeneish(t, cost, selling, admin, newest);
            && (o.NoScore? ==> forall y :: !BeneishReady(t, cost, selling, admin, y, gd, sd))
            && (o.Scored? ==>
                  && o.derived == (if gd then [GrossProfit] else []) + (if sd then [Sga] else [])
                  && BeneishReady(t, cost, selling, admin, o.year, gd, sd)
                  && (forall y :: BeneishReady(t, cost, selling, admin, y, gd, sd) ==> y <= o.year)
                  && BeneishValues(t, cost, selling, admin, o.year, gd, sd, now)
                  && last == o.year - 1 && BeneishValues(t, cost, selling, admin, last, gd, sd, before)
                  && IsBeneish(o.score, now, before))
  {
    var (u, list) := BeneishInputs(t, cost, selling, admin, newest);
    var gd, sd := PartsReachFurther(t[GrossProfit], t[Revenue], cost), SgaDerived(t, selling, admin);
    BeneishDerives(t, cost, selling, admin, newest);
    BeneishUsable(t, cost, selling, admin, newest);
    last, now, before := BeneishOfNewest(u, list, y => BeneishReady(t, cost, selling, admin, y, gd, sd));
    var o := ComputeBeneish(t, cost, selling, admin, newest);
    if o.Scored? {
      BeneishSelects(t, cost, selling, admin, newest, o.year);
      BeneishSelects(t, cost, selling, admin, newest, last);
      BeneishOfIs(now, before);
    }
  }
}
