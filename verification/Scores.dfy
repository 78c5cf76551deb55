/** The three score formulas, over reals, and their independence of the unit the dollars are counted in. */
module Scores {
  import opened Common
  import opened Scoring

  const ALTMAN_KEYS := {Assets, Liabilities, CurrentAssets, CurrentLiabilities, RetainedEarnings, Ebit, Equity}
  const PIOTROSKI_KEYS := {Assets, CurrentAssets, CurrentLiabilities, LongTermDebt, Cfo, NetIncome, Shares, GrossProfit,
                           Revenue}
  const BENEISH_KEYS := {Assets, CurrentAssets, CurrentLiabilities, LongTermDebt, Cfo, NetIncome, Revenue, GrossProfit,
                         Receivables, Ppe, Depreciation, Sga}

  datatype AltmanFigures = AltmanFigures(
    assets: real, liabilities: real, currentAssets: real, currentLiabilities: real,
    retainedEarnings: real, ebit: real, equity: real)

  datatype PiotroskiFigures = PiotroskiFigures(
    assets: real, currentAssets: real, currentLiabilities: real, longTermDebt: real, cfo: real,
    netIncome: real, shares: real, grossProfit: real, revenue: real)

  datatype BeneishFigures = BeneishFigures(
    assets: real, currentAssets: real, currentLiabilities: real, longTermDebt: real, cfo: real, netIncome: real,
    revenue: real, grossProfit: real, receivables: real, ppe: real, depreciation: real, sga: real)

  datatype Signals = Signals(
    positiveRoa: bool, positiveCfo: bool, improvingRoa: bool, cfoExceedsNetIncome: bool, decreasingLeverage: bool,
    improvingCurrentRatio: bool, noNewShares: bool, improvingGrossMargin: bool, improvingAssetTurnover: bool)

  datatype Indices = Indices(
    dsri: Number, gmi: Number, aqi: Number, sgi: Number, depi: Number, sgai: Number, tata: Number, lvgi: Number)

  datatype Classification =
    | Safe | GreyZone | Distress
    | HighQuality | Moderate | LowQuality
    | LikelyManipulator | UnlikelyManipulator

  /** A JavaScript number, but for rounding and the sign of zero. */
  datatype Number = Finite(value: real) | PlusInfinity | MinusInfinity | NaN

  /** What a formula gives: a value, or a refusal because a divisor it tests is zero. */
  datatype Altman = AltmanScore(z: real, classification: Classification) | AltmanZeroDivisor
  datatype Piotroski =
    | PiotroskiScore(signals: Signals, value: nat, classification: Classification)
    | PiotroskiZeroDivisor
  datatype Beneish = BeneishScore(indices: Indices, m: Number, classification: Classification) | BeneishZeroDivisor

  function Div(a: real, b: real): real
    requires b != 0.0
  {
    a / b
  }

  /** A division whose divisor has not been tested. */
  function Quotient(a: real, b: real): Number {
    if b != 0.0 then Finite(Div(a, b)) else if a > 0.0 then PlusInfinity else if a < 0.0 then MinusInfinity else NaN
  }

  predicate Greater(x: Number, y: Number) {
    match x
    case Finite(v) => y.MinusInfinity? || (y.Finite? && v > y.value)
    case PlusInfinity => y.Finite? || y.MinusInfinity?
    case MinusInfinity => false
    case NaN => false
  }

  function Sum(x: Number, y: Number): Number {
    if x.NaN? || y.NaN? then NaN
    else if x.Finite? && y.Finite? then Finite(x.value + y.value)
    else if x.Finite? then y
    else if y.Finite? || x == y then x
    else NaN
  }

  function Weighed(c: real, x: Number): Number
    requires c != 0.0
  {
    match x
    case Finite(v) => Finite(c * v)
    case PlusInfinity => if c > 0.0 then PlusInfinity else MinusInfinity
    case MinusInfinity => if c > 0.0 then MinusInfinity else PlusInfinity
    case NaN => NaN
  }

  function AltmanOf(f: AltmanFigures): Altman {
    if f.assets == 0.0 || f.liabilities == 0.0 then AltmanZeroDivisor
    else
      var x1 := Div(f.currentAssets - f.currentLiabilities, f.assets);
      var x2 := Div(f.retainedEarnings, f.assets);
      var x3 := Div(f.ebit, f.assets);
      var x4 := Div(f.equity, f.liabilities);
      var z := 6.56 * x1 + 3.26 * x2 + 6.72 * x3 + 1.05 * x4;
      AltmanScore(z, if z > 2.6 then Safe else if z > 1.1 then GreyZone else Distress)
  }

  function One(b: bool): nat {
    if b then 1 else 0
  }

  function Points(s: Signals): nat {
    One(s.positiveRoa) + One(s.positiveCfo) + One(s.improvingRoa) + One(s.cfoExceedsNetIncome)
    + One(s.decreasingLeverage) + One(s.improvingCurrentRatio) + One(s.noNewShares) + One(s.improvingGrossMargin)
    + One(s.improvingAssetTurnover)
  }

  /** `t` is the year in question, `p` the one before. */
  function PiotroskiOf(t: PiotroskiFigures, p: PiotroskiFigures): Piotroski {
    if t.assets == 0.0 || p.assets == 0.0 || t.revenue == 0.0 || p.revenue == 0.0 then PiotroskiZeroDivisor
    else
      var s := Signals(
        Div(t.netIncome, t.assets) > 0.0,
        t.cfo > 0.0,
        Div(t.netIncome, t.assets) > Div(p.netIncome, p.assets),
        t.cfo > t.netIncome,
        Div(t.longTermDebt, t.assets) < Div(p.longTermDebt, p.assets),
        Greater(Quotient(t.currentAssets, t.currentLiabilities), Quotient(p.currentAssets, p.currentLiabilities)),
        t.shares <= p.shares,
        Div(t.grossProfit, t.revenue) > Div(p.grossProfit, p.revenue),
        Div(t.revenue, t.assets) > Div(p.revenue, p.assets));
      var score := Points(s);
      PiotroskiScore(s, score, if score >= 8 then HighQuality else if score <= 2 then LowQuality else Moderate)
  }

  function AssetQuality(f: BeneishFigures): real
    requires f.assets != 0.0
  {
    1.0 - Div(f.currentAssets + f.ppe, f.assets)
  }

  function DepreciationRate(f: BeneishFigures): real
    requires f.depreciation + f.ppe != 0.0
  {
    Div(f.depreciation, f.depreciation + f.ppe)
  }

  function Leverage(f: BeneishFigures): real
    requires f.assets != 0.0
  {
    Div(f.longTermDebt + f.currentLiabilities, f.assets)
  }

  /** The divisors tested before anything is computed. */
  predicate BeneishTestsPass(f: BeneishFigures) {
    f.revenue != 0.0 && f.assets != 0.0 && f.depreciation + f.ppe != 0.0
  }

  function IndicesOf(t: BeneishFigures, p: BeneishFigures): Indices
    requires BeneishTestsPass(t) && BeneishTestsPass(p)
  {
    Indices(
      Quotient(Div(t.receivables, t.revenue), Div(p.receivables, p.revenue)),
      Quotient(Div(p.grossProfit, p.revenue), Div(t.grossProfit, t.revenue)),
      Quotient(AssetQuality(t), AssetQuality(p)),
      Quotient(t.revenue, p.revenue),
      Quotient(DepreciationRate(p), DepreciationRate(t)),
      Quotient(Div(t.sga, t.revenue), Div(p.sga, p.revenue)),
      Quotient(t.netIncome - t.cfo, t.assets),
      Quotient(Leverage(t), Leverage(p)))
  }

  function MOf(i: Indices): Number {
    Sum(Sum(Sum(Sum(Sum(Sum(Sum(Sum(Finite(-4.84),
      Weighed(0.92, i.dsri)), Weighed(0.528, i.gmi)), Weighed(0.404, i.aqi)), Weighed(0.892, i.sgi)),
      Weighed(0.115, i.depi)), Weighed(-0.172, i.sgai)), Weighed(4.679, i.tata)), Weighed(-0.327, i.lvgi))
  }

  function BeneishOf(t: BeneishFigures, p: BeneishFigures): Beneish {
    if !BeneishTestsPass(t) || !BeneishTestsPass(p) then BeneishZeroDivisor
    else
      var i := IndicesOf(t, p);
      var m := MOf(i);
      BeneishScore(i, m, if Greater(m, Finite(-2.22)) then LikelyManipulator else UnlikelyManipulator)
  }

  /** One undefined index makes the score undefined, and an undefined score is never flagged. */
  lemma UndefinedIsNotFlagged(t: BeneishFigures, p: BeneishFigures)
    requires BeneishTestsPass(t) && BeneishTestsPass(p)
    requires var i := IndicesOf(t, p);
             NaN in [i.dsri, i.gmi, i.aqi, i.sgi, i.depi, i.sgai, i.tata, i.lvgi]
    ensures BeneishOf(t, p) == BeneishScore(IndicesOf(t, p), NaN, UnlikelyManipulator)
  {
  }

  // Companies whose scores are known.

  lemma KnownAltmanScores()
    ensures AltmanOf(AltmanFigures(1000.0, 200.0, 600.0, 200.0, 500.0, 200.0, 800.0)) == AltmanScore(9.798, Safe)
    ensures AltmanOf(AltmanFigures(1000.0, 700.0, 300.0, 200.0, 100.0, 50.0, 300.0)) == AltmanScore(1.768, GreyZone)
    ensures AltmanOf(AltmanFigures(1000.0, 900.0, 100.0, 400.0, -600.0, -100.0, 100.0)).classification == Distress
    ensures AltmanOf(AltmanFigures(0.0, 500.0, 100.0, 50.0, 10.0, 5.0, 100.0)) == AltmanZeroDivisor
  {
    assert Div(400.0, 1000.0) == 0.4 && Div(500.0, 1000.0) == 0.5 && Div(200.0, 1000.0) == 0.2;
    assert Div(800.0, 200.0) == 4.0;
    assert Div(100.0, 1000.0) == 0.1 && Div(50.0, 1000.0) == 0.05 && Div(300.0, 700.0) * 7.0 == 3.0;
  }

  /** The bounds themselves fall to the class below them. */
  lemma AltmanBounds()
    ensures AltmanOf(AltmanFigures(656.0, 1.0, 110.0, 0.0, 0.0, 0.0, 0.0)) == AltmanScore(1.1, Distress)
    ensures AltmanOf(AltmanFigures(656.0, 1.0, 260.0, 0.0, 0.0, 0.0, 0.0)) == AltmanScore(2.6, GreyZone)
  {
    assert Div(110.0, 656.0) * 656.0 == 110.0 && Div(260.0, 656.0) * 656.0 == 260.0 && Div(0.0, 656.0) == 0.0;
  }

  lemma ProductCommutes(x: real, y: real)
    ensures Product(x, y) == Product(y, x)
  {
  }

  lemma ProductRotates(x: real, y: real, z: real)
    ensures Product(Product(x, y), z) == Product(Product(y, z), x)
  {
  }

  /** Multiplying by the divisor undoes the division. */
  lemma Undivided(a: real, b: real, d: real)
    requires b != 0.0
    ensures Product(Product(b, d), Div(a, b)) == Product(a, d)
  {
    var x := Div(a, b);
    assert Product(x, b) == a;
    ProductRotates(x, b, d);
  }

  lemma CrossMultiplied(a: real, b: real, c: real, d: real)
    requires b > 0.0 && d > 0.0
    ensures Div(a, b) > Div(c, d) <==> Product(a, d) > Product(c, b)
  {
    var x, y, k := Div(a, b), Div(c, d), Product(b, d);
    SameSigns(b, d);
    Undivided(a, b, d);
    Undivided(c, d, b);
    ProductCommutes(b, d);
    ProductOfDifference(k, x, y);
    SignOfProduct(k, x - y);
  }

  /** For a company with assets, revenue and current liabilities, the nine signals without a division. */
  ghost predicate TextbookSignals(s: Signals, t: PiotroskiFigures, p: PiotroskiFigures) {
    && (s.positiveRoa <==> t.netIncome > 0.0)
    && (s.positiveCfo <==> t.cfo > 0.0)
    && (s.improvingRoa <==> Product(t.netIncome, p.assets) > Product(p.netIncome, t.assets))
    && (s.cfoExceedsNetIncome <==> t.cfo > t.netIncome)
    && (s.decreasingLeverage <==> Product(p.longTermDebt, t.assets) > Product(t.longTermDebt, p.assets))
    && (s.improvingCurrentRatio
        <==> Product(t.currentAssets, p.currentLiabilities) > Product(p.currentAssets, t.currentLiabilities))
    && (s.noNewShares <==> t.shares <= p.shares)
    && (s.improvingGrossMargin <==> Product(t.grossProfit, p.revenue) > Product(p.grossProfit, t.revenue))
    && (s.improvingAssetTurnover <==> Product(t.revenue, p.assets) > Product(p.revenue, t.assets))
  }

  lemma SignalsMean(t: PiotroskiFigures, p: PiotroskiFigures)
    requires t.assets > 0.0 && t.revenue > 0.0 && t.currentLiabilities > 0.0
    requires p.assets > 0.0 && p.revenue > 0.0 && p.currentLiabilities > 0.0
    ensures PiotroskiOf(t, p).PiotroskiScore? && TextbookSignals(PiotroskiOf(t, p).signals, t, p)
  {
    CrossMultiplied(t.netIncome, t.assets, 0.0, 1.0);
    CrossMultiplied(t.netIncome, t.assets, p.netIncome, p.assets);
    CrossMultiplied(p.longTermDebt, p.assets, t.longTermDebt, t.assets);
    CrossMultiplied(t.currentAssets, t.currentLiabilities, p.currentAssets, p.currentLiabilities);
    CrossMultiplied(t.grossProfit, t.revenue, p.grossProfit, p.revenue);
    CrossMultiplied(t.revenue, t.assets, p.revenue, p.assets);
  }

  lemma KnownPiotroskiScores()
    ensures var p := PiotroskiFigures(900.0, 400.0, 250.0, 150.0, 100.0, 80.0, 1000.0, 350.0, 700.0);
            var t := PiotroskiFigures(1000.0, 500.0, 200.0, 100.0, 150.0, 100.0, 1000.0, 450.0, 800.0);
            var best, mixed := PiotroskiOf(t, p), PiotroskiOf(t.(shares := 1100.0, grossProfit := 300.0), p);
            && best.PiotroskiScore? && best.value == 9 && best.classification == HighQuality
            && mixed.PiotroskiScore? && mixed.value == 7 && mixed.classification == Moderate
            && !mixed.signals.noNewShares && !mixed.signals.improvingGrossMargin
  {
    var p := PiotroskiFigures(900.0, 400.0, 250.0, 150.0, 100.0, 80.0, 1000.0, 350.0, 700.0);
    SignalsMean(PiotroskiFigures(1000.0, 500.0, 200.0, 100.0, 150.0, 100.0, 1000.0, 450.0, 800.0), p);
    SignalsMean(PiotroskiFigures(1000.0, 500.0, 200.0, 100.0, 150.0, 100.0, 1100.0, 300.0, 800.0), p);
  }

  lemma WorstPiotroskiScore()
    ensures var t := PiotroskiFigures(1000.0, 200.0, 300.0, 300.0, -50.0, -20.0, 1100.0, 300.0, 800.0);
            var p := PiotroskiFigures(900.0, 400.0, 150.0, 100.0, 100.0, 50.0, 1000.0, 500.0, 800.0);
            && PiotroskiOf(t, p).PiotroskiScore?
            && PiotroskiOf(t, p).value == 0 && PiotroskiOf(t, p).classification == LowQuality
  {
    SignalsMean(PiotroskiFigures(1000.0, 200.0, 300.0, 300.0, -50.0, -20.0, 1100.0, 300.0, 800.0),
                PiotroskiFigures(900.0, 400.0, 150.0, 100.0, 100.0, 50.0, 1000.0, 500.0, 800.0));
  }

  /** A company whose two years agree has M = -2.48 plus what its accruals add. */
  lemma SteadyCompanies(t: BeneishFigures, p: BeneishFigures)
    requires BeneishTestsPass(t) && p == t.(cfo := p.cfo, netIncome := p.netIncome)
    requires t.receivables != 0.0 && t.grossProfit != 0.0 && AssetQuality(t) != 0.0
    requires t.depreciation != 0.0 && t.sga != 0.0 && t.longTermDebt + t.currentLiabilities != 0.0
    ensures var accruals := Div(t.netIncome - t.cfo, t.assets);
            var r := BeneishOf(t, p);
            && r.BeneishScore? && r.m == Finite(-2.48 + 4.679 * accruals)
            && (r.classification == LikelyManipulator <==> -2.48 + 4.679 * accruals > -2.22)
  {
    RatioToItself(t.receivables, t.revenue);
    RatioToItself(t.grossProfit, t.revenue);
    RatioToItself(t.depreciation, t.depreciation + t.ppe);
    RatioToItself(t.sga, t.revenue);
    RatioToItself(t.longTermDebt + t.currentLiabilities, t.assets);
    ItselfOnce(AssetQuality(t));
    ItselfOnce(t.revenue);
    var one, tata := Finite(1.0), Finite(Div(t.netIncome - t.cfo, t.assets));
    assert IndicesOf(t, p) == Indices(one, one, one, one, one, one, tata, one);
    MOfFinite(1.0, 1.0, 1.0, 1.0, 1.0, 1.0, tata.value, 1.0);
  }

  lemma RatioToItself(a: real, b: real)
    requires a != 0.0 && b != 0.0
    ensures Div(a, b) != 0.0 && Quotient(Div(a, b), Div(a, b)) == Finite(1.0)
  {
    assert Div(a, b) * b == a;
    ItselfOnce(Div(a, b));
  }

  lemma ItselfOnce(x: real)
    requires x != 0.0
    ensures Quotient(x, x) == Finite(1.0)
  {
    assert Div(x, x) * x == x;
  }

  lemma MOfFinite(dsri: real, gmi: real, aqi: real, sgi: real, depi: real, sgai: real, tata: real, lvgi: real)
    ensures MOf(Indices(Finite(dsri), Finite(gmi), Finite(aqi), Finite(sgi), Finite(depi), Finite(sgai), Finite(tata),
                        Finite(lvgi)))
            == Finite(-4.84 + 0.92 * dsri + 0.528 * gmi + 0.404 * aqi + 0.892 * sgi + 0.115 * depi
                      - 0.172 * sgai + 4.679 * tata - 0.327 * lvgi)
  {
  }

  lemma KnownBeneishScore()
    ensures var t := BeneishFigures(2000.0, 600.0, 100.0, 300.0, 100.0, 200.0, 1000.0, 250.0, 100.0, 400.0, 100.0,
            100.0);
            var p := BeneishFigures(1000.0, 500.0, 250.0, 250.0, 0.0, 0.0, 800.0, 400.0, 40.0, 250.0, 250.0, 160.0);
            && BeneishOf(t, p).BeneishScore?
            && BeneishOf(t, p).indices == Indices(Finite(2.0), Finite(2.0), Finite(2.0), Finite(1.25), Finite(2.5),
                                                  Finite(0.5), Finite(0.05), Finite(0.4))
            && BeneishOf(t, p).m == Finite(0.28365) && BeneishOf(t, p).classification == LikelyManipulator
  {
    MOfFinite(2.0, 2.0, 2.0, 1.25, 2.5, 0.5, 0.05, 0.4);
  }

  // From a company's series to its scores.

  function AltmanFiguresOf(v: map<Key, AnnualValue>): AltmanFigures
    requires v.Keys == ALTMAN_KEYS
  {
    AltmanFigures(v[Assets].value, v[Liabilities].value, v[CurrentAssets].value, v[CurrentLiabilities].value,
                  v[RetainedEarnings].value, v[Ebit].value, v[Equity].value)
  }

  function PiotroskiFiguresOf(v: map<Key, AnnualValue>): PiotroskiFigures
    requires v.Keys == PIOTROSKI_KEYS
  {
    PiotroskiFigures(v[Assets].value, v[CurrentAssets].value, v[CurrentLiabilities].value, v[LongTermDebt].value,
                     v[Cfo].value, v[NetIncome].value, v[Shares].value, v[GrossProfit].value, v[Revenue].value)
  }

  function BeneishFiguresOf(v: map<Key, AnnualValue>): BeneishFigures
    requires v.Keys == BENEISH_KEYS
  {
    BeneishFigures(v[Assets].value, v[CurrentAssets].value, v[CurrentLiabilities].value, v[LongTermDebt].value,
                   v[Cfo].value, v[NetIncome].value, v[Revenue].value, v[GrossProfit].value, v[Receivables].value,
                   v[Ppe].value, v[Depreciation].value, v[Sga].value)
  }

  /** The outcome of a score, with the year it is for and what was derived for it. */
  datatype Outcome<S> = NoScore(missing: set<Key>) | Scored(year: int, derived: seq<Key>, score: S)

  ghost predicate Covers(s: Selection, keys: set<Key>, needPrior: bool) {
    s.Selected? ==> s.current.Keys == keys && (needPrior ==> s.prior.Keys == keys)
  }

  function AltmanFrom(s: Selection, derived: seq<Key>): Outcome<Altman>
    requires Covers(s, ALTMAN_KEYS, false)
  {
    match s
    case TooFewYears(missing) => NoScore(missing)
    case NoCommonYear => NoScore({})
    case Selected(year, current, _) => Scored(year, derived, AltmanOf(AltmanFiguresOf(current)))
  }

  function PiotroskiFrom(s: Selection, derived: seq<Key>): Outcome<Piotroski>
    requires Covers(s, PIOTROSKI_KEYS, true)
  {
    match s
    case TooFewYears(missing) => NoScore(missing)
    case NoCommonYear => NoScore({})
    case Selected(year, current, prior) =>
      Scored(year, derived, PiotroskiOf(PiotroskiFiguresOf(current), PiotroskiFiguresOf(prior)))
  }

  function BeneishFrom(s: Selection, derived: seq<Key>): Outcome<Beneish>
    requires Covers(s, BENEISH_KEYS, true)
  {
    match s
    case TooFewYears(missing) => NoScore(missing)
    case NoCommonYear => NoScore({})
    case Selected(year, current, prior) =>
      Scored(year, derived, BeneishOf(BeneishFiguresOf(current), BeneishFiguresOf(prior)))
  }

  // In the first two the skip is left out of the derivation, since it changes nothing (`SkippingIsHarmless`).

  function ComputeAltman(t: Table): Outcome<Altman>
    requires t.Keys == ALTMAN_KEYS
  {
    var (u, d) := DerivedAlways(t, Liabilities, t[Assets], t[Equity], Minus);
    AltmanOutcome(u, if d then [Liabilities] else [])
  }

  function AltmanOutcome(u: Table, derived: seq<Key>): Outcome<Altman>
    requires u.Keys == ALTMAN_KEYS
  {
    AltmanFrom(SelectYears(u, Assets, false), derived)
  }

  function ComputePiotroski(t: Table, cost: Series): Outcome<Piotroski>
    requires t.Keys == PIOTROSKI_KEYS
  {
    var (u, d) := DerivedAlways(t, GrossProfit, t[Revenue], cost, Minus);
    PiotroskiOutcome(u, if d then [GrossProfit] else [])
  }

  function PiotroskiOutcome(u: Table, derived: seq<Key>): Outcome<Piotroski>
    requires u.Keys == PIOTROSKI_KEYS
  {
    PiotroskiFrom(SelectYears(u, Assets, true), derived)
  }

  /** The series the M-Score works on once gross profit has been derived, and what was derived for it. */
  function AfterGrossProfit(t: Table, cost: Series): (r: (Table, seq<Key>))
    requires t.Keys == BENEISH_KEYS
    ensures r.0.Keys == BENEISH_KEYS
  {
    var (g, gd) := DerivedAlways(t, GrossProfit, t[Revenue], cost, Minus);
    (g, if gd then [GrossProfit] else [])
  }

  /** And then SG&A; `year` is the newest that any figure but SG&A has. */
  function BeneishInputs(t: Table, cost: Series, selling: Series, admin: Series, year: Option<int>)
    : (r: (Table, seq<Key>))
    requires t.Keys == BENEISH_KEYS
    ensures r.0.Keys == BENEISH_KEYS
  {
    var (g, d) := AfterGrossProfit(t, cost);
    var (u, sd) := DerivedWithSkip(g, Sga, selling, admin, Plus, year);
    (u, d + if sd then [Sga] else [])
  }

  function ComputeBeneish(t: Table, cost: Series, selling: Series, admin: Series, year: Option<int>): Outcome<Beneish>
    requires t.Keys == BENEISH_KEYS && NewestElsewhere(t, Sga, year)
  {
    var (u, derived) := BeneishInputs(t, cost, selling, admin, year);
    BeneishOutcome(u, derived)
  }

  function BeneishOutcome(u: Table, derived: seq<Key>): Outcome<Beneish>
    requires u.Keys == BENEISH_KEYS
  {
    BeneishFrom(SelectYears(u, Assets, true), derived)
  }

  // Counting the dollars in another unit.

  ghost predicate AddsUp(f: real -> real, op: Operation, x: real, y: real) {
    Apply(op, f(x), f(y)) == f(Apply(op, x, y))
  }

  ghost predicate SameRatio(f: real -> real, x: real, y: real) {
    (f(y) == 0.0 <==> y == 0.0) && (y != 0.0 ==> Div(f(x), f(y)) == Div(x, y))
  }

  ghost predicate SameOrder(f: real -> real, x: real, y: real) {
    (f(x) > f(y) <==> x > y) && (f(x) > 0.0 <==> x > 0.0)
  }

  /** A change of unit: additive, and leaving zero, the order and every ratio alone. */
  ghost predicate UnitChange(f: real -> real) {
    && (forall op, x, y :: AddsUp(f, op, x, y))
    && (forall x, y :: SameRatio(f, x, y))
    && (forall x, y :: SameOrder(f, x, y))
  }

  function Times(k: real): real -> real {
    x => Product(k, x)
  }

  lemma Cancels(a: real, b: real, k: real)
    requires b != 0.0 && k != 0.0 && Product(k, b) != 0.0
    ensures Div(Product(k, a), Product(k, b)) == Div(a, b)
  {
    var q := Div(a, b);
    assert q * b == a;
    assert q * (k * b) == k * a;
  }

  lemma RatioScales(a: real, b: real, k: real)
    requires k > 0.0
    ensures SameRatio(Times(k), a, b)
  {
    SignOfProduct(k, b);
    if b != 0.0 {
      Cancels(a, b, k);
    }
  }

  lemma OrderScales(a: real, b: real, k: real)
    requires k > 0.0
    ensures SameOrder(Times(k), a, b)
  {
    SignOfProduct(k, a - b);
    ProductOfDifference(k, a, b);
    SignOfProduct(k, a);
  }

  lemma SumScales(op: Operation, a: real, b: real, k: real)
    ensures AddsUp(Times(k), op, a, b)
  {
  }

  /** Multiplying by a positive factor is a change of unit. */
  lemma TimesIsUnitChange(k: real)
    requires k > 0.0
    ensures UnitChange(Times(k))
  {
    forall op, x, y
      ensures AddsUp(Times(k), op, x, y)
    {
      SumScales(op, x, y, k);
    }
    forall x, y
      ensures SameRatio(Times(k), x, y)
    {
      RatioScales(x, y, k);
    }
    forall x, y
      ensures SameOrder(Times(k), x, y)
    {
      OrderScales(x, y, k);
    }
  }

  function ScaleSeries(s: Series, f: real -> real): Series {
    seq(|s|, i requires 0 <= i < |s| => AnnualValue(s[i].fiscalYear, f(s[i].value)))
  }

  /** Every dollar figure in the new unit; shares are not dollars. */
  function ScaleTable(t: Table, f: real -> real): Table {
    map key | key in t :: if key == Shares then t[key] else ScaleSeries(t[key], f)
  }

  lemma {:induction false} ScaledYears(s: Series, f: real -> real)
    ensures NewestYear(ScaleSeries(s, f)) == NewestYear(s)
  {
    if s != [] {
      ScaledYears(s[1..], f);
      assert ScaleSeries(s, f)[1..] == ScaleSeries(s[1..], f);
    }
  }

  lemma {:induction false} ScaledValueFor(s: Series, f: real -> real, year: int)
    ensures ValueFor(ScaleSeries(s, f), year)
            == if ValueFor(s, year).Some? then Some(f(ValueFor(s, year).value)) else None
    decreases |s|
  {
    if s != [] {
      var n := |s| - 1;
      assert ScaleSeries(s, f)[..n] == ScaleSeries(s[..n], f);
      ScaledValueFor(s[..n], f, year);
    }
  }

  lemma {:induction false} ScaledCombine(a: Series, b: Series, op: Operation, f: real -> real)
    requires UnitChange(f)
    ensures CombineByYear(ScaleSeries(a, f), ScaleSeries(b, f), op) == ScaleSeries(CombineByYear(a, b, op), f)
  {
    if a != [] {
      var u, w := ScaleSeries(a, f), ScaleSeries(b, f);
      var rest := CombineByYear(a[1..], b, op);
      ScaledCombine(a[1..], b, op, f);
      assert u[1..] == ScaleSeries(a[1..], f);
      ScaledValueFor(b, f, a[0].fiscalYear);
      if ValueFor(b, a[0].fiscalYear).Some? {
        var y := ValueFor(b, a[0].fiscalYear).value;
        var one := AnnualValue(a[0].fiscalYear, Apply(op, a[0].value, y));
        assert AddsUp(f, op, a[0].value, y);
        assert CombineByYear(a, b, op) == [one] + rest;
        assert CombineByYear(u, w, op) == [AnnualValue(a[0].fiscalYear, f(one.value))] + ScaleSeries(rest, f);
      }
    }
  }

  lemma ScaledReported(t: Table, key: Key, f: real -> real)
    requires key != Shares
    ensures Reported(ScaleTable(t, f), key) == ScaleSeries(Reported(t, key), f)
    ensures NewestYear(Reported(ScaleTable(t, f), key)) == NewestYear(Reported(t, key))
  {
    ScaledYears(Reported(t, key), f);
  }

  lemma ScaledUpdate(t: Table, key: Key, s: Series, f: real -> real)
    requires key != Shares
    ensures ScaleTable(t, f)[key := ScaleSeries(s, f)] == ScaleTable(t[key := s], f)
  {
  }

  lemma ScaledDerivation(t: Table, key: Key, a: Series, b: Series, op: Operation, f: real -> real)
    requires key != Shares && UnitChange(f)
    ensures DerivedAlways(ScaleTable(t, f), key, ScaleSeries(a, f), ScaleSeries(b, f), op)
            == (ScaleTable(DerivedAlways(t, key, a, b, op).0, f), DerivedAlways(t, key, a, b, op).1)
  {
    ScaledCombine(a, b, op, f);
    ScaledYears(CombineByYear(a, b, op), f);
    ScaledReported(t, key, f);
    ScaledUpdate(t, key, CombineByYear(a, b, op), f);
  }

  lemma ScaledEverywhere(t: Table, f: real -> real, year: int)
    ensures HasEverywhere(ScaleTable(t, f), year) <==> HasEverywhere(t, year)
  {
    forall key | key in t
      ensures HasYear(ScaleTable(t, f)[key], year) <==> HasYear(t[key], year)
    {
      SameYearsThere(t[key], ScaleTable(t, f)[key], year);
    }
  }

  lemma SameYearsThere(s: Series, u: Series, year: int)
    requires |s| == |u| && forall i :: 0 <= i < |s| ==> s[i].fiscalYear == u[i].fiscalYear
    ensures HasYear(s, year) <==> HasYear(u, year)
  {
    if HasYear(s, year) {
      var i :| 0 <= i < |s| && s[i].fiscalYear == year;
      assert u[i].fiscalYear == year;
    }
    if HasYear(u, year) {
      var i :| 0 <= i < |u| && u[i].fiscalYear == year;
      assert s[i].fiscalYear == year;
    }
  }

  lemma {:induction false} ScaledNewestUsable(t: Table, f: real -> real, needPrior: bool, s: Series)
    ensures NewestUsable(ScaleTable(t, f), needPrior, ScaleSeries(s, f)) == NewestUsable(t, needPrior, s)
  {
    if s != [] {
      ScaledNewestUsable(t, f, needPrior, s[1..]);
      assert ScaleSeries(s, f)[1..] == ScaleSeries(s[1..], f);
      ScaledEverywhere(t, f, s[0].fiscalYear);
      ScaledEverywhere(t, f, s[0].fiscalYear - 1);
    }
  }

  lemma {:induction false} ScaledAtYear(s: Series, f: real -> real, year: int)
    requires HasYear(s, year) && HasYear(ScaleSeries(s, f), year)
    ensures At(ScaleSeries(s, f), year) == AnnualValue(year, f(At(s, year).value))
  {
    if s[0].fiscalYear != year {
      var i :| 0 <= i < |s| && s[i].fiscalYear == year;
      assert s[1..][i - 1] == s[i];
      assert ScaleSeries(s, f)[1..] == ScaleSeries(s[1..], f);
      SameYearsThere(s[1..], ScaleSeries(s[1..], f), year);
      ScaledAtYear(s[1..], f, year);
    }
  }

  function ScaleFigures(v: map<Key, AnnualValue>, f: real -> real): map<Key, AnnualValue> {
    map key | key in v :: if key == Shares then v[key] else AnnualValue(v[key].fiscalYear, f(v[key].value))
  }

  function ScaleSelection(s: Selection, f: real -> real): Selection {
    if s.Selected? then Selected(s.year, ScaleFigures(s.current, f), ScaleFigures(s.prior, f)) else s
  }

  lemma ScaledFigures(t: Table, f: real -> real, year: int)
    requires HasEverywhere(t, year) && HasEverywhere(ScaleTable(t, f), year)
    ensures Figures(ScaleTable(t, f), year) == ScaleFigures(Figures(t, year), f)
  {
    forall key | key in t
      ensures Figures(ScaleTable(t, f), year)[key] == ScaleFigures(Figures(t, year), f)[key]
    {
      assert HasYear(t[key], year) && HasYear(ScaleTable(t, f)[key], year);
      if key != Shares {
        ScaledAtYear(t[key], f, year);
      }
    }
  }

  lemma ScaledTooShort(t: Table, f: real -> real, needPrior: bool)
    ensures TooShort(ScaleTable(t, f), needPrior) == TooShort(t, needPrior)
  {
  }

  lemma ScaledPriorFigures(t: Table, f: real -> real, needPrior: bool, year: int)
    requires Usable(t, needPrior, year) && Usable(ScaleTable(t, f), needPrior, year)
    ensures PriorFigures(ScaleTable(t, f), needPrior, year) == ScaleFigures(PriorFigures(t, needPrior, year), f)
  {
    if needPrior {
      ScaledFigures(t, f, year - 1);
    }
  }

  lemma ScaledSelectionAt(t: Table, f: real -> real, needPrior: bool, year: Option<int>)
    requires year.Some? ==> Usable(t, needPrior, year.value) && Usable(ScaleTable(t, f), needPrior, year.value)
    ensures SelectionAt(ScaleTable(t, f), needPrior, year) == ScaleSelection(SelectionAt(t, needPrior, year), f)
  {
    if year.Some? {
      ScaledFigures(t, f, year.value);
      ScaledPriorFigures(t, f, needPrior, year.value);
    }
  }

  lemma ScaledSelection(t: Table, first: Key, needPrior: bool, f: real -> real)
    requires first in t && first != Shares
    ensures SelectYears(ScaleTable(t, f), first, needPrior) == ScaleSelection(SelectYears(t, first, needPrior), f)
  {
    var u, year := ScaleTable(t, f), NewestUsable(t, needPrior, t[first]);
    ScaledTooShort(t, f, needPrior);
    ScaledNewestUsable(t, f, needPrior, t[first]);
    assert first in u && u[first] == ScaleSeries(t[first], f);
    assert NewestUsable(u, needPrior, u[first]) == year;
    if TooShort(t, needPrior) == {} {
      ScaledSelectionAt(t, f, needPrior, year);
      assert SelectYears(u, first, needPrior) == SelectionAt(u, needPrior, year);
    }
  }

  function ScaleAltman(v: AltmanFigures, f: real -> real): AltmanFigures {
    AltmanFigures(f(v.assets), f(v.liabilities), f(v.currentAssets), f(v.currentLiabilities),
                  f(v.retainedEarnings), f(v.ebit), f(v.equity))
  }

  lemma AltmanScales(v: AltmanFigures, f: real -> real)
    requires UnitChange(f)
    ensures AltmanOf(ScaleAltman(v, f)) == AltmanOf(v)
  {
    assert AddsUp(f, Minus, v.currentAssets, v.currentLiabilities);
    assert SameRatio(f, v.currentAssets - v.currentLiabilities, v.assets);
    assert SameRatio(f, v.retainedEarnings, v.assets);
    assert SameRatio(f, v.ebit, v.assets);
    assert SameRatio(f, v.equity, v.liabilities);
  }

  function ScalePiotroski(v: PiotroskiFigures, f: real -> real): PiotroskiFigures {
    PiotroskiFigures(f(v.assets), f(v.currentAssets), f(v.currentLiabilities), f(v.longTermDebt), f(v.cfo),
                     f(v.netIncome), v.shares, f(v.grossProfit), f(v.revenue))
  }

  lemma QuotientScales(a: real, b: real, f: real -> real)
    requires UnitChange(f)
    ensures Quotient(f(a), f(b)) == Quotient(a, b)
  {
    assert SameRatio(f, a, b);
    assert SameOrder(f, a, a);
    assert SameRatio(f, a, a);
  }

  lemma PiotroskiRatiosScale(v: PiotroskiFigures, f: real -> real)
    requires UnitChange(f) && v.assets != 0.0 && v.revenue != 0.0
    ensures var s := ScalePiotroski(v, f);
            && s.assets != 0.0 && s.revenue != 0.0
            && Div(s.netIncome, s.assets) == Div(v.netIncome, v.assets)
            && Div(s.longTermDebt, s.assets) == Div(v.longTermDebt, v.assets)
            && Quotient(s.currentAssets, s.currentLiabilities) == Quotient(v.currentAssets, v.currentLiabilities)
            && Div(s.grossProfit, s.revenue) == Div(v.grossProfit, v.revenue)
            && Div(s.revenue, s.assets) == Div(v.revenue, v.assets)
  {
    assert SameRatio(f, v.netIncome, v.assets);
    assert SameRatio(f, v.longTermDebt, v.assets);
    QuotientScales(v.currentAssets, v.currentLiabilities, f);
    assert SameRatio(f, v.grossProfit, v.revenue);
    assert SameRatio(f, v.revenue, v.assets);
  }

  lemma PiotroskiScales(t: PiotroskiFigures, p: PiotroskiFigures, f: real -> real)
    requires UnitChange(f)
    ensures PiotroskiOf(ScalePiotroski(t, f), ScalePiotroski(p, f)) == PiotroskiOf(t, p)
  {
    assert SameOrder(f, t.cfo, t.netIncome);
    assert SameRatio(f, 0.0, t.assets) && SameRatio(f, 0.0, p.assets);
    assert SameRatio(f, 0.0, t.revenue) && SameRatio(f, 0.0, p.revenue);
    if PiotroskiOf(t, p).PiotroskiScore? {
      PiotroskiRatiosScale(t, f);
      PiotroskiRatiosScale(p, f);
    }
  }

  function ScaleBeneish(v: BeneishFigures, f: real -> real): BeneishFigures {
    BeneishFigures(f(v.assets), f(v.currentAssets), f(v.currentLiabilities), f(v.longTermDebt), f(v.cfo),
                   f(v.netIncome), f(v.revenue), f(v.grossProfit), f(v.receivables), f(v.ppe), f(v.depreciation),
                   f(v.sga))
  }

  lemma BeneishTestsScale(v: BeneishFigures, f: real -> real)
    requires UnitChange(f)
    ensures BeneishTestsPass(ScaleBeneish(v, f)) <==> BeneishTestsPass(v)
  {
    assert AddsUp(f, Plus, v.depreciation, v.ppe);
    assert SameRatio(f, 0.0, v.revenue) && SameRatio(f, 0.0, v.assets) && SameRatio(f, 0.0, v.depreciation + v.ppe);
  }

  /** Every ratio the M-Score takes within one year. */
  lemma BeneishRatiosScale(v: BeneishFigures, f: real -> real)
    requires UnitChange(f) && BeneishTestsPass(v) && BeneishTestsPass(ScaleBeneish(v, f))
    ensures var s := ScaleBeneish(v, f);
            && Div(s.receivables, s.revenue) == Div(v.receivables, v.revenue)
            && Div(s.grossProfit, s.revenue) == Div(v.grossProfit, v.revenue)
            && Div(s.sga, s.revenue) == Div(v.sga, v.revenue)
            && AssetQuality(s) == AssetQuality(v) && DepreciationRate(s) == DepreciationRate(v)
            && Leverage(s) == Leverage(v)
            && Div(s.netIncome - s.cfo, s.assets) == Div(v.netIncome - v.cfo, v.assets)
  {
    assert AddsUp(f, Plus, v.depreciation, v.ppe) && SameRatio(f, v.depreciation, v.depreciation + v.ppe);
    assert AddsUp(f, Plus, v.currentAssets, v.ppe) && SameRatio(f, v.currentAssets + v.ppe, v.assets);
    assert AddsUp(f, Plus, v.longTermDebt, v.currentLiabilities)
           && SameRatio(f, v.longTermDebt + v.currentLiabilities, v.assets);
    assert AddsUp(f, Minus, v.netIncome, v.cfo) && SameRatio(f, v.netIncome - v.cfo, v.assets);
    assert SameRatio(f, v.receivables, v.revenue);
    assert SameRatio(f, v.grossProfit, v.revenue);
    assert SameRatio(f, v.sga, v.revenue);
  }

  lemma BeneishScales(t: BeneishFigures, p: BeneishFigures, f: real -> real)
    requires UnitChange(f)
    ensures BeneishOf(ScaleBeneish(t, f), ScaleBeneish(p, f)) == BeneishOf(t, p)
  {
    BeneishTestsScale(t, f);
    BeneishTestsScale(p, f);
    if BeneishTestsPass(t) && BeneishTestsPass(p) {
      BeneishRatiosScale(t, f);
      BeneishRatiosScale(p, f);
      QuotientScales(t.revenue, p.revenue, f);
      assert IndicesOf(ScaleBeneish(t, f), ScaleBeneish(p, f)) == IndicesOf(t, p);
    }
  }

  /**
   * The outcome of each score - whether there is one, its year, what was derived, its value and class - ignores
   * the unit.
   */
  lemma AltmanIgnoresUnit(t: Table, k: real)
    requires k > 0.0 && t.Keys == ALTMAN_KEYS
    ensures ComputeAltman(ScaleTable(t, Times(k))) == ComputeAltman(t)
  {
    var f := Times(k);
    TimesIsUnitChange(k);
    AltmanIn(t, f);
  }

  lemma AltmanIn(t: Table, f: real -> real)
    requires UnitChange(f) && t.Keys == ALTMAN_KEYS
    ensures ComputeAltman(ScaleTable(t, f)) == ComputeAltman(t)
  {
    var (u, d) := DerivedAlways(t, Liabilities, t[Assets], t[Equity], Minus);
    ScaledDerivation(t, Liabilities, t[Assets], t[Equity], Minus, f);
    ScaledSelection(u, Assets, false, f);
    AltmanFromScales(SelectYears(u, Assets, false), if d then [Liabilities] else [], f);
  }

  lemma AltmanFromScales(s: Selection, derived: seq<Key>, f: real -> real)
    requires UnitChange(f) && Covers(s, ALTMAN_KEYS, false)
    ensures Covers(ScaleSelection(s, f), ALTMAN_KEYS, false)
    ensures AltmanFrom(ScaleSelection(s, f), derived) == AltmanFrom(s, derived)
  {
    if s.Selected? {
      AltmanScales(AltmanFiguresOf(s.current), f);
      assert AltmanFiguresOf(ScaleFigures(s.current, f)) == ScaleAltman(AltmanFiguresOf(s.current), f);
    }
  }

  lemma PiotroskiIgnoresUnit(t: Table, cost: Series, k: real)
    requires k > 0.0 && t.Keys == PIOTROSKI_KEYS
    ensures ComputePiotroski(ScaleTable(t, Times(k)), ScaleSeries(cost, Times(k))) == ComputePiotroski(t, cost)
  {
    TimesIsUnitChange(k);
    PiotroskiIn(t, cost, Times(k));
  }

  lemma PiotroskiIn(t: Table, cost: Series, f: real -> real)
    requires UnitChange(f) && t.Keys == PIOTROSKI_KEYS
    ensures ComputePiotroski(ScaleTable(t, f), ScaleSeries(cost, f)) == ComputePiotroski(t, cost)
  {
    var (u, d) := DerivedAlways(t, GrossProfit, t[Revenue], cost, Minus);
    ScaledDerivation(t, GrossProfit, t[Revenue], cost, Minus, f);
    assert ScaleTable(t, f)[Revenue] == ScaleSeries(t[Revenue], f);
    PiotroskiOutcomeScales(u, if d then [GrossProfit] else [], f);
  }

  lemma PiotroskiOutcomeScales(u: Table, derived: seq<Key>, f: real -> real)
    requires UnitChange(f) && u.Keys == PIOTROSKI_KEYS
    ensures PiotroskiOutcome(ScaleTable(u, f), derived) == PiotroskiOutcome(u, derived)
  {
    ScaledSelection(u, Assets, true, f);
    PiotroskiFromScales(SelectYears(u, Assets, true), derived, f);
  }

  lemma PiotroskiFiguresScale(v: map<Key, AnnualValue>, f: real -> real)
    requires v.Keys == PIOTROSKI_KEYS
    ensures ScaleFigures(v, f).Keys == PIOTROSKI_KEYS
    ensures PiotroskiFiguresOf(ScaleFigures(v, f)) == ScalePiotroski(PiotroskiFiguresOf(v), f)
  {
    assert forall key :: key in PIOTROSKI_KEYS ==> key in v;
  }

  lemma PiotroskiFromScales(s: Selection, derived: seq<Key>, f: real -> real)
    requires UnitChange(f) && Covers(s, PIOTROSKI_KEYS, true)
    ensures Covers(ScaleSelection(s, f), PIOTROSKI_KEYS, true)
    ensures PiotroskiFrom(ScaleSelection(s, f), derived) == PiotroskiFrom(s, derived)
  {
    if s.Selected? {
      PiotroskiScales(PiotroskiFiguresOf(s.current), PiotroskiFiguresOf(s.prior), f);
      PiotroskiFiguresScale(s.current, f);
      PiotroskiFiguresScale(s.prior, f);
    }
  }

  lemma ScaledNewestElsewhere(t: Table, key: Key, year: Option<int>, f: real -> real)
    requires NewestElsewhere(t, key, year)
    ensures NewestElsewhere(ScaleTable(t, f), key, year)
  {
    var u := ScaleTable(t, f);
    forall k | k in t
      ensures NewestYear(u[k]) == NewestYear(t[k])
    {
      ScaledYears(t[k], f);
    }
    if year.Some? {
      var k :| k in t && k != key && NewestYear(t[k]) == year;
      assert k in u && NewestYear(u[k]) == year;
    }
  }

  lemma BeneishIgnoresUnit(t: Table, cost: Series, selling: Series, admin: Series, year: Option<int>, k: real)
    requires k > 0.0 && t.Keys == BENEISH_KEYS && NewestElsewhere(t, Sga, year)
    ensures var f := Times(k);
            && NewestElsewhere(ScaleTable(t, f), Sga, year)
            && ComputeBeneish(ScaleTable(t, f), ScaleSeries(cost, f), ScaleSeries(selling, f), ScaleSeries(admin, f),
                              year)
               == ComputeBeneish(t, cost, selling, admin, year)
  {
    TimesIsUnitChange(k);
    ScaledNewestElsewhere(t, Sga, year, Times(k));
    BeneishIn(t, cost, selling, admin, year, Times(k));
  }

  lemma BeneishInputsScale(t: Table, cost: Series, selling: Series, admin: Series, year: Option<int>, f: real -> real)
    requires UnitChange(f) && t.Keys == BENEISH_KEYS
    ensures BeneishInputs(ScaleTable(t, f), ScaleSeries(cost, f), ScaleSeries(selling, f), ScaleSeries(admin, f), year)
            == (ScaleTable(BeneishInputs(t, cost, selling, admin, year).0, f),
                BeneishInputs(t, cost, selling, admin, year).1)
  {
    var g := DerivedAlways(t, GrossProfit, t[Revenue], cost, Minus).0;
    ScaledDerivation(t, GrossProfit, t[Revenue], cost, Minus, f);
    assert ScaleTable(t, f)[Revenue] == ScaleSeries(t[Revenue], f);
    ScaledWithSkip(g, Sga, selling, admin, Plus, year, f);
  }

  lemma ScaledWithSkip(t: Table, key: Key, a: Series, b: Series, op: Operation, year: Option<int>, f: real -> real)
    requires key != Shares && UnitChange(f)
    ensures DerivedWithSkip(ScaleTable(t, f), key, ScaleSeries(a, f), ScaleSeries(b, f), op, year)
            == (ScaleTable(DerivedWithSkip(t, key, a, b, op, year).0, f), DerivedWithSkip(t, key, a, b, op, year).1)
  {
    ScaledDerivation(t, key, a, b, op, f);
    ScaledReported(t, key, f);
  }

  lemma BeneishIn(t: Table, cost: Series, selling: Series, admin: Series, year: Option<int>, f: real -> real)
    requires UnitChange(f) && t.Keys == BENEISH_KEYS && NewestElsewhere(t, Sga, year)
    requires NewestElsewhere(ScaleTable(t, f), Sga, year)
    ensures ComputeBeneish(ScaleTable(t, f), ScaleSeries(cost, f), ScaleSeries(selling, f), ScaleSeries(admin, f), year)
            == ComputeBeneish(t, cost, selling, admin, year)
  {
    var (u, derived) := BeneishInputs(t, cost, selling, admin, year);
    BeneishInputsScale(t, cost, selling, admin, year, f);
    BeneishOutcomeScales(u, derived, f);
  }

  lemma BeneishOutcomeScales(u: Table, derived: seq<Key>, f: real -> real)
    requires UnitChange(f) && u.Keys == BENEISH_KEYS
    ensures BeneishOutcome(ScaleTable(u, f), derived) == BeneishOutcome(u, derived)
  {
    ScaledSelection(u, Assets, true, f);
    BeneishFromScales(SelectYears(u, Assets, true), derived, f);
  }

  lemma BeneishFiguresScale(v: map<Key, AnnualValue>, f: real -> real)
    requires v.Keys == BENEISH_KEYS
    ensures ScaleFigures(v, f).Keys == BENEISH_KEYS
    ensures BeneishFiguresOf(ScaleFigures(v, f)) == ScaleBeneish(BeneishFiguresOf(v), f)
  {
    assert forall key :: key in BENEISH_KEYS ==> key in v;
  }

  lemma BeneishFromScales(s: Selection, derived: seq<Key>, f: real -> real)
    requires UnitChange(f) && Covers(s, BENEISH_KEYS, true)
    ensures Covers(ScaleSelection(s, f), BENEISH_KEYS, true)
    ensures BeneishFrom(ScaleSelection(s, f), derived) == BeneishFrom(s, derived)
  {
    if s.Selected? {
      BeneishScales(BeneishFiguresOf(s.current), BeneishFiguresOf(s.prior), f);
      BeneishFiguresScale(s.current, f);
      BeneishFiguresScale(s.prior, f);
    }
  }
}
