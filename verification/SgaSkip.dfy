/** When the M-Score suffers from not reading the parts of SG&A: the skip is no equivalence there. */
module SgaSkip {
  import opened Common
  import opened Scoring
  import opened Scores

  /** The M-Score if the parts of SG&A were always read. */
  function ComputeBeneishAlways(t: Table, cost: Series, selling: Series, admin: Series): Outcome<Beneish>
    requires t.Keys == BENEISH_KEYS
  {
    var (g, d) := AfterGrossProfit(t, cost);
    var (u, sd) := DerivedAlways(g, Sga, selling, admin, Plus);
    BeneishOutcome(u, d + if sd then [Sga] else [])
  }

  /** The series has the year and the one before. */
  predicate HasPair(s: Series, year: int) {
    HasYear(s, year) && HasYear(s, year - 1)
  }

  /** Every figure but one has both years. */
  predicate PairElsewhere(t: Table, key: Key, year: int) {
    forall k :: k in t && k != key ==> HasPair(t[k], year)
  }

  /** Both years are in every other figure and in both parts. */
  predicate PairInParts(t: Table, key: Key, a: Series, b: Series, year: int) {
    PairElsewhere(t, key, year) && HasPair(a, year) && HasPair(b, year)
  }

  /** Both years are in every figure as reported. */
  predicate PairReported(t: Table, key: Key, year: int) {
    PairElsewhere(t, key, year) && HasPair(Reported(t, key), year)
  }

  lemma UsableSplits(t: Table, key: Key, year: int)
    requires key in t
    ensures Usable(t, true, year) <==> PairReported(t, key, year)
  {
    if Usable(t, true, year) {
      forall k | k in t
        ensures HasPair(t[k], year)
      {
        assert HasYear(t[k], year) && HasYear(t[k], year - 1);
      }
    }
    if PairReported(t, key, year) {
      forall k | k in t
        ensures HasYear(t[k], year) && HasYear(t[k], year - 1)
      {
        assert HasPair(t[k], year);
      }
    }
  }

  lemma UsableInParts(t: Table, key: Key, a: Series, b: Series, op: Operation, year: int)
    requires key in t
    ensures Usable(t[key := CombineByYear(a, b, op)], true, year) <==> PairInParts(t, key, a, b, year)
  {
    var u := t[key := CombineByYear(a, b, op)];
    UsableSplits(u, key, year);
    CombinedYears(a, b, op, year);
    CombinedYears(a, b, op, year - 1);
    assert PairElsewhere(u, key, year) <==> PairElsewhere(t, key, year) by {
      assert forall k :: k in t && k != key ==> u[k] == t[k];
    }
  }

  /** One selection has a year and the other none, or an older one. */
  predicate Newer(x: Selection, y: Selection) {
    x.Selected? && (y.Selected? ==> y.year < x.year)
  }

  /** Some year qualifies and is newer than every year that the other test admits. */
  ghost predicate NewestIsBeyond(p: int -> bool, q: int -> bool) {
    exists y :: p(y) && forall z :: q(z) ==> z < y
  }

  lemma NewerSelection(u: Table, t: Table, first: Key, p: int -> bool, q: int -> bool)
    requires first in u && first in t
    requires forall y :: Usable(u, true, y) <==> p(y)
    requires forall y :: Usable(t, true, y) <==> q(y)
    ensures Newer(SelectYears(u, first, true), SelectYears(t, first, true)) <==> NewestIsBeyond(p, q)
  {
    var x, r := SelectYears(u, first, true), SelectYears(t, first, true);
    SelectYearsMeans(u, first, true);
    SelectYearsMeans(t, first, true);
    if Newer(x, r) {
      assert Usable(u, true, x.year) && p(x.year);
      forall z | q(z)
        ensures z < x.year
      {
        assert Usable(t, true, z);
      }
    }
    if NewestIsBeyond(p, q) {
      var y :| p(y) && forall z :: q(z) ==> z < y;
      assert Usable(u, true, y);
      if r.Selected? {
        assert Usable(t, true, r.year);
      }
    }
  }

  /**
   * The skip costs a newer common year exactly when both parts have a year newer than the reported SG&A and, for
   * some year, that year and the one before are in every other figure and in both parts, while no such pair with
   * the reported SG&A is as new.
   */
  lemma SkipCostsYearIff(g: Table, selling: Series, admin: Series, year: Option<int>)
    requires g.Keys == BENEISH_KEYS
    ensures var always := SelectYears(DerivedAlways(g, Sga, selling, admin, Plus).0, Assets, true);
            var skipping := SelectYears(DerivedWithSkip(g, Sga, selling, admin, Plus, year).0, Assets, true);
            Newer(always, skipping)
            <==> SkipLoses(g, Sga, selling, admin, year)
                 && NewestIsBeyond(y => PairInParts(g, Sga, selling, admin, y), z => PairReported(g, Sga, z))
  {
    SkippingLosesIff(g, Sga, selling, admin, Plus, year);
    if SkipLoses(g, Sga, selling, admin, year) {
      var c := CombineByYear(selling, admin, Plus);
      forall y
        ensures Usable(g[Sga := c], true, y) <==> PairInParts(g, Sga, selling, admin, y)
        ensures Usable(g, true, y) <==> PairReported(g, Sga, y)
      {
        UsableInParts(g, Sga, selling, admin, Plus, y);
        UsableSplits(g, Sga, y);
      }
      NewerSelection(g[Sga := c], g, Assets, y => PairInParts(g, Sga, selling, admin, y), z => PairReported(g, Sga, z));
    }
  }

  /** One outcome is a score and the other none, or one for an older year. */
  predicate NewerScore<S>(x: Outcome<S>, y: Outcome<S>) {
    x.Scored? && (y.Scored? ==> y.year < x.year)
  }

  lemma OutcomeFollowsSelection(u: Table, derived: seq<Key>)
    requires u.Keys == BENEISH_KEYS
    ensures var r, s := BeneishOutcome(u, derived), SelectYears(u, Assets, true);
            && (r.Scored? <==> s.Selected?) && (s.Selected? ==> r.year == s.year && r.derived == derived)
            && (!s.Selected? ==> r == NoScore(TooShort(u, true)))
  {
    SelectYearsMeans(u, Assets, true);
  }

  /** How two outcomes compare, from what was selected. */
  lemma OutcomesCompare(u: Table, du: seq<Key>, v: Table, dv: seq<Key>)
    requires u.Keys == BENEISH_KEYS && v.Keys == BENEISH_KEYS
    ensures var x, y := SelectYears(u, Assets, true), SelectYears(v, Assets, true);
            && (NewerScore(BeneishOutcome(u, du), BeneishOutcome(v, dv)) <==> Newer(x, y))
            && (du != dv ==>
                  (BeneishOutcome(u, du) != BeneishOutcome(v, dv)
                   <==> x.Selected? || y.Selected? || TooShort(u, true) != TooShort(v, true)))
  {
    OutcomeFollowsSelection(u, du);
    OutcomeFollowsSelection(v, dv);
  }

  lemma KeysStay(g: Table, key: Key, a: Series, b: Series, op: Operation, year: Option<int>)
    requires key in g
    ensures DerivedAlways(g, key, a, b, op).0.Keys == g.Keys
    ensures DerivedWithSkip(g, key, a, b, op, year).0.Keys == g.Keys
  {
  }

  /** The series without the skip, and with it. */
  lemma OutcomesOf(t: Table, cost: Series, selling: Series, admin: Series, year: Option<int>)
    requires t.Keys == BENEISH_KEYS && NewestElsewhere(t, Sga, year)
    ensures var (g, d) := AfterGrossProfit(t, cost);
            var (u, ud) := DerivedAlways(g, Sga, selling, admin, Plus);
            var (v, vd) := DerivedWithSkip(g, Sga, selling, admin, Plus, year);
            && u.Keys == BENEISH_KEYS && v.Keys == BENEISH_KEYS
            && ComputeBeneishAlways(t, cost, selling, admin) == BeneishOutcome(u, d + if ud then [Sga] else [])
            && ComputeBeneish(t, cost, selling, admin, year) == BeneishOutcome(v, d + if vd then [Sga] else [])
  {
    var (g, d) := AfterGrossProfit(t, cost);
    KeysStay(g, Sga, selling, admin, Plus, year);
    var (v, vd) := DerivedWithSkip(g, Sga, selling, admin, Plus, year);
    assert BeneishInputs(t, cost, selling, admin, year) == (v, d + if vd then [Sga] else []);
  }

  /** The same of the M-Score itself, after gross profit has been derived. */
  lemma SkipCostsScoreIff(t: Table, cost: Series, selling: Series, admin: Series, year: Option<int>)
    requires t.Keys == BENEISH_KEYS && NewestElsewhere(t, Sga, year)
    ensures var g := AfterGrossProfit(t, cost).0;
            NewerScore(ComputeBeneishAlways(t, cost, selling, admin), ComputeBeneish(t, cost, selling, admin, year))
            <==> SkipLoses(g, Sga, selling, admin, year)
                 && NewestIsBeyond(y => PairInParts(g, Sga, selling, admin, y), z => PairReported(g, Sga, z))
  {
    var (g, d) := AfterGrossProfit(t, cost);
    var (u, ud) := DerivedAlways(g, Sga, selling, admin, Plus);
    var (v, vd) := DerivedWithSkip(g, Sga, selling, admin, Plus, year);
    OutcomesOf(t, cost, selling, admin, year);
    SkipCostsYearIff(g, selling, admin, year);
    OutcomesCompare(u, d + if ud then [Sga] else [], v, d + if vd then [Sga] else []);
  }

  ghost predicate SomeYear(p: int -> bool) {
    exists y :: p(y)
  }

  lemma SelectedIffSomeYear(u: Table, p: int -> bool)
    requires Assets in u && forall y :: Usable(u, true, y) <==> p(y)
    ensures SelectYears(u, Assets, true).Selected? <==> SomeYear(p)
  {
    SelectYearsMeans(u, Assets, true);
    var r := SelectYears(u, Assets, true);
    if r.Selected? {
      assert Usable(u, true, r.year) && p(r.year);
    }
  }

  lemma SelectedReported(g: Table)
    requires Assets in g && Sga in g
    ensures SelectYears(g, Assets, true).Selected? <==> SomeYear(y => PairReported(g, Sga, y))
  {
    forall y
      ensures Usable(g, true, y) <==> PairReported(g, Sga, y)
    {
      UsableSplits(g, Sga, y);
    }
    SelectedIffSomeYear(g, y => PairReported(g, Sga, y));
  }

  lemma SelectedFromParts(g: Table, selling: Series, admin: Series)
    requires Assets in g && Sga in g
    ensures var u := g[Sga := CombineByYear(selling, admin, Plus)];
            SelectYears(u, Assets, true).Selected? <==> SomeYear(y => PairInParts(g, Sga, selling, admin, y))
  {
    var u := g[Sga := CombineByYear(selling, admin, Plus)];
    forall y
      ensures Usable(u, true, y) <==> PairInParts(g, Sga, selling, admin, y)
    {
      UsableInParts(g, Sga, selling, admin, Plus, y);
    }
    SelectedIffSomeYear(u, y => PairInParts(g, Sga, selling, admin, y));
  }

  lemma SameShortness(g: Table, key: Key, c: Series)
    requires key in g
    ensures TooShort(g[key := c], true) == TooShort(g, true) <==> (|g[key]| < 2 <==> |c| < 2)
  {
    var u := g[key := c];
    assert key in TooShort(u, true) <==> |c| < 2;
    assert key in TooShort(g, true) <==> |g[key]| < 2;
    assert forall k :: k != key ==> (k in TooShort(u, true) <==> k in TooShort(g, true));
  }

  /**
   * And the skip changes the outcome at all exactly when it loses a derivation and there is a score with or without
   * it, or SG&A is one of the figures with too few years in one case and not in the other.
   */
  lemma SkipChangesOutcomeIff(t: Table, cost: Series, selling: Series, admin: Series, year: Option<int>)
    requires t.Keys == BENEISH_KEYS && NewestElsewhere(t, Sga, year)
    ensures var g := AfterGrossProfit(t, cost).0;
            ComputeBeneishAlways(t, cost, selling, admin) != ComputeBeneish(t, cost, selling, admin, year)
            <==> SkipLoses(g, Sga, selling, admin, year)
                 && (SomeYear(y => PairInParts(g, Sga, selling, admin, y)) || SomeYear(y => PairReported(g, Sga, y))
                     || !(|g[Sga]| < 2 <==> |CombineByYear(selling, admin, Plus)| < 2))
  {
    var (g, d) := AfterGrossProfit(t, cost);
    OutcomesOf(t, cost, selling, admin, year);
    SkippingLosesIff(g, Sga, selling, admin, Plus, year);
    if SkipLoses(g, Sga, selling, admin, year) {
      var u := g[Sga := CombineByYear(selling, admin, Plus)];
      assert DerivedAlways(g, Sga, selling, admin, Plus) == (u, true);
      SelectedReported(g);
      SelectedFromParts(g, selling, admin);
      SameShortness(g, Sga, CombineByYear(selling, admin, Plus));
      assert |d + [Sga]| != |d + []|;
      OutcomesCompare(u, d + [Sga], g, d + []);
    }
  }

  // A company that loses its score.

  function Repeated(years: seq<int>): Series {
    seq(|years|, i requires 0 <= i < |years| => AnnualValue(years[i], 1.0))
  }

  /** SG&A reported for the newest year alone, every other figure for two years, both parts for three. */
  ghost predicate IsExample(t: Table, parts: Series) {
    && t.Keys == BENEISH_KEYS && parts == Repeated([2024, 2023, 2022])
    && t[Sga] == Repeated([2023]) && forall k :: k in t && k != Sga ==> t[k] == Repeated([2023, 2022])
  }

  lemma ExampleExists() returns (t: Table, parts: Series)
    ensures IsExample(t, parts)
  {
    t := map k | k in BENEISH_KEYS :: if k == Sga then Repeated([2023]) else Repeated([2023, 2022]);
    parts := Repeated([2024, 2023, 2022]);
  }

  lemma YearsOfRepeated(years: seq<int>, y: int)
    ensures HasYear(Repeated(years), y) <==> y in years
  {
    if y in years {
      var i :| 0 <= i < |years| && years[i] == y;
      assert Repeated(years)[i].fiscalYear == y;
    }
  }

  lemma NewestRepeated(years: seq<int>)
    requires years != [] && forall i :: 0 <= i < |years| ==> years[i] <= years[0]
    ensures NewestYear(Repeated(years)) == Some(years[0])
  {
    var s := Repeated(years);
    NewestYearMeans(s);
    assert s[0].fiscalYear == years[0];
  }

  lemma NothingToSubtract(t: Table)
    requires t.Keys == BENEISH_KEYS
    ensures AfterGrossProfit(t, []) == (t, [])
  {
    var c := CombineByYear(t[Revenue], [], Minus);
    NewestYearMeans(c);
    if c != [] {
      var y := c[0].fiscalYear;
      assert HasYear(c, y);
      CombinedYears(t[Revenue], [], Minus, y);
    }
  }

  lemma ExampleYears(t: Table, parts: Series, y: int)
    requires IsExample(t, parts)
    ensures PairInParts(t, Sga, parts, parts, y) <==> y == 2023
  {
    YearsOfRepeated([2023, 2022], y);
    YearsOfRepeated([2023, 2022], y - 1);
    YearsOfRepeated([2024, 2023, 2022], y);
    YearsOfRepeated([2024, 2023, 2022], y - 1);
    assert Assets in t && t[Assets] == Repeated([2023, 2022]);
    assert PairElsewhere(t, Sga, y) ==> HasPair(t[Assets], y);
  }

  lemma ExampleIsSkipped(t: Table, parts: Series)
    requires IsExample(t, parts)
    ensures NewestElsewhere(t, Sga, Some(2023)) && SkipLoses(t, Sga, parts, parts, Some(2023))
    ensures TooShort(t, true) == {Sga}
  {
    NewestRepeated([2023, 2022]);
    NewestRepeated([2023]);
    assert Assets in t && NewestYear(t[Assets]) == Some(2023);
    YearsOfRepeated([2024, 2023, 2022], 2024);
    assert HasYear(parts, 2024) && Below(NewestYear(Reported(t, Sga)), Some(2024));
    assert forall k :: k in TooShort(t, true) <==> k == Sga;
  }

  lemma ExampleIsDerived(t: Table, parts: Series, u: Table)
    requires IsExample(t, parts) && u == t[Sga := CombineByYear(parts, parts, Plus)]
    ensures SelectYears(u, Assets, true).Selected? && SelectYears(u, Assets, true).year == 2023
  {
    forall y
      ensures Usable(u, true, y) <==> y == 2023
    {
      ExampleYears(t, parts, y);
      UsableInParts(t, Sga, parts, parts, Plus, y);
    }
    SelectYearsMeans(u, Assets, true);
    assert Usable(u, true, 2023);
  }

  lemma ExampleOutcome(t: Table, parts: Series, derived: seq<Key>)
    requires IsExample(t, parts)
    ensures BeneishOutcome(t, derived) == NoScore({Sga})
  {
    ExampleIsSkipped(t, parts);
    OutcomeFollowsSelection(t, derived);
    SelectYearsMeans(t, Assets, true);
  }

  lemma ExampleWithSkip(t: Table, parts: Series)
    requires IsExample(t, parts) && NewestElsewhere(t, Sga, Some(2023)) && SkipLoses(t, Sga, parts, parts, Some(2023))
    ensures ComputeBeneish(t, [], parts, parts, Some(2023)) == NoScore({Sga})
  {
    NothingToSubtract(t);
    OutcomesOf(t, [], parts, parts, Some(2023));
    assert DerivedWithSkip(t, Sga, parts, parts, Plus, Some(2023)) == (t, false);
    ExampleOutcome(t, parts, [] + []);
  }

  lemma ExampleWithoutSkip(t: Table, parts: Series)
    requires IsExample(t, parts) && NewestElsewhere(t, Sga, Some(2023)) && SkipLoses(t, Sga, parts, parts, Some(2023))
    ensures ComputeBeneishAlways(t, [], parts, parts).Scored? && ComputeBeneishAlways(t, [], parts, parts).year == 2023
  {
    var u := t[Sga := CombineByYear(parts, parts, Plus)];
    SkippingLosesIff(t, Sga, parts, parts, Plus, Some(2023));
    ExampleIsDerived(t, parts, u);
    AlwaysFollowsSelection(t, parts, u);
  }

  lemma AlwaysFollowsSelection(t: Table, parts: Series, u: Table)
    requires t.Keys == BENEISH_KEYS && DerivedAlways(t, Sga, parts, parts, Plus) == (u, true)
    ensures var r, s := ComputeBeneishAlways(t, [], parts, parts), SelectYears(u, Assets, true);
            (r.Scored? <==> s.Selected?) && (s.Selected? ==> r.year == s.year)
  {
    NothingToSubtract(t);
    KeysStay(t, Sga, parts, parts, Plus, None);
    assert ComputeBeneishAlways(t, [], parts, parts) == BeneishOutcome(u, [] + [Sga]);
    OutcomeFollowsSelection(u, [] + [Sga]);
  }

  /**
   * With the skip there is no score, for want of SG&A; reading the parts would have given one for 2023. The comment on
   * the rule says no derivation could give a newer common year.
   */
  lemma SkipCostsAScore(t: Table, parts: Series)
    requires IsExample(t, parts)
    ensures NewestElsewhere(t, Sga, Some(2023))
    ensures ComputeBeneish(t, [], parts, parts, Some(2023)) == NoScore({Sga})
    ensures ComputeBeneishAlways(t, [], parts, parts).Scored? && ComputeBeneishAlways(t, [], parts, parts).year == 2023
  {
    ExampleIsSkipped(t, parts);
    ExampleWithSkip(t, parts);
    ExampleWithoutSkip(t, parts);
  }
}
