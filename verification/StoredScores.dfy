/** From SEC's document through the fact table to a score: what is scored is what was chosen from the document. */
module StoredScores {
  import opened Common
  import opened Ingestion
  import Store = FactStore
  import Facts = AnnualFacts
  import opened Scoring
  import opened Scores
  import opened ScoreFormulas

  /** The stored concept a figure of the scores is read from. */
  function ConceptOf(k: Key): Store.Concept {
    match k
    case Assets => Store.TotalAssets
    case Liabilities => Store.TotalLiabilities
    case CurrentAssets => Store.CurrentAssets
    case CurrentLiabilities => Store.CurrentLiabilities
    case RetainedEarnings => Store.RetainedEarnings
    case Ebit => Store.OperatingIncome
    case Equity => Store.Equity
    case LongTermDebt => Store.NoncurrentDebt
    case Cfo => Store.CashFromOperations
    case NetIncome => Store.NetIncome
    case Shares => Store.SharesOutstanding
    case GrossProfit => Store.GrossEarnings
    case Revenue => Store.TotalRevenue
    case Receivables => Store.Receivables
    case Ppe => Store.PropertyAndEquipment
    case Depreciation => Store.DepreciationCharge
    case Sga => Store.SgaExpense
  }

  /** The tags each figure is read from. */
  lemma FiguresAreReadFrom(k: Key)
    ensures Store.UnitOf(ConceptOf(k)) == if k == Shares then "shares" else "USD"
    ensures match k
            case Assets => Store.TagsOf(ConceptOf(k)) == [Facts.Assets]
            case Liabilities => Store.TagsOf(ConceptOf(k)) == [Facts.Liabilities]
            case CurrentAssets => Store.TagsOf(ConceptOf(k)) == [Facts.AssetsCurrent]
            case CurrentLiabilities => Store.TagsOf(ConceptOf(k)) == [Facts.LiabilitiesCurrent]
            case RetainedEarnings => Store.TagsOf(ConceptOf(k)) == [Facts.RetainedEarningsAccumulatedDeficit]
            case Ebit => Store.TagsOf(ConceptOf(k)) == [Facts.OperatingIncomeLoss]
            case Equity => Store.TagsOf(ConceptOf(k))[0] == Facts.StockholdersEquity
            case LongTermDebt => Store.TagsOf(ConceptOf(k))[0] == Facts.LongTermDebtNoncurrent
            case Cfo => Store.TagsOf(ConceptOf(k))[0] == Facts.OperatingCashFlow
            case NetIncome => Store.TagsOf(ConceptOf(k)) == [Facts.NetIncomeLoss, Facts.ProfitLoss]
            case Shares => Store.TagsOf(ConceptOf(k))[0] == Facts.CommonStockSharesOutstanding
            case GrossProfit => Store.TagsOf(ConceptOf(k)) == [Facts.GrossProfit]
            case Revenue => Store.TagsOf(ConceptOf(k))[0] == Facts.Revenues
            case Receivables => Store.TagsOf(ConceptOf(k))[0] == Facts.AccountsReceivableNetCurrent
            case Ppe => Store.TagsOf(ConceptOf(k)) == [Facts.PropertyPlantAndEquipmentNet]
            case Depreciation => Store.TagsOf(ConceptOf(k))[0] == Facts.DepreciationDepletionAndAmortization
            case Sga => Store.TagsOf(ConceptOf(k)) == [Facts.SellingGeneralAndAdministrativeExpense]
  {
  }

  const SCORED_YEARS := 5

  /** Every series is an answer of the annual query, up to a year if one is given. */
  ghost predicate IsRead(stored: Store.Table, cik: Store.Cik, before: Option<int>, series: Table) {
    forall k :: k in series ==>
      Store.AnnualValues(stored, cik, Store.TagsOf(ConceptOf(k)), SCORED_YEARS, before, series[k])
  }

  /** Whatever is stored, a series read has one value a year, newest first. */
  lemma ReadSeriesDescend(stored: Store.Table, cik: Store.Cik, before: Option<int>, series: Table, k: Key)
    requires IsRead(stored, cik, before, series) && k in series
    ensures Store.NewestYearFirst(series[k]) && |series[k]| <= SCORED_YEARS
    ensures forall v :: v in series[k] && before.Some? ==> v.fiscalYear <= before.value
  {
    var tags := Store.TagsOf(ConceptOf(k));
    if !Store.NoAnnual(stored, cik, tags, before) {
      var p: nat :| Store.IsChosenTag(stored, cik, tags, before, p)
                    && Store.Answers(stored, cik, tags, SCORED_YEARS, before, tags[p], series[k]);
      forall v | v in series[k] && before.Some?
        ensures v.fiscalYear <= before.value
      {
        assert Store.KeptFor(stored, cik, tags, before, tags[p], v);
      }
    }
  }

  /** So whatever is stored, the score formulas hold of what is read. */
  lemma ReadSeriesAreOneAYear(stored: Store.Table, cik: Store.Cik, before: Option<int>, series: Table)
    requires IsRead(stored, cik, before, series)
    ensures AllOneAYear(series)
  {
    forall k | k in series
      ensures OneAYear(series[k])
    {
      ReadSeriesDescend(stored, cik, before, series, k);
    }
  }

  /** The Altman score of what is stored, in the values the query returned. */
  lemma StoredAltmanMeans(stored: Store.Table, cik: Store.Cik, before: Option<int>, series: Table)
    returns (f: AltmanFigures)
    requires series.Keys == ALTMAN_KEYS && IsRead(stored, cik, before, series)
    ensures var derived := PartsReachFurther(series[Liabilities], series[Assets], series[Equity]);
            var o := ComputeAltman(series);
            o.Scored? ==>
              && AltmanValues(series, o.year, derived, f) && IsAltman(o.score, f)
              && (before.Some? ==> o.year <= before.value)
  {
    ReadSeriesAreOneAYear(stored, cik, before, series);
    f := AltmanMeans(series);
    if ComputeAltman(series).Scored? {
      ReadSeriesDescend(stored, cik, before, series, Assets);
    }
  }

  /** Nothing of the company is stored under the figures' tags yet, and what is chosen for them passes the gate. */
  ghost predicate ReadyFor(t: Store.Table, cik: Store.Cik, doc: Facts.Document, keys: set<Key>) {
    forall k :: k in keys ==>
      && !ConceptOf(k).TotalRevenue? && !ConceptOf(k).NetIncome?
      && NoRowsUnder(t, cik, Store.TagsOf(ConceptOf(k))) && Storable(doc, ConceptOf(k))
  }

  /** The figures as chosen from the document. */
  ghost function FromDocument(doc: Facts.Document, keys: set<Key>, before: Option<int>): Table
    requires forall k :: k in keys ==> Storable(doc, ConceptOf(k))
  {
    map k | k in keys :: Expected(doc, ConceptOf(k), 5, before)
  }

  /** Reading a stored company's figures gives the ones chosen from its document. */
  lemma StoredFiguresAreChosen(t: Store.Table, cik: Store.Cik, doc: Facts.Document, before: Option<int>, series: Table)
    requires ReadyFor(t, cik, doc, series.Keys)
    requires IsRead(Store.UpsertAll(t, Store.Uploads(cik, doc)), cik, before, series)
    ensures series == FromDocument(doc, series.Keys, before)
  {
    forall k | k in series
      ensures series[k] == Expected(doc, ConceptOf(k), 5, before)
    {
      StoredThenReadBack(t, cik, doc, ConceptOf(k), SCORED_YEARS, before, series[k]);
    }
  }

  /**
   * So the Altman score of a stored company, for the newest year or any earlier one, is a function of SEC's document
   * alone: neither the table nor the choices the query leaves open show in it.
   */
  lemma AltmanIsOfTheDocument(t: Store.Table, cik: Store.Cik, doc: Facts.Document, before: Option<int>, series: Table)
    requires series.Keys == ALTMAN_KEYS && ReadyFor(t, cik, doc, ALTMAN_KEYS)
    requires IsRead(Store.UpsertAll(t, Store.Uploads(cik, doc)), cik, before, series)
    ensures FromDocument(doc, ALTMAN_KEYS, before).Keys == ALTMAN_KEYS
    ensures ComputeAltman(series) == ComputeAltman(FromDocument(doc, ALTMAN_KEYS, before))
  {
    StoredFiguresAreChosen(t, cik, doc, before, series);
  }
}
