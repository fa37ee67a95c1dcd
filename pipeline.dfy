/** The analysis both analyzer classes run on construction: prepare the
    series, compute the summary statistics, and add the rolling and range
    columns to the frame. */
module Pipeline {
  import opened Wrappers
  import opened Bars
  import opened Preparation
  import opened Stats
  import opened Ranges
  import opened Rolling
  import opened Numerics

  /** The trading days in a year. */
  const TradingDaysPerYear: real := 252.0
  /** The rows of the rolling volatility window. */
  const VolWindow: nat := 14
  /** The rows of the moving average of the annualized volatility. */
  const SmaWindow: nat := 126

  /** The scalar results, in percent where the source multiplies by 100. */
  datatype Statistics = Statistics(
    cagr: real,
    buyAndHoldReturn: real,
    maxDrawdown: real,
    meanDailyReturn: real,
    stdDailyReturn: Option<real>,
    minReturn: real,
    maxReturn: real,
    tradingDays: nat,
    skewness: real,
    kurtosis: real,
    mu: real,
    sigma: real,
    varGauss95: real,
    varGauss99: real,
    varGauss99_7: real,
    varHistoric95: real,
    varHistoric99: real,
    varHistoric99_7: real,
    vam: Option<real>,
    dn: Option<real>,
    dp: Option<real>)

  /** The prepared frame with the columns the analysis adds to it. */
  datatype Frame = Frame(
    days: seq<Day>,
    vol14: seq<Option<real>>,            // `Volatilidad_Historica_14_Dias`
    vol14Annualized: seq<Option<real>>,  // `Volatilidad_14_Dias_Anualizada`
    sma126: seq<Option<real>>,           // `SMA_126_Volatilidad_Anualizada`
    negativeDays: seq<real>,             // `DiasNegativos`
    positiveDays: seq<real>)             // `DiasPositivos`

  datatype Analysis = Analysis(stats: Statistics, frame: Frame)

  /** An optional value times a constant; NaN stays NaN. */
  function Times(x: Option<real>, k: real): (r: Option<real>)
    ensures r.Some? <==> x.Some?
  {
    if x.Some? then Some(x.value * k) else None
  }

  /** The frame is well formed for the analysis: some rows, positive prices. */
  predicate Analyzable(days: seq<Day>)
  {
    |days| > 0 && PositivePrices(BarsOf(days))
  }

  /** `f` is the prepared frame of `bars`, with its added columns. */
  ghost predicate IsAnalyzedFrame(bars: seq<Bar>, prims: Primitives, f: Frame)
  {
    && PositivePrices(bars)
    && PositivePrices(Dedup(bars))
    && f.days == Prepare(Dedup(bars))
    && |f.days| == |Dedup(bars)| - 1
    && Analyzable(f.days)
    && f == AddColumns(f.days, prims)
  }

  /** The statistics of `analyzer.py` lines 17-44 and 50-58, over the prepared
      frame. `years` is the count of returns over 252. */
  function Summarize(days: seq<Day>, prims: Primitives): Statistics
    requires Analyzable(days)
  {
    var rets := ReturnsOf(days);
    var adj := AdjCloses(BarsOf(days));
    var n := |days|;
    var years := n as real / TradingDaysPerYear;
    var fit := prims.normFit(rets);
    var std := SampleStd(rets, prims.sqrt);
    Statistics(
      cagr := Cagr(adj[0], adj[n - 1], years, prims.pow),
      buyAndHoldReturn := BuyAndHold(adj[0], adj[n - 1]),
      maxDrawdown := MaxDrawdown(adj),
      meanDailyReturn := Mean(rets) * 100.0,
      stdDailyReturn := Times(std, 100.0),
      minReturn := Min(rets) * 100.0,
      maxReturn := Max(rets) * 100.0,
      tradingDays := n,
      skewness := prims.skew(rets),
      kurtosis := prims.kurt(rets),
      mu := fit.0,
      sigma := fit.1,
      varGauss95 := prims.normPpf(0.05, fit.0, fit.1) * 100.0,
      varGauss99 := prims.normPpf(0.01, fit.0, fit.1) * 100.0,
      varGauss99_7 := prims.normPpf(0.003, fit.0, fit.1) * 100.0,
      varHistoric95 := Percentile(rets, 5.0) * 100.0,
      varHistoric99 := Percentile(rets, 1.0) * 100.0,
      varHistoric99_7 := Percentile(rets, 0.3) * 100.0,
      vam := Times(Times(std, 100.0), prims.sqrt(TradingDaysPerYear)),
      dn := NonZeroMean(DirectionalColumn(days, Down)),
      dp := NonZeroMean(DirectionalColumn(days, Up)))
  }

  /** The columns that `analyzer.py` lines 46-48, 52 and 56 add. */
  function AddColumns(days: seq<Day>, prims: Primitives): Frame
    requires Analyzable(days)
  {
    var vol := Scale(RollingStd(ReturnsOf(days), VolWindow, prims.sqrt), 100.0);
    var annualized := Scale(vol, prims.sqrt(TradingDaysPerYear));
    Frame(days, vol, annualized, RollingMean(annualized, SmaWindow),
          DirectionalColumn(days, Down), DirectionalColumn(days, Up))
  }

  /** The whole analysis from the fetched bars: de-duplicate, add returns,
      trim, summarize. It raises (`EmptySeries`) exactly when the bars hold
      fewer than two distinct dates, where the trimmed frame is empty. */
  function Analyze(bars: seq<Bar>, prims: Primitives): (r: Result<Analysis, Error>)
    requires PositivePrices(bars)
    ensures r.Failure? <==> |DateSet(bars)| <= 1
    ensures r.Failure? ==> r.error == EmptySeries
  {
    PreparedEmptyIffOneDate(bars);
    var df := Dedup(bars);
    var days := Prepare(df);
    PreparedPositive(df);
    if |days| == 0 then Failure(EmptySeries)
    else Success(Analysis(Summarize(days, prims), AddColumns(days, prims)))
  }

  /** A successful analysis summarizes and extends the prepared series. */
  lemma AnalyzeOf(bars: seq<Bar>, prims: Primitives)
    requires PositivePrices(bars) && Analyze(bars, prims).Success?
    ensures PositivePrices(Dedup(bars))
    ensures var days := Prepare(Dedup(bars));
            && Analyzable(days)
            && Analyze(bars, prims).value == Analysis(Summarize(days, prims), AddColumns(days, prims))
  {
    PreparedEmptyIffOneDate(bars);
    PreparedPositive(Dedup(bars));
  }

  /** The prepared series of the bars: one row per distinct date but the
      first, each with its return against the previous distinct bar. It can
      be analyzed exactly when the bars hold two distinct dates or more. */
  lemma PreparedSeries(bars: seq<Bar>)
    requires PositivePrices(bars)
    ensures PositivePrices(Dedup(bars))
    ensures var d := Dedup(bars);
            var days := Prepare(d);
            && (|bars| > 0 ==> |days| == |d| - 1 == |DateSet(bars)| - 1)
            && (Analyzable(days) <==> |DateSet(bars)| >= 2)
            && DistinctDates(BarsOf(days))
            && (forall t :: 0 <= t < |days| ==> days[t].bar == d[t + 1])
            && (forall t :: 0 <= t < |days| ==> days[t].ret == PctChange(d[t].adjClose, d[t + 1].adjClose))
  {
    DedupKeepsPositive(bars);
    var d := Dedup(bars);
    PreparedSize(bars);
    PreparedRows(d);
    DedupDistinct(bars);
    PreparedDistinct(d);
  }

  lemma PreparedSize(bars: seq<Bar>)
    requires PositivePrices(bars)
    ensures PositivePrices(Dedup(bars))
    ensures var days := Prepare(Dedup(bars));
            && (|bars| > 0 ==> |days| == |Dedup(bars)| - 1 == |DateSet(bars)| - 1)
            && (Analyzable(days) <==> |DateSet(bars)| >= 2)
  {
    PreparedEmptyIffOneDate(bars);
    var d := Dedup(bars);
    var days := Prepare(d);
    assert |DateSet(bars)| == |d| by {
      DedupDistinct(bars);
      DistinctDatesCount(d);
      DedupKeepsDates(bars);
    }
    assert |days| == if |d| == 0 then 0 else |d| - 1 by {
      PreparedRows(d);
    }
    assert Analyzable(days) <==> |days| > 0 by {
      PreparedPositive(d);
    }
  }

  lemma PreparedDistinct(d: seq<Bar>)
    requires PositivePrices(d) && DistinctDates(d)
    ensures DistinctDates(BarsOf(Prepare(d)))
  {
    PreparedRows(d);
    var days := Prepare(d);
    forall i, j | 0 <= i < j < |days| ensures days[i].bar.date != days[j].bar.date {
      assert days[i].bar == d[i + 1] && days[j].bar == d[j + 1];
    }
  }

  /** The adjusted closes of an analyzable frame are positive. */
  lemma PositiveAdjCloses(days: seq<Day>)
    requires Analyzable(days)
    ensures AllPositive(AdjCloses(BarsOf(days)))
  {
  }

  /** The returns summary is ordered: minimum ≤ 99.7% historic VaR ≤ 99% ≤
      95% ≤ maximum, and the mean lies between the minimum and the maximum. */
  lemma HistoricVarOrdered(days: seq<Day>, prims: Primitives)
    requires Analyzable(days)
    ensures var st := Summarize(days, prims);
            && st.minReturn <= st.varHistoric99_7 <= st.varHistoric99 <= st.varHistoric95 <= st.maxReturn
            && st.minReturn <= st.meanDailyReturn <= st.maxReturn
  {
    var rets := ReturnsOf(days);
    PercentileWithin(rets, 0.3);
    PercentileWithin(rets, 5.0);
    PercentileMonotone(rets, 0.3, 1.0);
    PercentileMonotone(rets, 1.0, 5.0);
    MeanWithin(rets);
    var st := Summarize(days, prims);
    ScaledOrder(Min(rets), Percentile(rets, 0.3), Percentile(rets, 1.0), Percentile(rets, 5.0), Max(rets));
    ScaledOrder(Min(rets), Mean(rets), Mean(rets), Mean(rets), Max(rets));
  }

  lemma ScaledOrder(a: real, b: real, c: real, d: real, e: real)
    requires a <= b <= c <= d <= e
    ensures a * 100.0 <= b * 100.0 <= c * 100.0 <= d * 100.0 <= e * 100.0
  {
  }

  /** The maximum drawdown lies in `(-100, 0]`, and is 0 exactly when the
      adjusted close never falls. */
  lemma MaxDrawdownBounds(days: seq<Day>, prims: Primitives)
    requires Analyzable(days)
    ensures var mdd := Summarize(days, prims).maxDrawdown;
            && -100.0 < mdd <= 0.0
            && (mdd == 0.0 <==> NonDecreasing(AdjCloses(BarsOf(days))))
  {
    var adj := AdjCloses(BarsOf(days));
    PositiveAdjCloses(days);
    MaxDrawdownWithin(adj);
    MaxDrawdownZeroIffNonDecreasing(adj);
  }

  /** Both growth figures of a prepared series start from its first row,
      that is from the second bar, not from the first one. */
  lemma GrowthOfPrepared(d: seq<Bar>, prims: Primitives)
    requires PositivePrices(d) && Analyzable(Prepare(d))
    ensures var st := Summarize(Prepare(d), prims);
            |d| >= 2 && d[1].adjClose > 0.0 &&
            st.buyAndHoldReturn == BuyAndHold(d[1].adjClose, d[|d| - 1].adjClose) &&
            st.cagr == Cagr(d[1].adjClose, d[|d| - 1].adjClose, st.tradingDays as real / TradingDaysPerYear, prims.pow)
  {
    PreparedRows(d);
    var days := Prepare(d);
    var adj := AdjCloses(BarsOf(days));
    var n := |days|;
    assert adj[0] == d[1].adjClose;
    assert adj[n - 1] == d[|d| - 1].adjClose;
  }

  /** The buy-and-hold return compounds the returns of every row but the
      first: the first return, against the dropped bar, is left out. */
  lemma BuyAndHoldCompoundsLaterReturns(bars: seq<Bar>, prims: Primitives)
    requires PositivePrices(bars) && Analyze(bars, prims).Success?
    ensures var a := Analyze(bars, prims).value;
            var rets := ReturnsOf(a.frame.days);
            |rets| > 0 && a.stats.buyAndHoldReturn == (Growth(rets[1..]) - 1.0) * 100.0
  {
    AnalyzeOf(bars, prims);
    var d := Dedup(bars);
    PreparedChained(d);
    ChainedBuyAndHold(Prepare(d));
  }

  lemma ChainedBuyAndHold(days: seq<Day>)
    requires Analyzable(days) && Chained(days)
    ensures var adj := AdjCloses(BarsOf(days));
            BuyAndHold(adj[0], adj[|days| - 1]) == (Growth(ReturnsOf(days)[1..]) - 1.0) * 100.0
  {
    var rets := ReturnsOf(days);
    var n := |days| - 1;
    CompoundFromFirstRow(days, n);
    assert rets[1..n + 1] == rets[1..];
    var adj := AdjCloses(BarsOf(days));
    GrowthReturn(adj[0], adj[n], Growth(rets[1..]));
  }

  lemma GrowthReturn(a: real, b: real, g: real)
    requires a > 0.0 && b == a * g
    ensures BuyAndHold(a, b) == (g - 1.0) * 100.0
  {
    QuotientOfProduct(b - a, a, g - 1.0);
  }

  lemma QuotientOfProduct(x: real, a: real, y: real)
    requires a != 0.0 && x == a * y
    ensures x / a == y
  {
  }

  /** With exactly 252 returns `years` is 1, and for a power that is the
      identity at exponent 1 the CAGR equals the buy-and-hold return. */
  lemma OneYearCagrIsBuyAndHold(days: seq<Day>, prims: Primitives)
    requires Analyzable(days) && |days| == 252
    requires PowIdentityAtOne(prims.pow)
    ensures Summarize(days, prims).cagr == Summarize(days, prims).buyAndHoldReturn
  {
    var adj := AdjCloses(BarsOf(days));
    assert |days| as real / TradingDaysPerYear == 1.0;
    assert adj[251] / adj[0] > 0.0;
    assert prims.pow(adj[251] / adj[0], 1.0) == adj[251] / adj[0];
    CagrOverOneYear(adj[0], adj[251], prims.pow);
  }

  /** The 14-day volatility and its annualized copy are NaN on exactly the
      first 13 rows; the 126-row average on exactly the first 138. */
  lemma VolatilityColumnsWarmup(days: seq<Day>, prims: Primitives)
    requires Analyzable(days)
    ensures var f := AddColumns(days, prims);
            && |f.vol14| == |f.vol14Annualized| == |f.sma126| == |f.days|
            && forall i :: 0 <= i < |f.days| ==>
                 && (f.vol14[i].Some? <==> i >= 13)
                 && (f.vol14Annualized[i].Some? <==> i >= 13)
                 && (f.sma126[i].Some? <==> i >= 138)
  {
    VolatilityWarmup(ReturnsOf(days), prims.sqrt, 100.0, prims.sqrt(TradingDaysPerYear));
  }

  /** `dn` and `dp` are the mean ranges of the strictly falling and strictly
      rising days whose high differs from their low; NaN when there is none. */
  lemma RangeMeansOverQualifyingDays(days: seq<Day>, prims: Primitives)
    requires Analyzable(days)
    ensures var st := Summarize(days, prims);
            var qn := QualifyingRanges(days, Down);
            var qp := QualifyingRanges(days, Up);
            && st.dn == (if |qn| == 0 then None else Some(Mean(qn)))
            && st.dp == (if |qp| == 0 then None else Some(Mean(qp)))
  {
    DirectionalMeanIsQualifyingMean(days, Down);
    DirectionalMeanIsQualifyingMean(days, Up);
  }

  /** `col[col == col.min()].index[0]` on the annualized volatility (or with
      `max`): the date of the first row holding the extremum of the defined
      values; it raises when no value is defined. */
  function ExtremeVolDate(f: Frame, e: Extremum): (r: Result<Date, Error>)
    requires |f.vol14Annualized| == |f.days|
    ensures r.Failure? <==> forall i :: 0 <= i < |f.days| ==> f.vol14Annualized[i].None?
    ensures r.Failure? ==> r.error == AllUndefined
    ensures r.Success? ==> exists i: nat :: IsFirstExtreme(f.vol14Annualized, e, i) && r.value == f.days[i].bar.date
  {
    MaskLookupFindsFirstExtreme(f.vol14Annualized, e);
    match MaskLookup(f.vol14Annualized, e)
    case None => Failure(AllUndefined)
    case Some(i) => Success(f.days[i].bar.date)
  }

  /** On an analyzed frame the extremum lookup raises exactly when the frame
      has at most 13 rows, so that no 14-row window fills. */
  lemma ExtremeVolDateFailsIffShort(days: seq<Day>, prims: Primitives, e: Extremum)
    requires Analyzable(days)
    ensures var f := AddColumns(days, prims);
            |f.vol14Annualized| == |f.days| &&
            (ExtremeVolDate(f, e).Failure? <==> |days| <= 13)
  {
    VolatilityColumnsWarmup(days, prims);
    var f := AddColumns(days, prims);
    if |days| >= 14 {
      assert f.vol14Annualized[13].Some?;
    }
  }
}
