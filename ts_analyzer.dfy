/** The class of `ts_analyzer.py`: it keeps the ticker and the date range,
    and `PerformAnalysis` (run by the constructor) sets every figure from the
    bars fetched for them. Unlike the other class it keeps the normal fit
    only as a ghost. */
module TsAnalyzer {
  import opened Wrappers
  import opened Bars
  import opened Preparation
  import opened Stats
  import opened Ranges
  import opened Rolling
  import opened Numerics
  import opened Pipeline

  class TimeSerieAnalyzer {
    const tickerSymbol: string
    const fromDate: Date
    const toDate: Date

    /** The bars fetched for the ticker and range, and the numeric primitives. */
    ghost var source: seq<Bar>
    ghost var numerics: Primitives

    var cagr: real
    var buyAndHoldReturn: real
    var maxDd: real
    var meanDailyReturn: real
    var stdDailyReturn: Option<real>
    var minReturn: real
    var maxReturn: real
    var tradingDays: nat
    var skewness: real
    var kurtosis: real
    /** The normal fit of `ts_analyzer.py` lines 41-44, a local of the source that it does not keep. */
    ghost var mu: real
    ghost var sigma: real
    var varGauss95: real
    var varGauss99: real
    var varGauss99_7: real
    var varHistoric95: real
    var varHistoric99: real
    var varHistoric99_7: real
    var vam: Option<real>
    var dn: Option<real>
    var dp: Option<real>
    var data: Frame

    /** `data` holds the prepared series of `source` and its added columns. */
    ghost predicate Valid()
      reads this
    {
      IsAnalyzedFrame(source, numerics, data)
    }

    /** The scalar fields as one record, with the ghost fit. */
    ghost function Summary(): Statistics
      reads this
    {
      Statistics(cagr, buyAndHoldReturn, maxDd, meanDailyReturn, stdDailyReturn,
                 minReturn, maxReturn, tradingDays, skewness, kurtosis, mu, sigma,
                 varGauss95, varGauss99, varGauss99_7,
                 varHistoric95, varHistoric99, varHistoric99_7, vam, dn, dp)
    }

    /** The scalar fields hold the statistics of the prepared series. */
    ghost predicate Summarized()
      reads this
      requires Valid()
    {
      Summary() == Summarize(data.days, numerics)
    }

    /** Keep the query, then analyze the bars fetched for it. */
    constructor (ticker: string, from: Date, to: Date, bars: seq<Bar>, prims: Primitives)
      requires PositivePrices(bars) && |DateSet(bars)| >= 2
      ensures tickerSymbol == ticker && fromDate == from && toDate == to
      ensures Valid() && Summarized() && source == bars && numerics == prims
    {
      tickerSymbol := ticker;
      fromDate := from;
      toDate := to;
      new;
      var r := PerformAnalysis(bars, prims);
    }

    /** Construction as the source behaves: `perform_analysis` raises
        `EmptySeries` at `iloc[-1]` exactly when the bars hold fewer than two
        distinct dates, and then no analyzer exists. */
    static method Create(ticker: string, from: Date, to: Date, bars: seq<Bar>, prims: Primitives)
      returns (r: Result<TimeSerieAnalyzer, Error>)
      requires PositivePrices(bars)
      ensures r.Failure? <==> |DateSet(bars)| <= 1
      ensures r.Failure? ==> r.error == EmptySeries
      ensures r.Success? ==> fresh(r.value) && r.value.Valid() && r.value.Summarized()
      ensures r.Success? ==> r.value.source == bars && r.value.numerics == prims && r.value.tickerSymbol == ticker
      ensures r.Success? ==> r.value.fromDate == from && r.value.toDate == to
    {
      if |DateSet(bars)| <= 1 {
        return Failure(EmptySeries);
      }
      var a := new TimeSerieAnalyzer(ticker, from, to, bars, prims);
      return Success(a);
    }

    /** Analyze `bars`, the series fetched for the ticker and the range, and
        overwrite every figure and the frame. With fewer than two distinct
        dates the prepared frame is empty and the first assignment raises at
        `iloc[-1]` before any attribute is set. */
    method PerformAnalysis(bars: seq<Bar>, prims: Primitives) returns (r: Result<(), Error>)
      requires PositivePrices(bars)
      modifies this
      ensures r.Failure? <==> |DateSet(bars)| <= 1
      ensures r.Failure? ==> r.error == EmptySeries && unchanged(this)
      ensures r.Success? ==> Valid() && Summarized() && source == bars && numerics == prims
    {
      PreparedSize(bars);
      var df := Dedup(bars);
      var days := Prepare(df);
      if |days| == 0 {
        return Failure(EmptySeries);
      }
      var rets := ReturnsOf(days);

      // the added columns: rolling volatility, its annualized copy and SMA, and the range columns
      var vol := Scale(RollingStd(rets, VolWindow, prims.sqrt), 100.0);
      var annualized := Scale(vol, prims.sqrt(TradingDaysPerYear));
      var sma := RollingMean(annualized, SmaWindow);
      var negative := DirectionalColumn(days, Down);
      var positive := DirectionalColumn(days, Up);
      var f := Frame(days, vol, annualized, sma, negative, positive);
      assert IsAnalyzedFrame(bars, prims, f) by {
        PreparedSize(bars);
      }

      // the scalar statistics of the prepared frame
      var st := Summarize(days, prims);
      Store(f, st, bars, prims);
      r := Success(());
    }

    /** Overwrite the frame, where it came from, and every figure. */
    method Store(f: Frame, st: Statistics, bars: seq<Bar>, prims: Primitives)
      modifies this
      ensures data == f && source == bars && numerics == prims && Summary() == st
    {
      StoreFrame(f, bars, prims);
      StoreFigures(st);
    }

    /** Store the frame and where it came from. */
    method StoreFrame(f: Frame, bars: seq<Bar>, prims: Primitives)
      modifies this`data, this`source, this`numerics
      ensures data == f && source == bars && numerics == prims
    {
      data, source, numerics := f, bars, prims;
    }

    /** Store every figure of `st`. */
    method StoreFigures(st: Statistics)
      modifies this`cagr, this`buyAndHoldReturn, this`maxDd, this`meanDailyReturn, this`stdDailyReturn
      modifies this`minReturn, this`maxReturn, this`tradingDays, this`skewness, this`kurtosis
      modifies this`mu, this`sigma, this`varGauss95, this`varGauss99, this`varGauss99_7
      modifies this`varHistoric95, this`varHistoric99, this`varHistoric99_7, this`vam, this`dn, this`dp
      ensures Summary() == st
    {
      StoreReturnFigures(st);
      StoreRiskFigures(st);
    }

    /** Store the growth, drawdown and return figures of `st`. */
    method StoreReturnFigures(st: Statistics)
      modifies this`cagr, this`buyAndHoldReturn, this`maxDd, this`meanDailyReturn, this`stdDailyReturn
      modifies this`minReturn, this`maxReturn, this`tradingDays, this`skewness, this`kurtosis
      ensures cagr == st.cagr && buyAndHoldReturn == st.buyAndHoldReturn && maxDd == st.maxDrawdown
      ensures meanDailyReturn == st.meanDailyReturn && stdDailyReturn == st.stdDailyReturn
      ensures minReturn == st.minReturn && maxReturn == st.maxReturn && tradingDays == st.tradingDays
      ensures skewness == st.skewness && kurtosis == st.kurtosis
    {
      cagr, buyAndHoldReturn, maxDd := st.cagr, st.buyAndHoldReturn, st.maxDrawdown;
      meanDailyReturn, stdDailyReturn, minReturn, maxReturn, tradingDays :=
        st.meanDailyReturn, st.stdDailyReturn, st.minReturn, st.maxReturn, st.tradingDays;
      skewness, kurtosis := st.skewness, st.kurtosis;
    }

    /** Store the normal fit and the value-at-risk, volatility and range
        figures of `st`. */
    method StoreRiskFigures(st: Statistics)
      modifies this`mu, this`sigma, this`varGauss95, this`varGauss99, this`varGauss99_7
      modifies this`varHistoric95, this`varHistoric99, this`varHistoric99_7, this`vam, this`dn, this`dp
      ensures mu == st.mu && sigma == st.sigma
      ensures varGauss95 == st.varGauss95 && varGauss99 == st.varGauss99 && varGauss99_7 == st.varGauss99_7
      ensures varHistoric95 == st.varHistoric95 && varHistoric99 == st.varHistoric99 && varHistoric99_7 == st.varHistoric99_7
      ensures vam == st.vam && dn == st.dn && dp == st.dp
    {
      mu, sigma := st.mu, st.sigma;
      varGauss95, varGauss99, varGauss99_7 := st.varGauss95, st.varGauss99, st.varGauss99_7;
      varHistoric95, varHistoric99, varHistoric99_7 := st.varHistoric95, st.varHistoric99, st.varHistoric99_7;
      vam, dn, dp := st.vam, st.dn, st.dp;
    }

    /** `_DN / _DP`: defined when both means are and `_DP` is not zero, and
        then it is the factor that takes `_DP` to `_DN`. */
    function PosNegDaysRatio(): (r: Option<real>)
      reads this
      ensures r.Some? <==> dn.Some? && dp.Some? && dp.value != 0.0
      ensures r.Some? ==> r.value * dp.value == dn.value
    {
      Ratio(dn, dp)
    }

    /** The `Daily Return` column, one row per distinct date but the first. */
    function DailyReturn(): (rets: seq<real>)
      reads this
      requires Valid()
      ensures var d := Dedup(source);
              && |rets| == |d| - 1 == |DateSet(source)| - 1
              && forall t :: 0 <= t < |rets| ==> rets[t] == PctChange(d[t].adjClose, d[t + 1].adjClose)
    {
      PreparedSeries(source);
      ReturnsOf(data.days)
    }

    /** `len(self._data)`: the number of distinct dates less one. */
    function Count(): (n: nat)
      reads this
      requires Valid()
      ensures n == |DateSet(source)| - 1 && n >= 1
    {
      PreparedSize(source);
      |data.days|
    }

    /** The date index: distinct, in source order, the first date left out. */
    function Index(): (dates: seq<Date>)
      reads this
      requires Valid()
      ensures var d := Dedup(source);
              && |dates| == |d| - 1
              && (forall t :: 0 <= t < |dates| ==> dates[t] == d[t + 1].date)
              && (forall i, j :: 0 <= i < j < |dates| ==> dates[i] != dates[j])
    {
      PreparedSeries(source);
      DatesOf(data.days)
    }

    /** The `Adj Close` column of the trimmed frame. */
    function AdjClose(): (adj: seq<real>)
      reads this
      requires Valid()
      ensures var d := Dedup(source);
              && |adj| == |d| - 1
              && forall t :: 0 <= t < |adj| ==> adj[t] == d[t + 1].adjClose > 0.0
    {
      PreparedSeries(source);
      AdjCloses(BarsOf(data.days))
    }

    /** `Volatilidad_Historica_14_Dias`: NaN on exactly the first 13 rows. */
    function HistoricVol14Days(): (col: seq<Option<real>>)
      reads this
      requires Valid()
      ensures |col| == |data.days|
      ensures forall i :: 0 <= i < |col| ==> (col[i].Some? <==> i >= 13)
    {
      VolatilityColumnsWarmup(data.days, numerics);
      data.vol14
    }

    /** `Volatilidad_14_Dias_Anualizada`: NaN on exactly the first 13 rows. */
    function HistoricVol14DaysAnnualized(): (col: seq<Option<real>>)
      reads this
      requires Valid()
      ensures |col| == |data.days|
      ensures forall i :: 0 <= i < |col| ==> (col[i].Some? <==> i >= 13)
    {
      VolatilityColumnsWarmup(data.days, numerics);
      data.vol14Annualized
    }

    /** `SMA_126_Volatilidad_Anualizada`: NaN on exactly the first 138 rows. */
    function HistoricVolSma126(): (col: seq<Option<real>>)
      reads this
      requires Valid()
      ensures |col| == |data.days|
      ensures forall i :: 0 <= i < |col| ==> (col[i].Some? <==> i >= 138)
    {
      VolatilityColumnsWarmup(data.days, numerics);
      data.sma126
    }

    /** The first date of the lowest annualized volatility; it raises exactly
        when the frame has at most 13 rows. */
    function MinVolDate(): (r: Result<Date, Error>)
      reads this
      requires Valid()
      ensures r.Failure? <==> |data.days| <= 13
      ensures r.Failure? ==> r.error == AllUndefined
      ensures r.Success? ==> exists i: nat :: IsFirstExtreme(data.vol14Annualized, Lowest, i) && r.value == data.days[i].bar.date
    {
      ExtremeVolDateFailsIffShort(data.days, numerics, Lowest);
      ExtremeVolDate(data, Lowest)
    }

    /** The first date of the highest annualized volatility; it raises exactly
        when the frame has at most 13 rows. */
    function MaxVolDate(): (r: Result<Date, Error>)
      reads this
      requires Valid()
      ensures r.Failure? <==> |data.days| <= 13
      ensures r.Failure? ==> r.error == AllUndefined
      ensures r.Success? ==> exists i: nat :: IsFirstExtreme(data.vol14Annualized, Highest, i) && r.value == data.days[i].bar.date
    {
      ExtremeVolDateFailsIffShort(data.days, numerics, Highest);
      ExtremeVolDate(data, Highest)
    }

    /** What the figures promise together: the historic VaR ladder and the
        mean sit between the extreme returns, the drawdown in `(-100, 0]`
        (0 exactly for a never-falling close), and `_DN`/`_DP` average the
        ranges of the strictly falling and strictly rising rows. */
    lemma SummaryProperties()
      requires Valid() && Summarized()
      ensures minReturn <= varHistoric99_7 <= varHistoric99 <= varHistoric95 <= maxReturn
      ensures minReturn <= meanDailyReturn <= maxReturn
      ensures -100.0 < maxDd <= 0.0
      ensures maxDd == 0.0 <==> NonDecreasing(AdjCloses(BarsOf(data.days)))
      ensures var qn := QualifyingRanges(data.days, Down);
              dn == if |qn| == 0 then None else Some(Mean(qn))
      ensures var qp := QualifyingRanges(data.days, Up);
              dp == if |qp| == 0 then None else Some(Mean(qp))
    {
      HistoricVarOrdered(data.days, numerics);
      MaxDrawdownBounds(data.days, numerics);
      RangeMeansOverQualifyingDays(data.days, numerics);
    }

    /** With 252 returns and a power that is the identity at exponent 1,
        `_cagr` equals `_buy_and_hold_return`. */
    lemma OneYearCagr()
      requires Valid() && Summarized() && tradingDays == 252 && PowIdentityAtOne(numerics.pow)
      ensures cagr == buyAndHoldReturn
    {
      OneYearCagrIsBuyAndHold(data.days, numerics);
    }
  }
}
