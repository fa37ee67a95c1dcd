/** The class of `analyzer.py`: the constructor runs the whole analysis once
    and stores every figure in a field; the other methods only read them. */
module Analyzer {
  import opened Wrappers
  import opened Bars
  import opened Preparation
  import opened Stats
  import opened Ranges
  import opened Rolling
  import opened Numerics
  import opened Pipeline

  class TimeSeriesAnalyzer {
    /** The bars the data source delivered and the numeric primitives used. */
    ghost var source: seq<Bar>
    ghost var numerics: Primitives

    var cagr: real
    var buyAndHoldReturn: real
    var maxDd: real
    var meanDailyReturn: real
    var stdDailyReturn: Option<real>
    var minReturn: real
    var maxReturn: real
    var tradingDays: nat
    var skewness: real
    var kurtosis: real
    var mu: real
    var sigma: real
    var varGauss95: real
    var varGauss99: real
    var varGauss99_7: real
    var varHistoric95: real
    var varHistoric99: real
    var varHistoric99_7: real
    var vam: Option<real>
    var dn: Option<real>
    var dp: Option<real>
    var data: Frame

    /** The scalar fields as one record. */
    function Summary(): Statistics
      reads this
    {
      Statistics(cagr, buyAndHoldReturn, maxDd, meanDailyReturn, stdDailyReturn,
                 minReturn, maxReturn, tradingDays, skewness, kurtosis, mu, sigma,
                 varGauss95, varGauss99, varGauss99_7,
                 varHistoric95, varHistoric99, varHistoric99_7, vam, dn, dp)
    }

    /** `data` holds the prepared series of `source` and its added columns. */
    ghost predicate Valid()
      reads this
    {
      IsAnalyzedFrame(source, numerics, data)
    }

    /** The scalar fields hold the statistics of the prepared series. Kept
        apart from `Valid` so that the queries on the frame need not unfold
        every statistic. */
    ghost predicate Summarized()
      reads this
      requires Valid()
    {
      Summary() == Summarize(data.days, numerics)
    }

    /** Fetched bars in, every field set once. The source raises at
        `iloc[-1]` when fewer than two distinct dates arrive; that case is
        excluded here and reported by `Create`. */
    constructor (bars: seq<Bar>, prims: Primitives)
      requires PositivePrices(bars) && |DateSet(bars)| >= 2
      ensures Valid() && Summarized() && source == bars && numerics == prims
    {
      new;
      PreparedSize(bars);
      var days := Prepare(Dedup(bars));
      var rets := ReturnsOf(days);

      // the added columns: rolling volatility, its annualized copy and SMA, and the range columns
      var vol := Scale(RollingStd(rets, VolWindow, prims.sqrt), 100.0);
      var annualized := Scale(vol, prims.sqrt(TradingDaysPerYear));
      var sma := RollingMean(annualized, SmaWindow);
      var f := Frame(days, vol, annualized, sma, DirectionalColumn(days, Down), DirectionalColumn(days, Up));
      assert IsAnalyzedFrame(bars, prims, f) by {
        PreparedSize(bars);
      }

      // the scalar statistics of the prepared frame
      var st := Summarize(days, prims);
      Store(f, st, bars, prims);
    }

    /** Set the frame, where it came from, and every figure. */
    method Store(f: Frame, st: Statistics, bars: seq<Bar>, prims: Primitives)
      modifies this
      ensures data == f && source == bars && numerics == prims && Summary() == st
    {
      data, source, numerics := f, bars, prims;
      StoreStatistics(st);
    }

    /** Sets the scalar fields to `st`, one attribute per figure. */
    method StoreStatistics(st: Statistics)
      modifies this`cagr, this`buyAndHoldReturn, this`maxDd, this`meanDailyReturn, this`stdDailyReturn
      modifies this`minReturn, this`maxReturn, this`tradingDays, this`skewness, this`kurtosis
      modifies this`mu, this`sigma, this`varGauss95, this`varGauss99, this`varGauss99_7
      modifies this`varHistoric95, this`varHistoric99, this`varHistoric99_7, this`vam, this`dn, this`dp
      ensures Summary() == st
    {
      StoreReturnFigures(st);
      StoreRiskFigures(st);
    }

    /** `analyzer.py` lines 17-33: the growth, drawdown and return figures of `st`. */
    method StoreReturnFigures(st: Statistics)
      modifies this`cagr, this`buyAndHoldReturn, this`maxDd, this`meanDailyReturn, this`stdDailyReturn
      modifies this`minReturn, this`maxReturn, this`tradingDays, this`skewness, this`kurtosis
      ensures cagr == st.cagr && buyAndHoldReturn == st.buyAndHoldReturn && maxDd == st.maxDrawdown
      ensures meanDailyReturn == st.meanDailyReturn && stdDailyReturn == st.stdDailyReturn
      ensures minReturn == st.minReturn && maxReturn == st.maxReturn && tradingDays == st.tradingDays
      ensures skewness == st.skewness && kurtosis == st.kurtosis
    {
      cagr, buyAndHoldReturn, maxDd := st.cagr, st.buyAndHoldReturn, st.maxDrawdown;
      meanDailyReturn, stdDailyReturn, minReturn, maxReturn, tradingDays :=
        st.meanDailyReturn, st.stdDailyReturn, st.minReturn, st.maxReturn, st.tradingDays;
      skewness, kurtosis := st.skewness, st.kurtosis;
    }

    /** `analyzer.py` lines 35-44, 50, 54 and 58: the normal fit and the value-at-risk,
        volatility and range figures of `st`. */
    method StoreRiskFigures(st: Statistics)
      modifies this`mu, this`sigma, this`varGauss95, this`varGauss99, this`varGauss99_7
      modifies this`varHistoric95, this`varHistoric99, this`varHistoric99_7, this`vam, this`dn, this`dp
      ensures mu == st.mu && sigma == st.sigma
      ensures varGauss95 == st.varGauss95 && varGauss99 == st.varGauss99 && varGauss99_7 == st.varGauss99_7
      ensures varHistoric95 == st.varHistoric95 && varHistoric99 == st.varHistoric99 && varHistoric99_7 == st.varHistoric99_7
      ensures vam == st.vam && dn == st.dn && dp == st.dp
    {
      mu, sigma := st.mu, st.sigma;
      varGauss95, varGauss99, varGauss99_7 := st.varGauss95, st.varGauss99, st.varGauss99_7;
      varHistoric95, varHistoric99, varHistoric99_7 := st.varHistoric95, st.varHistoric99, st.varHistoric99_7;
      vam, dn, dp := st.vam, st.dn, st.dp;
    }

    /** Construction as the source behaves: `EmptySeries` exactly when the
        bars hold fewer than two distinct dates. */
    static method Create(bars: seq<Bar>, prims: Primitives) returns (r: Result<TimeSeriesAnalyzer, Error>)
      requires PositivePrices(bars)
      ensures r.Failure? <==> |DateSet(bars)| <= 1
      ensures r.Failure? ==> r.error == EmptySeries
      ensures r.Success? ==> fresh(r.value) && r.value.Valid() && r.value.Summarized()
      ensures r.Success? ==> r.value.source == bars && r.value.numerics == prims
    {
      if |DateSet(bars)| <= 1 {
        return Failure(EmptySeries);
      }
      var a := new TimeSeriesAnalyzer(bars, prims);
      return Success(a);
    }

    /** `dn / dp`: defined when both means are and `dp` is not zero, and then
        it is the factor that takes `dp` to `dn`. */
    function PosNegDaysRatio(): (r: Option<real>)
      reads this
      ensures r.Some? <==> dn.Some? && dp.Some? && dp.value != 0.0
      ensures r.Some? ==> r.value * dp.value == dn.value
    {
      Ratio(dn, dp)
    }

    /** The row count of the frame: one per distinct date but the first. */
    function Count(): (n: nat)
      reads this
      requires Valid()
      ensures n == |DateSet(source)| - 1 && n >= 1
    {
      PreparedSeries(source);
      |data.days|
    }

    /** The `Daily Return` column: each row's change against the previous
        distinct bar. */
    function DailyReturn(): (rets: seq<real>)
      reads this
      requires Valid()
      ensures PositivePrices(Dedup(source))
      ensures var d := Dedup(source);
              && |rets| == Count()
              && forall t :: 0 <= t < |rets| ==> rets[t] == PctChange(d[t].adjClose, d[t + 1].adjClose)
    {
      PreparedSeries(source);
      ReturnsOf(data.days)
    }

    /** The date index: the distinct dates in source order, the first left out. */
    function Index(): (dates: seq<Date>)
      reads this
      requires Valid()
      ensures var d := Dedup(source);
              && |dates| == Count()
              && (forall t :: 0 <= t < |dates| ==> dates[t] == d[t + 1].date)
              && (forall i, j :: 0 <= i < j < |dates| ==> dates[i] != dates[j])
    {
      PreparedSeries(source);
      DatesOf(data.days)
    }

    /** The `Adj Close` column of the trimmed frame. */
    function AdjClose(): (adj: seq<real>)
      reads this
      requires Valid()
      ensures var d := Dedup(source);
              && |adj| == Count()
              && forall t :: 0 <= t < |adj| ==> adj[t] == d[t + 1].adjClose > 0.0
    {
      PreparedSeries(source);
      AdjCloses(BarsOf(data.days))
    }

    /** `Volatilidad_Historica_14_Dias`: NaN on exactly the first 13 rows. */
    function HistoricVol14Days(): (col: seq<Option<real>>)
      reads this
      requires Valid()
      ensures |col| == Count()
      ensures forall i :: 0 <= i < |col| ==> (col[i].Some? <==> i >= 13)
    {
      PreparedSeries(source);
      VolatilityColumnsWarmup(data.days, numerics);
      data.vol14
    }

    /** `Volatilidad_14_Dias_Anualizada`: NaN on exactly the first 13 rows. */
    function HistoricVol14DaysAnnualized(): (col: seq<Option<real>>)
      reads this
      requires Valid()
      ensures |col| == Count()
      ensures forall i :: 0 <= i < |col| ==> (col[i].Some? <==> i >= 13)
    {
      PreparedSeries(source);
      VolatilityColumnsWarmup(data.days, numerics);
      data.vol14Annualized
    }

    /** `SMA_126_Volatilidad_Anualizada`: NaN on exactly the first 138 rows. */
    function HistoricVolSma126(): (col: seq<Option<real>>)
      reads this
      requires Valid()
      ensures |col| == Count()
      ensures forall i :: 0 <= i < |col| ==> (col[i].Some? <==> i >= 138)
    {
      PreparedSeries(source);
      VolatilityColumnsWarmup(data.days, numerics);
      data.sma126
    }

    /** The date of the first row with the lowest annualized volatility; it
        raises exactly when the bars hold at most 14 distinct dates. */
    function MinVolDate(): (r: Result<Date, Error>)
      reads this
      requires Valid()
      ensures r.Failure? <==> |DateSet(source)| <= 14
      ensures r.Failure? ==> r.error == AllUndefined
      ensures r.Success? ==> exists i: nat :: IsFirstExtreme(data.vol14Annualized, Lowest, i) && r.value == Index()[i]
    {
      PreparedSeries(source);
      ExtremeVolDateFailsIffShort(data.days, numerics, Lowest);
      ExtremeVolDate(data, Lowest)
    }

    /** The date of the first row with the highest annualized volatility; it
        raises exactly when the bars hold at most 14 distinct dates. */
    function MaxVolDate(): (r: Result<Date, Error>)
      reads this
      requires Valid()
      ensures r.Failure? <==> |DateSet(source)| <= 14
      ensures r.Failure? ==> r.error == AllUndefined
      ensures r.Success? ==> exists i: nat :: IsFirstExtreme(data.vol14Annualized, Highest, i) && r.value == Index()[i]
    {
      PreparedSeries(source);
      ExtremeVolDateFailsIffShort(data.days, numerics, Highest);
      ExtremeVolDate(data, Highest)
    }

    /** The historic VaR figures are ordered and lie between the smallest and
        the largest return, and so does the mean. */
    lemma VarAndMeanOrdered()
      requires Valid() && Summarized()
      ensures minReturn <= varHistoric99_7 <= varHistoric99 <= varHistoric95 <= maxReturn
      ensures minReturn <= meanDailyReturn <= maxReturn
    {
      HistoricVarOrdered(data.days, numerics);
    }

    /** `max_dd` lies in `(-100, 0]` and is 0 exactly when the adjusted close
        never falls. */
    lemma MaxDdBounded()
      requires Valid() && Summarized()
      ensures -100.0 < maxDd <= 0.0
      ensures maxDd == 0.0 <==> NonDecreasing(AdjClose())
    {
      MaxDrawdownBounds(data.days, numerics);
    }

    /** The fields are what the analysis of `source` returns. */
    lemma MatchesAnalysis()
      requires Valid() && Summarized()
      ensures Analyze(source, numerics) == Success(Analysis(Summary(), data))
    {
      PreparedSeries(source);
    }

    /** With 252 returns and a power that is the identity at exponent 1,
        `cagr` equals `buy_and_hold_return`. */
    lemma OneYearCagr()
      requires Valid() && Summarized() && tradingDays == 252 && PowIdentityAtOne(numerics.pow)
      ensures cagr == buyAndHoldReturn
    {
      OneYearCagrIsBuyAndHold(data.days, numerics);
    }

    /** `dn` and `dp` average the range over the strictly falling and strictly
        rising rows whose high differs from their low. */
    lemma RangeMeans()
      requires Valid() && Summarized()
      ensures var qn := QualifyingRanges(data.days, Down);
              dn == if |qn| == 0 then None else Some(Mean(qn))
      ensures var qp := QualifyingRanges(data.days, Up);
              dp == if |qp| == 0 then None else Some(Mean(qp))
    {
      RangeMeansOverQualifyingDays(data.days, numerics);
    }

    /** With a positive `sqrt(252)`, annualizing moves no extreme: the lowest
        and the highest annualized volatility sit on the rows of the lowest
        and the highest 14-day volatility. */
    lemma ExtremesIgnoreAnnualizing()
      requires Valid() && numerics.sqrt(TradingDaysPerYear) > 0.0
      ensures MaskLookup(data.vol14Annualized, Lowest) == MaskLookup(data.vol14, Lowest)
      ensures MaskLookup(data.vol14Annualized, Highest) == MaskLookup(data.vol14, Highest)
    {
      MaskLookupOfScaled(data.vol14, Lowest, numerics.sqrt(TradingDaysPerYear));
      MaskLookupOfScaled(data.vol14, Highest, numerics.sqrt(TradingDaysPerYear));
    }
  }
}
