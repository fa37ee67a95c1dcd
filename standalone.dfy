/** The script `analyzer_standalone.py`: the same analysis as the classes,
    written as one pass over a global frame that is rebound and extended
    column by column. `Run` follows the script statement by statement and is
    proved to compute what the classes compute. */
module Standalone {
  import opened Wrappers
  import opened Bars
  import opened Preparation
  import opened Stats
  import opened Ranges
  import opened Rolling
  import opened Numerics
  import opened Pipeline

  /** The frame `df` as the script leaves it. */
  datatype Table = Table(
    days: seq<Day>,                   // the rows with `Adj Close`, `High`, `Low` and `Daily Return`
    dailyReturnPct: seq<real>,        // `Daily Return (%)`
    vol14: seq<Option<real>>,         // `Vol. Historica 14 Dias`
    volAnnualized: seq<Option<real>>, // `Vol. Anualizada`
    sma126: seq<Option<real>>,        // `SMA 126 Vol. Anualizada`
    negativeDays: seq<real>,          // `Negative Days`
    positiveDays: seq<real>)          // `Positive Days`

  /** The figures the script prints, before formatting: the statistics the
      classes also keep (the CAGR as printed, `100 * cagr`), the number of
      years, the annualized-volatility extremes with their dates, and the
      range ratio. */
  datatype Report = Report(
    years: real,
    stats: Statistics,
    minVol: real,
    maxVol: real,
    minVolDate: Date,
    maxVolDate: Date,
    ratio: Option<real>)

  datatype Output = Output(table: Table, report: Report)

  /** The columns the classes keep, in their frame. */
  function FrameOf(t: Table): Frame
  {
    Frame(t.days, t.vol14, t.volAnnualized, t.sma126, t.negativeDays, t.positiveDays)
  }

  /** `col.iloc[1:]` of a column whose cells after the first are defined. */
  function Rest(col: seq<Option<real>>): (vs: seq<real>)
    requires forall i :: 1 <= i < |col| ==> col[i].Some?
    ensures |vs| == if |col| == 0 then 0 else |col| - 1
    ensures forall i :: 0 <= i < |vs| ==> Some(vs[i]) == col[i + 1]
  {
    if |col| == 0 then [] else seq(|col| - 1, i requires 0 <= i < |col| - 1 => col[i + 1].value)
  }

  /** `df.iloc[1:]` of the frame with its `Daily Return` column. */
  function Trimmed(df: seq<Bar>, dailyReturn: seq<Option<real>>): (days: seq<Day>)
    requires |dailyReturn| == |df|
    requires forall i :: 1 <= i < |dailyReturn| ==> dailyReturn[i].Some?
    ensures |days| == |Rest(dailyReturn)|
  {
    var rets := Rest(dailyReturn);
    seq(|rets|, i requires 0 <= i < |rets| => Day(df[i + 1], rets[i]))
  }

  /** The frame trimmed after `pct_change` is the prepared frame of the
      classes: the returns are taken before the first row goes. */
  lemma TrimmedIsPrepared(df: seq<Bar>)
    requires PositivePrices(df)
    ensures forall i :: 1 <= i < |DailyReturns(df)| ==> DailyReturns(df)[i].Some?
    ensures Trimmed(df, DailyReturns(df)) == Prepare(df)
  {
    forall i | 1 <= i < |df| ensures DailyReturns(df)[i].Some? {
      DailyReturnsAt(df, i);
    }
    PreparedRows(df);
    PreparedIsTrimmedPctChange(df);
  }

  /** `Series.idxmin()` / `idxmax()` as a position: a scan that skips NaN
      and moves to a later cell only when it is strictly better, so that
      ties keep the earliest row. No position when every cell is NaN. */
  function ArgExtreme(col: seq<Option<real>>, e: Extremum): (r: Option<nat>)
    ensures r.None? <==> forall i :: 0 <= i < |col| ==> col[i].None?
    ensures r.Some? ==> IsFirstExtreme(col, e, r.value)
  {
    if col == [] then None
    else
      var n := |col| - 1;
      var r := ArgExtreme(col[..n], e);
      assert forall i :: 0 <= i < n ==> col[..n][i] == col[i];
      if col[n].None? then r
      else if r.None? || Beats(e, col[n].value, col[r.value].value) then Some(n)
      else r
  }

  /** `idxmin`/`idxmax` of the script and the mask lookup `[0]` of the
      classes find the same row. */
  lemma ArgExtremeIsMaskLookup(col: seq<Option<real>>, e: Extremum)
    ensures ArgExtreme(col, e) == MaskLookup(col, e)
  {
    MaskLookupFindsFirstExtreme(col, e);
    if ArgExtreme(col, e).Some? {
      FirstExtremeUnique(col, e, ArgExtreme(col, e).value, MaskLookup(col, e).value);
    }
  }

  /** `analyzer_standalone.py` lines 19-26: drop the rows of repeated dates,
      add `Daily Return` and `Daily Return (%)`, then drop the first row,
      whose return is NaN. */
  method PrepareFrame(bars: seq<Bar>) returns (days: seq<Day>, dailyReturnPct: seq<real>)
    requires PositivePrices(bars)
    ensures PositivePrices(Dedup(bars)) && days == Prepare(Dedup(bars))
    ensures |dailyReturnPct| == |days|
    ensures forall i :: 0 <= i < |days| ==> dailyReturnPct[i] == 100.0 * days[i].ret
  {
    DedupKeepsPositive(bars);
    var df := Dedup(bars);
    var dailyReturn := DailyReturns(df);
    var pct := Scale(dailyReturn, 100.0);
    TrimmedIsPrepared(df);
    days := Trimmed(df, dailyReturn);
    dailyReturnPct := Rest(pct);
  }

  /** `analyzer_standalone.py` lines 40-46: `years` counts the rows of the
      trimmed frame (`len(df)`); the CAGR (a fraction) and the buy-and-hold
      return (in percent) run from its first adjusted close to its last. */
  method GrowthFigures(days: seq<Day>, pow: (real, real) -> real) returns (years: real, cagr: real, buyAndHold: real)
    requires Analyzable(days)
    ensures var adj, n := AdjCloses(BarsOf(days)), |days|;
            && years * TradingDaysPerYear == n as real
            && 100.0 * cagr == Cagr(adj[0], adj[n - 1], n as real / TradingDaysPerYear, pow)
            && buyAndHold == BuyAndHold(adj[0], adj[n - 1])
  {
    var adj := AdjCloses(BarsOf(days));
    years := |days| as real / TradingDaysPerYear;
    cagr := pow(adj[|adj| - 1] / adj[0], 1.0 / years) - 1.0;
    buyAndHold := (adj[|adj| - 1] - adj[0]) / adj[0] * 100.0;
  }

  /** `analyzer_standalone.py` lines 51-54: the fall below the running peak,
      in percent, and its minimum. */
  method MaxDrawdownOf(adj: seq<real>) returns (maxDd: real)
    requires |adj| > 0 && AllPositive(adj)
    ensures maxDd == MaxDrawdown(adj)
    ensures -100.0 < maxDd <= 0.0
  {
    RunningPeakIsPrefixMax(adj);
    var previousMax := RunningPeak(adj);
    var drawdowns := seq(|adj|, i requires 0 <= i < |adj| => Fall(adj[i], previousMax[i]));
    maxDd := Min(drawdowns);
    MaxDrawdownWithin(adj);
  }

  /** `date` and `value` are those of the first row holding the lowest (or
      highest) defined entry of `col`. */
  ghost predicate IsExtremeRow(days: seq<Day>, col: seq<Option<real>>, e: Extremum, date: Date, value: real)
    requires |col| == |days|
  {
    exists i: nat :: IsFirstExtreme(col, e, i) && date == days[i].bar.date && value == col[i].value
  }

  /** `analyzer_standalone.py` lines 124-128: the date of `idxmin` (or
      `idxmax`) and the value of `min()` (or `max()`) of the annualized
      volatility. `idxmin` finds no row when the frame is too short for a
      14-row window, and `strftime` then fails. */
  method VolExtreme(days: seq<Day>, annualized: seq<Option<real>>, e: Extremum) returns (r: Result<(Date, real), Error>)
    requires |annualized| == |days|
    requires forall i :: 0 <= i < |days| ==> (annualized[i].Some? <==> i >= 13)
    ensures r.Failure? <==> |days| <= 13
    ensures r.Failure? ==> r.error == AllUndefined
    ensures r.Success? ==> IsExtremeRow(days, annualized, e, r.value.0, r.value.1)
  {
    var i := ArgExtreme(annualized, e);
    if |days| > 13 {
      assert annualized[13].Some?;
    }
    if i.None? {
      return Failure(AllUndefined);
    }
    var m := DefinedExtreme(annualized, e);
    assert m == Some(annualized[i.value].value) by {
      var k :| 0 <= k < |annualized| && annualized[k] == Some(m.value);
    }
    r := Success((days[i.value].bar.date, m.value));
  }

  /** `analyzer_standalone.py` lines 58-68: the mean, the sample standard
      deviation, the extremes and the count of the return column in percent,
      and its skewness and kurtosis: the figures the classes keep under the
      same names. */
  method DistributionFigures(days: seq<Day>, prims: Primitives)
    returns (meanDaily: real, stdDaily: Option<real>, minDaily: real, maxDaily: real, count: nat,
             skewness: real, kurtosis: real)
    requires Analyzable(days)
    ensures var want := Summarize(days, prims);
            && meanDaily == want.meanDailyReturn && stdDaily == want.stdDailyReturn
            && minDaily == want.minReturn && maxDaily == want.maxReturn && count == want.tradingDays
            && skewness == want.skewness && kurtosis == want.kurtosis
    ensures minDaily <= meanDaily <= maxDaily
    ensures stdDaily.Some? <==> |days| >= 2
  {
    var rets := ReturnsOf(days);
    MeanBetween(rets, Min(rets), Max(rets));
    meanDaily := Mean(rets) * 100.0;
    stdDaily := Times(SampleStd(rets, prims.sqrt), 100.0);
    minDaily, maxDaily, count := Min(rets) * 100.0, Max(rets) * 100.0, |rets|;
    skewness, kurtosis := prims.skew(rets), prims.kurt(rets);
  }

  /** `analyzer_standalone.py` lines 32, 73-81 and 118: the normal fit, the
      Gaussian and historic VaR in percent, and the annualized volatility. The
      historic figures are ordered from the widest confidence level outwards. */
  method RiskFigures(days: seq<Day>, prims: Primitives)
    returns (mu: real, sigma: real, gauss95: real, gauss99: real, gauss99_7: real,
             historic95: real, historic99: real, historic99_7: real, vam: Option<real>)
    requires Analyzable(days)
    ensures var want := Summarize(days, prims);
            && mu == want.mu && sigma == want.sigma
            && gauss95 == want.varGauss95 && gauss99 == want.varGauss99 && gauss99_7 == want.varGauss99_7
            && historic95 == want.varHistoric95 && historic99 == want.varHistoric99
            && historic99_7 == want.varHistoric99_7 && vam == want.vam
    ensures historic99_7 <= historic99 <= historic95
  {
    var rets := ReturnsOf(days);
    // the normal fit of the returns
    var fit := prims.normFit(rets);
    mu, sigma := fit.0, fit.1;
    // Gaussian VaR: the normal quantiles at 5%, 1% and 0.3%
    gauss95 := prims.normPpf(0.05, mu, sigma) * 100.0;
    gauss99 := prims.normPpf(0.01, mu, sigma) * 100.0;
    gauss99_7 := prims.normPpf(0.003, mu, sigma) * 100.0;
    // historic VaR: the percentiles 5, 1 and 0.3 of the returns
    PercentileMonotone(rets, 0.3, 1.0);
    PercentileMonotone(rets, 1.0, 5.0);
    historic95 := 100.0 * Percentile(rets, 5.0);
    historic99 := 100.0 * Percentile(rets, 1.0);
    historic99_7 := 100.0 * Percentile(rets, 0.3);
    // annualized volatility of the returns
    vam := Times(Times(SampleStd(rets, prims.sqrt), 100.0), prims.sqrt(TradingDaysPerYear));
  }

  /** `analyzer_standalone.py` lines 40-81, 118 and 132-141: the figures
      printed from the return column, and the two range columns with their
      means. They are the statistics the classes keep. */
  method PrintedFigures(days: seq<Day>, prims: Primitives)
    returns (years: real, st: Statistics, negative: seq<real>, positive: seq<real>)
    requires Analyzable(days)
    ensures years * TradingDaysPerYear == |days| as real
    ensures st == Summarize(days, prims)
    ensures negative == DirectionalColumn(days, Down) && positive == DirectionalColumn(days, Up)
  {
    var cagr, buyAndHold;
    years, cagr, buyAndHold := GrowthFigures(days, prims.pow);
    var maxDd := MaxDrawdownOf(AdjCloses(BarsOf(days)));
    var meanDaily, stdDaily, minDaily, maxDaily, count, skewness, kurtosis := DistributionFigures(days, prims);
    var mu, sigma, gauss95, gauss99, gauss99_7, historic95, historic99, historic99_7, vam := RiskFigures(days, prims);
    // the range columns of the falling and rising days, and their means
    negative := DirectionalColumn(days, Down);
    positive := DirectionalColumn(days, Up);
    st := Statistics(100.0 * cagr, buyAndHold, maxDd, meanDaily, stdDaily, minDaily, maxDaily, count,
                     skewness, kurtosis, mu, sigma, gauss95, gauss99, gauss99_7,
                     historic95, historic99, historic99_7, vam,
                     NonZeroMean(negative), NonZeroMean(positive));
  }

  /** `analyzer_standalone.py` lines 90-92: the 14-row volatility, its
      annualized copy and the 126-row moving average of that: the columns the
      classes add, undefined on exactly the first 13, 13 and 138 rows. */
  method VolatilityColumns(days: seq<Day>, prims: Primitives)
    returns (vol14: seq<Option<real>>, annualized: seq<Option<real>>, sma: seq<Option<real>>)
    requires Analyzable(days)
    ensures var f := AddColumns(days, prims);
            vol14 == f.vol14 && annualized == f.vol14Annualized && sma == f.sma126
    ensures |vol14| == |annualized| == |sma| == |days|
    ensures forall i :: 0 <= i < |days| ==>
              && (vol14[i].Some? <==> i >= 13)
              && (annualized[i].Some? <==> i >= 13)
              && (sma[i].Some? <==> i >= 138)
  {
    var rets := ReturnsOf(days);
    vol14 := Scale(RollingStd(rets, VolWindow, prims.sqrt), 100.0);
    annualized := Scale(vol14, prims.sqrt(TradingDaysPerYear));
    sma := RollingMean(annualized, SmaWindow);
    VolatilityWarmup(rets, prims.sqrt, 100.0, prims.sqrt(TradingDaysPerYear));
  }

  /** What the script prints and plots for the prepared frame `days`: the
      statistics and columns of the analysis, the return column in percent,
      the years, the ratio of the range means, and the dates and values of
      the lowest and highest annualized volatility. */
  ghost predicate IsScriptOutput(days: seq<Day>, prims: Primitives, out: Output)
    requires Analyzable(days)
  {
    var t, rep := out.table, out.report;
    && rep.stats == Summarize(days, prims)
    && FrameOf(t) == AddColumns(days, prims)
    && |t.dailyReturnPct| == |days| == |t.volAnnualized|
    && (forall i :: 0 <= i < |days| ==> t.dailyReturnPct[i] == 100.0 * days[i].ret)
    && rep.years * TradingDaysPerYear == |days| as real
    && rep.ratio == Ratio(rep.stats.dn, rep.stats.dp)
    && IsExtremeRow(days, t.volAnnualized, Lowest, rep.minVolDate, rep.minVol)
    && IsExtremeRow(days, t.volAnnualized, Highest, rep.maxVolDate, rep.maxVol)
  }

  /** `analyzer_standalone.py` lines 32-146 on the prepared frame: every
      printed figure, and the table the script plots. `strftime` fails when no
      14-row window fills, so that `idxmin` finds no row. */
  method Figures(days: seq<Day>, pct: seq<real>, prims: Primitives) returns (r: Result<Output, Error>)
    requires Analyzable(days)
    requires |pct| == |days| && forall i :: 0 <= i < |days| ==> pct[i] == 100.0 * days[i].ret
    ensures r.Failure? <==> |days| <= 13
    ensures r.Failure? ==> r.error == AllUndefined
    ensures r.Success? ==> IsScriptOutput(days, prims, r.value)
  {
    // the printed statistics and the range columns
    var years, st, negative, positive := PrintedFigures(days, prims);
    // the rolling volatility columns
    var vol14, annualized, sma := VolatilityColumns(days, prims);
    // the dates and values of the lowest and highest annualized volatility
    var lowest := VolExtreme(days, annualized, Lowest);
    var highest := VolExtreme(days, annualized, Highest);
    if lowest.Failure? || highest.Failure? {
      return Failure(AllUndefined);
    }
    // the ratio of the range means, then the plotted table and the report
    var ratio := Ratio(st.dn, st.dp);
    var table := Table(days, pct, vol14, annualized, sma, negative, positive);
    var report := Report(years, st, lowest.value.1, highest.value.1, lowest.value.0, highest.value.0, ratio);
    r := Success(Output(table, report));
  }

  /** The script from the fetched bars to its last print. It stops with
      `EmptySeries` at `iloc[-1]` when fewer than two distinct
      dates arrive, and with `AllUndefined` at `strftime` when no
      14-row window fills, so that `idxmin` finds no row. */
  method Run(bars: seq<Bar>, prims: Primitives) returns (r: Result<Output, Error>)
    requires PositivePrices(bars)
    ensures r.Failure? <==> |DateSet(bars)| <= 14
    ensures r.Failure? ==> r.error == if |DateSet(bars)| <= 1 then EmptySeries else AllUndefined
    ensures r.Success? ==> PositivePrices(Dedup(bars)) && Analyzable(Prepare(Dedup(bars)))
    ensures r.Success? ==>
              && Analyze(bars, prims) == Success(Analysis(r.value.report.stats, FrameOf(r.value.table)))
              && IsScriptOutput(Prepare(Dedup(bars)), prims, r.value)
  {
    PreparedSize(bars);
    // de-duplicate, add the return columns, drop the first row
    var days, pct := PrepareFrame(bars);
    // `iloc[-1]` raises on an empty frame
    if |days| == 0 {
      return Failure(EmptySeries);
    }
    r := Figures(days, pct, prims);
    if r.Success? {
      AnalyzeOf(bars, prims);
    }
  }
}
