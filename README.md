# Time-series analyzer: a Dafny model

The repository analyzes the daily price history of one ticker. It fetches
the bars and drops repeated dates, keeping the first. It adds the daily
return of the adjusted close and drops the first row, whose return is
undefined. From what is left it computes:

- the growth figures: CAGR and buy-and-hold return;
- the largest drawdown below the running peak;
- the mean, sample standard deviation, minimum and maximum of the returns;
- the Gaussian and historic value-at-risk;
- a 14-row rolling volatility, its annualized copy and a 126-row moving
  average of that copy;
- the dates of the lowest and highest annualized volatility;
- the mean High-Low range of the falling and of the rising days, and
  their ratio.

The same pipeline appears three times:

- `analyzer.py`: class `TimeSeriesAnalyzer`, whose constructor computes
  everything;
- `ts_analyzer.py`: class `TimeSerieAnalyzer`, whose `perform_analysis`
  computes everything;
- `analyzer_standalone.py`: a top-level script that prints the figures.

The model has one set of pure modules and one module per source file:

| module | what it models |
|---|---|
| `Bars` | the bar record, the prepared row and the column projections |
| `Numerics` | the numeric primitives, passed in as function values |
| `Preparation` | de-duplication, `pct_change`, trimming and compounding |
| `Stats` | sum, mean, min/max, sample variance, sorting, linear-interpolation percentile, running peak and drawdown, CAGR and buy-and-hold |
| `Ranges` | the negative/positive range columns, their non-zero means and their ratio |
| `Rolling` | rolling std and mean with their warm-up, scaling, and the first-extremum lookups |
| `Pipeline` | the whole analysis (`Analyze`), the statistics record (`Summarize`) and the added columns (`AddColumns`), with the properties the three copies share |
| `Analyzer` | the class of `analyzer.py` |
| `TsAnalyzer` | the class of `ts_analyzer.py` |
| `Standalone` | the script, section by section |

Each class keeps the fields the source assigns. The constructor, or
`PerformAnalysis`, proves two predicates:

- `Valid()`: the frame is the analysis of the fetched bars;
- `Summarized()`: the scalar fields are its statistics.

The class lemmas derive the source's promises from these two predicates.
The script is a chain of methods, one per group of statements. `Run` is
proved to produce the statistics and columns of `Pipeline.Analyze`, so the
script and the classes compute the same figures.

Some operations cannot be computed over Dafny reals or are foreign calls:

- square root and fractional power;
- pandas `skew` and `kurt`;
- scipy `norm.fit` and `norm.ppf`.

These are fields of `Numerics.Primitives` and are applied, never defined.
Prices are exact reals. NaN is `None` of `Option`: a std over fewer than
two values, a rolling window that is not full, the mean of an empty
filtered column, and a ratio with an undefined or zero divisor.

`dn / dp` has no guard in the code; the model returns `None` where it
would give `inf` or NaN (see `Ranges.Ratio` under "## Left out").

## Model

| member | source | states |
|---|---|---|
| Preparation.Dedup | analyzer.py:13 | dropping repeated dates never lengthens the series |
| Preparation.DedupKeepsFirstInOrder | analyzer.py:13 | the kept rows are, in source order, exactly the first occurrence of each date (`keep='first'`), at increasing source indices |
| Preparation.DedupKeepsDates | ts_analyzer.py:19 | every date of the raw bars survives de-duplication, and no new one appears |
| Preparation.DedupDistinct | analyzer_standalone.py:19 | after de-duplication no two rows share a date |
| Preparation.DedupOfDistinct | analyzer.py:13 | bars without repeated dates are left unchanged |
| Preparation.DedupIdempotent | analyzer_standalone.py:19 | de-duplicating twice equals de-duplicating once |
| Preparation.DistinctDatesCount | analyzer.py:13 | a series without repeated dates has one row per distinct date |
| Preparation.DailyReturns | analyzer_standalone.py:22 | `pct_change` has one cell per row |
| Preparation.PctChange | analyzer.py:14 | the simple return `cur / prev - 1` of one row; `GrowthUndoesReturn` proves that growing `prev` by it gives back `cur` |
| Preparation.Prepare | analyzer.py:13-15 | the trimmed frame; `PreparedIsTrimmedPctChange` proves its returns are the `pct_change` column without its first cell, and `ReturnsCompoundToPrices` that each return carries the previous close to the next |
| Preparation.PreparedIsTrimmedPctChange | analyzer.py:14-15 | the trimmed returns are the defined `pct_change` cells from the second row on |
| Preparation.ReturnsCompoundToPrices | ts_analyzer.py:20-21 | each adjusted close is the previous one grown by the row's return |
| Preparation.GrowthUndoesReturn | analyzer.py:14 | growing a price by its percent change gives back the next price |
| Preparation.PreparedEmptyIffOneDate | analyzer.py:15-18 | the trimmed frame is empty exactly when the bars hold at most one distinct date, the case where `iloc[-1]` raises |
| Preparation.DedupKeepsPositive | analyzer.py:13 | de-duplication keeps prices positive |
| Preparation.PreparedPositive | analyzer.py:15 | trimming keeps prices positive |
| Preparation.PreparedChained | analyzer.py:14-15 | in the trimmed frame each row's price is the previous row's price grown by its return |
| Preparation.CompoundFromFirstRow | analyzer.py:18-19 | the adjusted close at row k is the first row's close times the compounded returns of rows 1 to k |
| Pipeline.PreparedSeries | analyzer.py:13-15 | the prepared frame has one row per distinct date but the first, the dates are distinct, and each return is the change against the preceding distinct bar; it can be analyzed exactly when there are two distinct dates |
| Pipeline.PreparedSize | ts_analyzer.py:19-21 | the prepared frame's length is the number of distinct dates less one |
| Pipeline.PreparedDistinct | analyzer.py:15 | trimming keeps the dates distinct |
| Stats.Min | analyzer.py:28 | `min()` is one of the values and no value is below it |
| Stats.Mean | analyzer.py:26 | `mean()` of the returns; `MeanBetween` and `MeanWithin` prove it lies between any bounds of the values, in particular between `min()` and `max()` |
| Stats.Max | analyzer.py:29 | `max()` is one of the values and no value is above it |
| Stats.MeanBetween | analyzer.py:26 | a mean lies within any bounds of its values |
| Stats.MeanWithin | analyzer.py:26-29 | the mean lies between the minimum and the maximum |
| Stats.SampleVariance | analyzer.py:27 | the `ddof=1` variance is never negative |
| Stats.SampleStd | analyzer.py:27 | `std(ddof=1)` is defined exactly when there are at least two values |
| Stats.ConstantHasZeroVariance | analyzer.py:26-27 | a constant return column has that constant as its mean and zero variance |
| Stats.Insert | analyzer.py:42 | inserting into a sorted column keeps it sorted and adds exactly that one value |
| Stats.Sort | analyzer.py:42-44 | the sort that `np.percentile` performs returns a sorted permutation of the returns |
| Stats.SortedEnds | analyzer.py:42-44 | the sorted returns start at the minimum and end at the maximum |
| Stats.Rank | analyzer.py:42-44 | the fractional rank `(n-1)*q/100` lies within the row range |
| Stats.RankMonotone | analyzer.py:42-44 | a larger `q` gives a larger rank |
| Stats.InterpolateWithin | analyzer.py:42-44 | linear interpolation of a sorted column stays between its first and last values |
| Stats.InterpolateMonotone | analyzer.py:42-44 | linear interpolation of a sorted column is monotone in the rank |
| Stats.PercentileWithin | analyzer.py:42-44 | every percentile lies between the minimum and the maximum return |
| Stats.PercentileMonotone | ts_analyzer.py:46-48 | percentiles are monotone in `q` |
| Stats.PercentileEnds | analyzer.py:42-44 | the 0th percentile is the minimum and the 100th the maximum |
| Stats.Percentile | analyzer.py:42-44 | `np.percentile` with linear interpolation over the sorted column; `PercentileWithin`, `PercentileMonotone` and `PercentileEnds` prove it lies between min and max, grows with `q`, and is min at 0 and max at 100 |
| Stats.RunningPeak | analyzer.py:21 | `cummax` has one cell per row |
| Stats.RunningPeakIsPrefixMax | analyzer.py:21 | `cummax` never decreases, is at least every earlier close, and is one of the closes so far |
| Stats.RunningPeakOfNonDecreasing | ts_analyzer.py:27 | on a never-falling series `cummax` is the series itself |
| Stats.Fall | analyzer.py:22 | the drawdown of one close below its peak in percent; `FallWithin` proves it lies in (-100, 0] and is 0 exactly at the peak |
| Stats.FallWithin | analyzer.py:22 | a fall below a positive peak lies in (-100, 0] and is 0 exactly at the peak |
| Stats.Drawdowns | analyzer.py:22 | the drawdown column has one cell per row |
| Stats.DrawdownsWithin | analyzer.py:22 | each drawdown lies in (-100, 0] and is 0 exactly where the close is at its running peak |
| Stats.MinZeroIffAllZero | analyzer.py:24 | a minimum of non-positive values is 0 exactly when all are 0 |
| Stats.AtPeakIffNonDecreasing | ts_analyzer.py:27-30 | the close is at its running peak on every row exactly when it never falls |
| Stats.MaxDrawdown | analyzer.py:21-24 | `np.min` of the drawdown column; `MaxDrawdownWithin` and `MaxDrawdownZeroIffNonDecreasing` prove it lies in (-100, 0] and is 0 exactly when the close never falls |
| Stats.MaxDrawdownWithin | analyzer_standalone.py:51-54 | the maximum drawdown lies in (-100, 0] |
| Stats.MaxDrawdownZeroIffNonDecreasing | analyzer.py:21-24 | the maximum drawdown is 0 exactly when the close never falls |
| Stats.BuyAndHold | analyzer.py:19 | the buy-and-hold return in percent; `GrowthReturn` and `BuyAndHoldCompoundsLaterReturns` prove it is the compounded later returns less one |
| Stats.Cagr | analyzer.py:17-18 | the CAGR in percent with the power supplied; `CagrOverOneYear` proves it equals buy-and-hold over one year |
| Stats.CagrOverOneYear | analyzer.py:17-19 | over one year, with a power that is the identity at exponent 1, the CAGR equals the buy-and-hold return |
| Pipeline.Analyze | analyzer.py:13-60 | the whole analysis fails, with the `iloc[-1]` error, exactly when the bars hold at most one distinct date |
| Pipeline.Summarize | analyzer.py:17-58 | every scalar figure of the class; `HistoricVarOrdered`, `MaxDrawdownBounds`, `OneYearCagrIsBuyAndHold` and `RangeMeansOverQualifyingDays` prove what the figures promise |
| Pipeline.AddColumns | analyzer.py:46-56 | the added columns; `VolatilityColumnsWarmup` proves their NaN warm-up and `FilteredColumnIsQualifyingRanges` what the range columns hold |
| Pipeline.Times | analyzer.py:27 | scaling a possibly-NaN figure keeps it NaN exactly when it was NaN |
| Pipeline.HistoricVarOrdered | analyzer.py:42-44 | `min_return <= var_historic_99_7 <= var_historic_99 <= var_historic_95 <= max_return`, and the mean lies between min and max |
| Pipeline.MaxDrawdownBounds | analyzer.py:21-24 | `max_dd` lies in (-100, 0] and is 0 exactly when the adjusted close never falls |
| Pipeline.GrowthOfPrepared | analyzer.py:17-19 | CAGR and buy-and-hold run from the second distinct bar (the first row of the trimmed frame) to the last, not from the first raw bar |
| Pipeline.BuyAndHoldCompoundsLaterReturns | analyzer.py:19 | the buy-and-hold return is the compounded return of every row after the first, less one, in percent |
| Pipeline.ChainedBuyAndHold | ts_analyzer.py:25 | over a chained frame, buy-and-hold from first to last close is the compounded later returns |
| Pipeline.GrowthReturn | analyzer.py:19 | a price grown by factor g has a buy-and-hold return of (g-1)*100 |
| Pipeline.OneYearCagrIsBuyAndHold | analyzer.py:17-19 | with 252 returns (one year), `cagr` equals `buy_and_hold_return` |
| Pipeline.VolatilityColumnsWarmup | analyzer.py:46-48 | the 14-row and annualized volatilities are NaN on exactly the first 13 rows, the 126-row average on exactly the first 138 |
| Pipeline.RangeMeansOverQualifyingDays | analyzer.py:52-58 | `dn` (`dp`) is the mean range of the strictly falling (rising) rows whose high differs from their low, NaN when there are none |
| Pipeline.ExtremeVolDate | analyzer.py:86-90 | the mask lookup fails exactly when no annualized volatility is defined, and otherwise returns the date of the first row holding the min (max) |
| Pipeline.ExtremeVolDateFailsIffShort | analyzer.py:86-90 | the lookup fails exactly when the frame has at most 13 rows |
| Ranges.RangeZeroIffFlat | analyzer.py:52 | the percent range is 0 exactly when high equals low, and never negative when high is at least low |
| Ranges.RangePct | analyzer.py:52 | `100 * (High - Low) / Low`; `RangeZeroIffFlat` proves it is 0 exactly on a flat day and never negative when high is at least low |
| Ranges.DirectionalColumn | analyzer.py:52-56 | the range columns have one cell per row |
| Ranges.NonZero | analyzer.py:53 | filtering `!= 0` keeps only non-zero cells and is empty exactly when every cell is 0 |
| Ranges.CountNonZero | analyzer.py:53 | the non-zero count is at most the row count |
| Ranges.FilterKeepsSumAndCount | analyzer.py:53-54 | the filtered column has as many cells as there are non-zero cells, and the same sum as the whole column |
| Ranges.NonZeroMean | analyzer.py:53-54 | the mean of the non-zero cells; `NonZeroMeanIsFilteredMean` proves it is pandas' mean of the filtered column, NaN exactly when no cell is non-zero |
| Ranges.NonZeroMeanIsFilteredMean | analyzer.py:53-54 | the mean over the non-zero cells is the mean of the filtered column, NaN exactly when no cell is non-zero |
| Ranges.FilteredColumnIsQualifyingRanges | analyzer.py:52-53 | the filtered column lists, in order, the ranges of the rows that move in the direction and have a non-zero range |
| Ranges.DirectionalMeanIsQualifyingMean | ts_analyzer.py:56-62 | `_DN` (`_DP`) is the mean of those qualifying ranges |
| Ranges.FlatReturnInNeitherColumn | analyzer.py:52-56 | a row with zero return contributes to neither column |
| Ranges.NoMoveNoMean | analyzer_standalone.py:132-141 | with no row moving in the direction, the mean is NaN |
| Ranges.Ratio | analyzer.py:62-63 | `dn / dp` is defined exactly when both means are and `dp` is not 0, and then times `dp` it gives `dn` |
| Ranges.RatioDefinedIffBothSides | analyzer.py:52-63 | when highs are at least lows, both means are positive when defined, and the ratio is defined exactly when both are |
| Ranges.PositiveMean | ts_analyzer.py:56-62 | when highs are at least lows, each range mean is positive when defined |
| Ranges.NonZeroOfNonNegative | analyzer.py:53 | filtering a non-negative column leaves only positive cells |
| Ranges.MeanOfPositive | analyzer.py:54 | a mean of positive values is positive |
| Rolling.RollingStd | analyzer.py:46 | `rolling(14).std()` has one cell per row |
| Rolling.Scale | analyzer.py:47 | scaling a column keeps its length and its NaN cells |
| Rolling.Values | analyzer.py:48 | the values of a fully defined window, one per cell |
| Rolling.RollingMean | analyzer.py:48 | `rolling(126).mean()` has one cell per row |
| Rolling.RollingStdWarmup | analyzer.py:46 | a w-row rolling std is NaN on exactly the first w-1 rows |
| Rolling.RollingMeanWarmup | analyzer.py:48 | over a column NaN on its first u rows, a w-row mean is NaN on exactly the first u+w-1 rows |
| Rolling.VolatilityWarmup | analyzer_standalone.py:90-92 | the three volatility columns are NaN on exactly the first 13, 13 and 138 rows |
| Rolling.DefinedExtreme | analyzer.py:86-90 | `min()`/`max()` skip NaN: undefined exactly when every cell is NaN, otherwise a cell's value that no defined cell beats |
| Rolling.FirstIndexOf | analyzer.py:87 | the first position at or after `from` holding the value, or none |
| Rolling.MaskLookup | analyzer.py:87 | the row of the mask `col == col.min()` then `[0]`; `MaskLookupFindsFirstExtreme` proves it fails exactly when every cell is NaN and otherwise is the first row at the extremum |
| Rolling.MaskLookupFindsFirstExtreme | analyzer.py:86-90 | the mask `== min()` then `[0]` fails exactly when every cell is NaN, and otherwise finds the first row attaining the extremum |
| Rolling.FirstExtremeUnique | ts_analyzer.py:90-94 | there is only one first row attaining an extremum |
| Rolling.ScaleKeepsBeats | analyzer.py:47 | scaling by a positive constant preserves which value is better |
| Rolling.ScaleKeepsFirstExtreme | analyzer.py:47 | scaling by a positive constant keeps the first extremum's row |
| Rolling.MaskLookupOfScaled | analyzer.py:47 | scaling a column by a positive factor leaves the mask lookup's row unchanged |
| Analyzer.TimeSeriesAnalyzer.constructor | analyzer.py:11-60 | after construction the frame is the analysis of the fetched bars and every scalar field holds its statistic |
| Analyzer.TimeSeriesAnalyzer.Create | analyzer.py:11-18 | construction fails with the `iloc[-1]` error exactly when the bars hold at most one distinct date, and otherwise yields a valid, summarized object of these bars and primitives |
| Analyzer.TimeSeriesAnalyzer.Store | analyzer.py:17-60 | sets `data` and every scalar field |
| Analyzer.TimeSeriesAnalyzer.StoreStatistics | analyzer.py:17-58 | the scalar fields become the given statistics |
| Analyzer.TimeSeriesAnalyzer.StoreReturnFigures | analyzer.py:17-33 | sets the growth, drawdown and return fields |
| Analyzer.TimeSeriesAnalyzer.StoreRiskFigures | analyzer.py:35-58 | sets the fit, value-at-risk, volatility and range-mean fields |
| Analyzer.TimeSeriesAnalyzer.PosNegDaysRatio | analyzer.py:62-63 | `dn / dp` is defined exactly when both are and `dp` is not 0, and then times `dp` it gives `dn` |
| Analyzer.TimeSeriesAnalyzer.Count | analyzer.py:68-69 | `len(data)` is the number of distinct dates less one, at least 1 |
| Analyzer.TimeSeriesAnalyzer.DailyReturn | analyzer.py:65-66 | each return is the change against the preceding distinct bar |
| Analyzer.TimeSeriesAnalyzer.Index | analyzer.py:71-72 | the index is the distinct dates in source order without the first, with no repeats |
| Analyzer.TimeSeriesAnalyzer.AdjClose | analyzer.py:74-75 | the adjusted closes of the distinct bars without the first, all positive |
| Analyzer.TimeSeriesAnalyzer.HistoricVol14Days | analyzer.py:77-78 | one cell per row, NaN on exactly the first 13 |
| Analyzer.TimeSeriesAnalyzer.HistoricVol14DaysAnnualized | analyzer.py:80-81 | one cell per row, NaN on exactly the first 13 |
| Analyzer.TimeSeriesAnalyzer.HistoricVolSma126 | analyzer.py:83-84 | one cell per row, NaN on exactly the first 138 |
| Analyzer.TimeSeriesAnalyzer.MinVolDate | analyzer.py:86-87 | fails, with every cell NaN, exactly when the bars hold at most 14 distinct dates, and otherwise is the index date of the first row with the lowest annualized volatility |
| Analyzer.TimeSeriesAnalyzer.MaxVolDate | analyzer.py:89-90 | fails, with every cell NaN, exactly when the bars hold at most 14 distinct dates, and otherwise is the index date of the first row with the highest annualized volatility |
| Analyzer.TimeSeriesAnalyzer.VarAndMeanOrdered | analyzer.py:26-44 | the historic VaR ladder and the mean lie between `min_return` and `max_return`, ordered |
| Analyzer.TimeSeriesAnalyzer.MaxDdBounded | analyzer.py:21-24 | `max_dd` lies in (-100, 0] and is 0 exactly when the adjusted close never falls |
| Analyzer.TimeSeriesAnalyzer.MatchesAnalysis | analyzer.py:13-60 | the object's fields are what the analysis of the fetched bars returns |
| Analyzer.TimeSeriesAnalyzer.OneYearCagr | analyzer.py:17-19 | with 252 trading days, `cagr == buy_and_hold_return` |
| Analyzer.TimeSeriesAnalyzer.RangeMeans | analyzer.py:52-58 | `dn` and `dp` are the means of the qualifying falling and rising ranges |
| Analyzer.TimeSeriesAnalyzer.ExtremesIgnoreAnnualizing | analyzer.py:46-47 | when `252 ** 0.5` is positive, the lowest and highest annualized volatility sit on the rows of the lowest and highest 14-day volatility |
| TsAnalyzer.TimeSerieAnalyzer.constructor | ts_analyzer.py:11-15 | keeps the ticker and the date range, then leaves a valid, summarized object; the raising case is reported by `Create` |
| TsAnalyzer.TimeSerieAnalyzer.Create | ts_analyzer.py:11-24 | construction fails with the `iloc[-1]` error exactly when the bars hold at most one distinct date, and otherwise yields a valid, summarized object of these bars and primitives, for the ticker and range |
| TsAnalyzer.TimeSerieAnalyzer.PerformAnalysis | ts_analyzer.py:17-64 | fails with the `iloc[-1]` error, setting nothing, exactly when the bars hold at most one distinct date; otherwise the frame becomes the analysis of the bars and every figure its statistic |
| TsAnalyzer.TimeSerieAnalyzer.Store | ts_analyzer.py:23-64 | sets `_data` and every figure |
| TsAnalyzer.TimeSerieAnalyzer.StoreFrame | ts_analyzer.py:64 | sets `_data` |
| TsAnalyzer.TimeSerieAnalyzer.StoreFigures | ts_analyzer.py:23-62 | every figure becomes the given statistic |
| TsAnalyzer.TimeSerieAnalyzer.StoreReturnFigures | ts_analyzer.py:23-39 | sets the growth, drawdown and return figures |
| TsAnalyzer.TimeSerieAnalyzer.StoreRiskFigures | ts_analyzer.py:41-62 | sets the value-at-risk, volatility and range-mean figures |
| TsAnalyzer.TimeSerieAnalyzer.PosNegDaysRatio | ts_analyzer.py:66-67 | `_DN / _DP` is defined exactly when both are and `_DP` is not 0, and then times `_DP` it gives `_DN` |
| TsAnalyzer.TimeSerieAnalyzer.DailyReturn | ts_analyzer.py:69-70 | one return per distinct date but the first, each the change against the preceding distinct bar |
| TsAnalyzer.TimeSerieAnalyzer.Count | ts_analyzer.py:72-73 | the number of distinct dates less one, at least 1 |
| TsAnalyzer.TimeSerieAnalyzer.Index | ts_analyzer.py:75-76 | the distinct dates in source order without the first, with no repeats |
| TsAnalyzer.TimeSerieAnalyzer.AdjClose | ts_analyzer.py:78-79 | the adjusted closes of the distinct bars without the first, all positive |
| TsAnalyzer.TimeSerieAnalyzer.HistoricVol14Days | ts_analyzer.py:81-82 | NaN on exactly the first 13 rows |
| TsAnalyzer.TimeSerieAnalyzer.HistoricVol14DaysAnnualized | ts_analyzer.py:84-85 | NaN on exactly the first 13 rows |
| TsAnalyzer.TimeSerieAnalyzer.HistoricVolSma126 | ts_analyzer.py:87-88 | NaN on exactly the first 138 rows |
| TsAnalyzer.TimeSerieAnalyzer.MinVolDate | ts_analyzer.py:90-91 | fails exactly when the frame has at most 13 rows, and otherwise is the date of the first row with the lowest annualized volatility |
| TsAnalyzer.TimeSerieAnalyzer.MaxVolDate | ts_analyzer.py:93-94 | fails exactly when the frame has at most 13 rows, and otherwise is the date of the first row with the highest annualized volatility |
| TsAnalyzer.TimeSerieAnalyzer.SummaryProperties | ts_analyzer.py:27-62 | the VaR ladder and the mean lie between the extreme returns, `_max_dd` lies in (-100, 0] and is 0 exactly for a never-falling close, and `_DN`/`_DP` average the qualifying ranges |
| TsAnalyzer.TimeSerieAnalyzer.OneYearCagr | ts_analyzer.py:23-25 | with 252 returns, `_cagr == _buy_and_hold_return` |
| Standalone.Rest | analyzer_standalone.py:26 | `iloc[1:]` of a column keeps every cell after the first |
| Standalone.Trimmed | analyzer_standalone.py:26 | the trimmed frame has one row per defined return |
| Standalone.TrimmedIsPrepared | analyzer_standalone.py:22-26 | taking the returns and then dropping the first row gives the classes' prepared frame |
| Standalone.ArgExtreme | analyzer_standalone.py:124-125 | `idxmin`/`idxmax` skip NaN, find nothing exactly when every cell is NaN, and otherwise the first row attaining the extremum |
| Standalone.ArgExtremeIsMaskLookup | analyzer_standalone.py:124-125 | `idxmin`/`idxmax` and the classes' mask lookup find the same row |
| Standalone.PrepareFrame | analyzer_standalone.py:19-26 | the frame is the classes' prepared frame, and `Daily Return (%)` is 100 times `Daily Return` on every row |
| Standalone.GrowthFigures | analyzer_standalone.py:40-46 | `years = len(df)/252`, and the CAGR (as a fraction) and buy-and-hold run from the first to the last adjusted close |
| Standalone.MaxDrawdownOf | analyzer_standalone.py:51-54 | the printed drawdown is the maximum drawdown, in (-100, 0] |
| Standalone.VolExtreme | analyzer_standalone.py:124-128 | fails exactly when the frame has at most 13 rows, and otherwise gives the date and value of the first lowest (highest) annualized volatility |
| Standalone.DistributionFigures | analyzer_standalone.py:58-68 | the printed mean, std, min, max, count, skewness and kurtosis are the classes' figures; the mean lies between min and max, and the std is defined exactly from two rows on |
| Standalone.RiskFigures | analyzer_standalone.py:73-81 | the printed Gaussian and historic VaR and the annualized volatility are the classes' figures, and the historic ones are ordered |
| Standalone.PrintedFigures | analyzer_standalone.py:40-81 | every printed statistic is the classes' statistic (CAGR shown as `100 * cagr`), and the range columns are the classes' columns |
| Standalone.VolatilityColumns | analyzer_standalone.py:90-92 | the three volatility columns are the classes' columns, NaN on exactly the first 13, 13 and 138 rows |
| Standalone.Figures | analyzer_standalone.py:32-146 | on the prepared frame: fails exactly when it has at most 13 rows; otherwise prints the classes' statistics, the years, the ratio `ND/PD`, and the first rows of the extreme volatilities |
| Standalone.Run | analyzer_standalone.py:17-146 | the script stops at `iloc[-1]` with at most one distinct date, and at `strftime` with at most 14; otherwise its output is the classes' analysis of the same bars |

## Left out

- Data retrieval is not modelled. The `pandas_datareader` fetch (`analyzer.py:12`, `ts_analyzer.py:18`, `analyzer_standalone.py:17`) is network I/O, so the bars are a parameter. The ticker and dates of `ts_analyzer.py` are kept only as constant fields.
- Square root, fractional power, `skew`, `kurt`, `norm.fit` and `norm.ppf` are foreign or irrational. They are fields of `Numerics.Primitives`. Proofs use two hypotheses about them: that `x ** 1 == x` (`OneYearCagr` and `OneYearCagrIsBuyAndHold`), and that `252 ** 0.5` is positive (`Analyzer.TimeSeriesAnalyzer.ExtremesIgnoreAnnualizing`).
- The Gaussian VaR figures are stored unchanged, with no ordering proved, because nothing is known of `norm.ppf`.
- Floating point is not modelled: prices are exact reals and NaN is `None`. Overflow, rounding, and NaN arising from other sources are out of scope.
- Prices must be positive: every adjusted close and low above 0 (`Bars.PositivePrices`). With a zero price numpy divides to `inf`, which exact reals cannot represent.
- Ranges.Ratio: where pandas yields `inf` or NaN, because `dp` is 0 or NaN, the model gives `None`. The source divides without a guard. With highs at least lows, `dp` is never 0 when defined (`Ranges.RatioDefinedIffBothSides`).
- Analyzer.TimeSeriesAnalyzer.constructor requires at least two distinct dates, because a Dafny constructor cannot fail. With fewer the source raises at `iloc[-1]`, and `Analyzer.TimeSeriesAnalyzer.Create` reports that case as `EmptySeries`.
- TsAnalyzer.TimeSerieAnalyzer.constructor requires at least two distinct dates for the same reason. `TsAnalyzer.TimeSerieAnalyzer.Create` reports the failure as `EmptySeries`, and `PerformAnalysis` itself returns it without changing any field.
- TsAnalyzer.TimeSerieAnalyzer keeps `mu` and `sigma` as ghost fields. The source uses them only as locals, and the ghost copy lets the record of figures be shared with the other class.
- The classes compute `years` from `count()` and the script from `len(df)`. Both equal the number of rows, because every return is defined once the first row is dropped and prices are positive.
- Ranges.NonZeroMean is computed as the column sum over the number of non-zero cells. `Ranges.NonZeroMeanIsFilteredMean` proves it equal to pandas' mean of the filtered column.
- Standalone.Run reports an empty frame as the error at `iloc[-1]` (line 41). In the script `norm.fit` (line 32) or `displot` (line 30) may raise first. Either way the script stops before printing a figure.
- Printing and presentation are not modelled. This covers `'%.6s'` formatting, `print` and `df.tail()`, `strftime`, and all plotting (matplotlib, seaborn, `register_matplotlib_converters`). `strftime`'s failure on a missing `idxmin` row is modelled as `AllUndefined`.
- `ui.py`, `main.py` and `style.py` are not part of this model. They are the Dash front end, its callbacks and styling.
- The pandas frame is not modelled as one mutable table. The classes keep the prepared rows and the added columns in a `Frame` record. The script passes its columns from section to section, and `Run` returns them as a `Table`. The order in which columns are added in place is therefore not captured.
