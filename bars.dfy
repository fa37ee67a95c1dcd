/** The price bars the data source delivers and the rows of the prepared series. */
module Bars {

  /** A calendar day; only equality of dates matters to the analysis. */
  type Date = int

  /** One row of the Yahoo frame: the date index and the price columns. */
  datatype Bar = Bar(date: Date, open: real, high: real, low: real, close: real, adjClose: real)

  /** One row of the prepared frame: the bar and its `Daily Return`. */
  datatype Day = Day(bar: Bar, ret: real)

  /** The ways the analysis raises. */
  datatype Error =
    | EmptySeries   // `iloc[-1]` on a prepared frame with no rows (IndexError)
    | AllUndefined  // extremum lookup on a column whose values are all NaN

  /** Every adjusted close and every low is strictly positive, so that the
      divisions of the analysis are defined. */
  predicate PositivePrices(bars: seq<Bar>)
  {
    forall i :: 0 <= i < |bars| ==> bars[i].adjClose > 0.0 && bars[i].low > 0.0
  }

  /** The `Adj Close` column of a frame. */
  function AdjCloses(bars: seq<Bar>): (xs: seq<real>)
    ensures |xs| == |bars|
    ensures forall i :: 0 <= i < |bars| ==> xs[i] == bars[i].adjClose
  {
    seq(|bars|, i requires 0 <= i < |bars| => bars[i].adjClose)
  }

  /** The bars of the prepared frame. */
  function BarsOf(days: seq<Day>): (bars: seq<Bar>)
    ensures |bars| == |days|
    ensures forall i :: 0 <= i < |days| ==> bars[i] == days[i].bar
  {
    seq(|days|, i requires 0 <= i < |days| => days[i].bar)
  }

  /** The `Daily Return` column of the prepared frame. */
  function ReturnsOf(days: seq<Day>): (rets: seq<real>)
    ensures |rets| == |days|
    ensures forall i :: 0 <= i < |days| ==> rets[i] == days[i].ret
  {
    seq(|days|, i requires 0 <= i < |days| => days[i].ret)
  }

  /** The date index of the prepared frame. */
  function DatesOf(days: seq<Day>): (dates: seq<Date>)
    ensures |dates| == |days|
    ensures forall i :: 0 <= i < |days| ==> dates[i] == days[i].bar.date
  {
    seq(|days|, i requires 0 <= i < |days| => days[i].bar.date)
  }
}
