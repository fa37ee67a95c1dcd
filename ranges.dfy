/** The High–Low range of down days and of up days: the `DiasNegativos` /
    `DiasPositivos` columns, the means of their non-zero cells, and the
    ratio of the two means. */
module Ranges {
  import opened Wrappers
  import opened Bars
  import opened Stats

  /** Which days a column looks at: those that closed down or those that closed up. */
  datatype Direction = Down | Up

  /** The day's return is strictly negative (Down) or strictly positive (Up). */
  predicate Moves(dir: Direction, ret: real)
  {
    match dir
    case Down => ret < 0.0
    case Up => ret > 0.0
  }

  predicate LowsPositive(days: seq<Day>)
  {
    forall i :: 0 <= i < |days| ==> days[i].bar.low > 0.0
  }

  /** The day's range as a percentage of its low: `100 * (High - Low) / Low`. */
  function RangePct(b: Bar): real
    requires b.low > 0.0
  {
    100.0 * (b.high - b.low) / b.low
  }

  /** The range is zero exactly on a day whose high equals its low. */
  lemma RangeZeroIffFlat(b: Bar)
    requires b.low > 0.0
    ensures RangePct(b) == 0.0 <==> b.high == b.low
    ensures b.high >= b.low ==> RangePct(b) >= 0.0
  {
  }

  /** `np.where(<return moves in dir>, 100 * (High - Low) / Low, 0)`. */
  function DirectionalColumn(days: seq<Day>, dir: Direction): (col: seq<real>)
    requires LowsPositive(days)
    ensures |col| == |days|
  {
    seq(|days|, i requires 0 <= i < |days| => if Moves(dir, days[i].ret) then RangePct(days[i].bar) else 0.0)
  }

  /** `col[col != 0]`: the non-zero cells, in order. */
  function NonZero(col: seq<real>): (r: seq<real>)
    ensures |r| <= |col|
    ensures forall k :: 0 <= k < |r| ==> r[k] != 0.0
    ensures |r| == 0 <==> forall i :: 0 <= i < |col| ==> col[i] == 0.0
  {
    if col == [] then []
    else
      var p := NonZero(col[..|col| - 1]);
      assert forall i :: 0 <= i < |col| - 1 ==> col[..|col| - 1][i] == col[i];
      if col[|col| - 1] != 0.0 then p + [col[|col| - 1]] else p
  }

  /** The number of non-zero cells of a column. */
  function CountNonZero(col: seq<real>): (c: nat)
    ensures c <= |col|
  {
    if col == [] then 0
    else CountNonZero(col[..|col| - 1]) + (if col[|col| - 1] != 0.0 then 1 else 0)
  }

  /** `col[col != 0].mean()`: NaN (`None`) when every cell is zero. The zero
      cells add nothing to the sum, so the mean of the others is the sum of
      the column over their count; `NonZeroMeanIsFilteredMean` shows this is
      the mean of the filtered column. */
  function NonZeroMean(col: seq<real>): (r: Option<real>)
  {
    var c := CountNonZero(col);
    if c == 0 then None else Some(Sum(col) / c as real)
  }

  /** Filtering out the zero cells keeps the sum and leaves as many cells
      as `CountNonZero` counts. */
  lemma {:induction false} FilterKeepsSumAndCount(col: seq<real>)
    ensures |NonZero(col)| == CountNonZero(col)
    ensures Sum(NonZero(col)) == Sum(col)
  {
    if col != [] {
      var n := |col| - 1;
      FilterKeepsSumAndCount(col[..n]);
      var p := NonZero(col[..n]);
      if col[n] != 0.0 {
        assert (p + [col[n]])[..|p|] == p;
      }
    }
  }

  /** `NonZeroMean` is the mean of the filtered column, NaN when that is
      empty, and the filtered column is empty exactly when every cell is
      zero. */
  lemma NonZeroMeanIsFilteredMean(col: seq<real>)
    ensures var nz := NonZero(col);
            NonZeroMean(col) == if |nz| == 0 then None else Some(Mean(nz))
    ensures NonZeroMean(col).Some? <==> exists i :: 0 <= i < |col| && col[i] != 0.0
  {
    FilterKeepsSumAndCount(col);
  }

  /** The reference definition: the ranges of the days that moved in `dir`
      and whose high differs from their low, in order. */
  function QualifyingRanges(days: seq<Day>, dir: Direction): seq<real>
    requires LowsPositive(days)
  {
    if days == [] then []
    else
      var last := days[|days| - 1];
      QualifyingRanges(days[..|days| - 1], dir)
        + (if Moves(dir, last.ret) && last.bar.high != last.bar.low then [RangePct(last.bar)] else [])
  }

  /** Filtering the `np.where` column by "non-zero" keeps exactly the ranges
      of the days that moved in `dir` with a non-zero range: days with a zero
      return are in neither column, and flat days are dropped too. */
  lemma {:induction false} FilteredColumnIsQualifyingRanges(days: seq<Day>, dir: Direction)
    requires LowsPositive(days)
    ensures NonZero(DirectionalColumn(days, dir)) == QualifyingRanges(days, dir)
  {
    if days != [] {
      var n := |days| - 1;
      FilteredColumnIsQualifyingRanges(days[..n], dir);
      var col := DirectionalColumn(days, dir);
      assert col[..n] == DirectionalColumn(days[..n], dir);
      RangeZeroIffFlat(days[n].bar);
    }
  }

  /** The directional range mean (`dn` or `dp`): the mean range over the
      days that moved in `dir` with a non-zero range, NaN when there is none. */
  lemma DirectionalMeanIsQualifyingMean(days: seq<Day>, dir: Direction)
    requires LowsPositive(days)
    ensures var q := QualifyingRanges(days, dir);
            NonZeroMean(DirectionalColumn(days, dir)) == if |q| == 0 then None else Some(Mean(q))
  {
    NonZeroMeanIsFilteredMean(DirectionalColumn(days, dir));
    FilteredColumnIsQualifyingRanges(days, dir);
  }

  /** A day whose return is zero contributes nothing to either column. */
  lemma FlatReturnInNeitherColumn(days: seq<Day>, i: nat)
    requires LowsPositive(days) && i < |days| && days[i].ret == 0.0
    ensures DirectionalColumn(days, Down)[i] == 0.0 && DirectionalColumn(days, Up)[i] == 0.0
  {
  }

  /** With no day moving in `dir` the mean for `dir` is NaN: a series that
      only rises has no down-day mean. */
  lemma NoMoveNoMean(days: seq<Day>, dir: Direction)
    requires LowsPositive(days)
    requires forall i :: 0 <= i < |days| ==> !Moves(dir, days[i].ret)
    ensures NonZeroMean(DirectionalColumn(days, dir)) == None
  {
    NonZeroMeanIsFilteredMean(DirectionalColumn(days, dir));
  }

  /** `dn / dp`, NaN (`None`) when either mean is NaN; also `None` when `dp`
      is zero, where the floating-point quotient is not a finite number. */
  function Ratio(dn: Option<real>, dp: Option<real>): (r: Option<real>)
    ensures r.Some? <==> dn.Some? && dp.Some? && dp.value != 0.0
    ensures r.Some? ==> r.value * dp.value == dn.value
  {
    if dn.Some? && dp.Some? && dp.value != 0.0 then Some(dn.value / dp.value) else None
  }

  predicate HighAtLeastLow(days: seq<Day>)
  {
    forall i :: 0 <= i < |days| ==> days[i].bar.high >= days[i].bar.low
  }

  /** When every high is at least its low, a defined directional mean is
      strictly positive, so the ratio is defined exactly when both sides have
      a contributing day. */
  lemma RatioDefinedIffBothSides(days: seq<Day>)
    requires LowsPositive(days) && HighAtLeastLow(days)
    ensures var dn := NonZeroMean(DirectionalColumn(days, Down));
            var dp := NonZeroMean(DirectionalColumn(days, Up));
            (dn.Some? ==> dn.value > 0.0) && (dp.Some? ==> dp.value > 0.0) &&
            (Ratio(dn, dp).Some? <==> dn.Some? && dp.Some?)
  {
    PositiveMean(days, Down);
    PositiveMean(days, Up);
  }

  lemma PositiveMean(days: seq<Day>, dir: Direction)
    requires LowsPositive(days) && HighAtLeastLow(days)
    ensures var m := NonZeroMean(DirectionalColumn(days, dir)); m.Some? ==> m.value > 0.0
  {
    var col := DirectionalColumn(days, dir);
    NonZeroMeanIsFilteredMean(col);
    forall i | 0 <= i < |days| ensures col[i] >= 0.0 {
      RangeZeroIffFlat(days[i].bar);
    }
    var nz := NonZero(col);
    if |nz| > 0 {
      NonZeroOfNonNegative(col);
      MeanOfPositive(nz);
    }
  }

  /** The non-zero cells of a non-negative column are positive. */
  lemma {:induction false} NonZeroOfNonNegative(col: seq<real>)
    requires forall i :: 0 <= i < |col| ==> col[i] >= 0.0
    ensures forall k :: 0 <= k < |NonZero(col)| ==> NonZero(col)[k] > 0.0
  {
    if col != [] {
      NonZeroOfNonNegative(col[..|col| - 1]);
    }
  }

  /** The mean of positive values is positive. */
  lemma MeanOfPositive(s: seq<real>)
    requires |s| > 0 && forall k :: 0 <= k < |s| ==> s[k] > 0.0
    ensures Mean(s) > 0.0
  {
    MeanBetween(s, Min(s), Max(s));
  }
}
