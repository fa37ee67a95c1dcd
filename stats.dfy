/** The summary statistics of the return series: sums, mean, extrema, sample
    variance, the linear-interpolation percentile of numpy, the running peak
    with its drawdowns, and the growth figures. */
module Stats {
  import opened Wrappers

  /** Sum of a column. */
  function Sum(s: seq<real>): real
  {
    if s == [] then 0.0 else Sum(s[..|s| - 1]) + s[|s| - 1]
  }

  /** `Series.mean()` of a column that has at least one value. */
  function Mean(s: seq<real>): real
    requires |s| > 0
  {
    Sum(s) / |s| as real
  }

  /** `Series.min()`: a value of the column that no value is below. */
  function Min(s: seq<real>): (m: real)
    requires |s| > 0
    ensures m in s
    ensures forall i :: 0 <= i < |s| ==> m <= s[i]
  {
    if |s| == 1 then s[0]
    else
      var m := Min(s[..|s| - 1]);
      assert m in s by { assert m in s[..|s| - 1]; }
      if s[|s| - 1] < m then s[|s| - 1] else m
  }

  /** `Series.max()`: a value of the column that no value is above. */
  function Max(s: seq<real>): (m: real)
    requires |s| > 0
    ensures m in s
    ensures forall i :: 0 <= i < |s| ==> s[i] <= m
  {
    if |s| == 1 then s[0]
    else
      var m := Max(s[..|s| - 1]);
      assert m in s by { assert m in s[..|s| - 1]; }
      if s[|s| - 1] > m then s[|s| - 1] else m
  }

  /** A sum of values within `[lo, hi]` lies within `[n * lo, n * hi]`. */
  lemma {:induction false} SumWithin(s: seq<real>, lo: real, hi: real)
    requires forall i :: 0 <= i < |s| ==> lo <= s[i] <= hi
    ensures |s| as real * lo <= Sum(s) <= |s| as real * hi
  {
    if s != [] {
      var n := |s| - 1;
      SumWithin(s[..n], lo, hi);
      assert |s| as real * lo == n as real * lo + lo;
      assert |s| as real * hi == n as real * hi + hi;
    }
  }

  /** Dividing a bounded sum by the count bounds the quotient. */
  lemma QuotientWithin(x: real, n: real, lo: real, hi: real)
    requires n > 0.0 && n * lo <= x <= n * hi
    ensures lo <= x / n <= hi
  {
  }

  /** A mean of values within `[lo, hi]` lies within `[lo, hi]`. */
  lemma MeanBetween(s: seq<real>, lo: real, hi: real)
    requires |s| > 0
    requires forall i :: 0 <= i < |s| ==> lo <= s[i] <= hi
    ensures lo <= Mean(s) <= hi
  {
    SumWithin(s, lo, hi);
    QuotientWithin(Sum(s), |s| as real, lo, hi);
  }

  /** The mean lies between the minimum and the maximum. */
  lemma MeanWithin(s: seq<real>)
    requires |s| > 0
    ensures Min(s) <= Mean(s) <= Max(s)
  {
    MeanBetween(s, Min(s), Max(s));
  }

  /** The sum of squared deviations of a column from `c`. */
  function SquaredDeviations(s: seq<real>, c: real): (r: real)
    ensures r >= 0.0
  {
    if s == [] then 0.0
    else SquaredDeviations(s[..|s| - 1], c) + Square(s[|s| - 1] - c)
  }

  /** `x * x`, never negative. */
  function Square(x: real): (r: real)
    ensures r >= 0.0
  {
    x * x
  }

  /** `Series.std(ddof=1)` squared: the sample variance, never negative. */
  function SampleVariance(s: seq<real>): (v: real)
    requires |s| >= 2
    ensures v >= 0.0
  {
    SquaredDeviations(s, Mean(s)) / (|s| - 1) as real
  }

  /** `Series.std(ddof=1)` with the square root supplied by the caller: NaN
      (`None`) for fewer than two values. */
  function SampleStd(s: seq<real>, sqrt: real -> real): (r: Option<real>)
    ensures r.Some? <==> |s| >= 2
  {
    if |s| < 2 then None else Some(sqrt(SampleVariance(s)))
  }

  /** A column whose values all equal `c` sums to `n * c`. */
  lemma {:induction false} SumOfConstant(s: seq<real>, c: real)
    requires forall i :: 0 <= i < |s| ==> s[i] == c
    ensures Sum(s) == |s| as real * c
  {
    if s != [] {
      SumOfConstant(s[..|s| - 1], c);
    }
  }

  /** A column whose values all equal `c` has no deviation from `c`. */
  lemma {:induction false} NoDeviationFromConstant(s: seq<real>, c: real)
    requires forall i :: 0 <= i < |s| ==> s[i] == c
    ensures SquaredDeviations(s, c) == 0.0
  {
    if s != [] {
      NoDeviationFromConstant(s[..|s| - 1], c);
    }
  }

  /** A constant return column has zero sample variance, so a constant daily
      return gives a zero standard deviation. */
  lemma ConstantHasZeroVariance(s: seq<real>, c: real)
    requires |s| >= 2
    requires forall i :: 0 <= i < |s| ==> s[i] == c
    ensures Mean(s) == c
    ensures SampleVariance(s) == 0.0
  {
    SumOfConstant(s, c);
    NoDeviationFromConstant(s, c);
  }

  // ----- sorting and the percentile -----

  predicate Sorted(s: seq<real>)
  {
    forall i, j :: 0 <= i < j < |s| ==> s[i] <= s[j]
  }

  /** A value at least every value of a sorted column may go after it. */
  lemma SnocSorted(t: seq<real>, a: real)
    requires Sorted(t)
    requires forall k :: 0 <= k < |t| ==> t[k] <= a
    ensures Sorted(t + [a])
  {
    var r := t + [a];
    forall i, j | 0 <= i < j < |r| ensures r[i] <= r[j] {
      assert r[i] == t[i];
      if j < |t| {
        assert r[j] == t[j];
      }
    }
  }

  /** Inserts `x` into a sorted column. */
  function Insert(x: real, s: seq<real>): (r: seq<real>)
    requires Sorted(s)
    ensures Sorted(r)
    ensures multiset(r) == multiset(s) + multiset{x}
    ensures |r| == |s| + 1
    ensures r[|r| - 1] == if s == [] || s[|s| - 1] <= x then x else s[|s| - 1]
  {
    if s == [] || s[|s| - 1] <= x then
      SnocSorted(s, x);
      s + [x]
    else
      var n := |s| - 1;
      var rest := Insert(x, s[..n]);
      assert s == s[..n] + [s[n]];
      assert rest[|rest| - 1] <= s[n];
      SnocSorted(rest, s[n]);
      rest + [s[n]]
  }

  /** The sorted copy of a column that numpy takes before interpolating. */
  function Sort(s: seq<real>): (r: seq<real>)
    ensures Sorted(r)
    ensures multiset(r) == multiset(s)
    ensures |r| == |s|
  {
    if s == [] then []
    else
      var n := |s| - 1;
      assert s == s[..n] + [s[n]];
      Insert(s[n], Sort(s[..n]))
  }

  /** A sorted permutation of `s` starts with a least value of `s` and ends
      with a greatest one. */
  lemma SortedPermutationEnds(x: seq<real>, s: seq<real>)
    requires |s| > 0 && Sorted(x) && multiset(x) == multiset(s)
    ensures |x| == |s|
    ensures x[0] in s && x[|x| - 1] in s
    ensures forall i :: 0 <= i < |s| ==> x[0] <= s[i] <= x[|x| - 1]
  {
    assert |x| == |multiset(x)| == |multiset(s)| == |s|;
    assert x[0] in multiset(x) && x[|x| - 1] in multiset(x);
    forall i | 0 <= i < |s| ensures x[0] <= s[i] <= x[|x| - 1] {
      assert s[i] in multiset(s);
      var k :| 0 <= k < |x| && x[k] == s[i];
    }
  }

  /** The sorted copy starts at the minimum and ends at the maximum. */
  lemma SortedEnds(s: seq<real>)
    requires |s| > 0
    ensures Sort(s)[0] == Min(s) && Sort(s)[|s| - 1] == Max(s)
  {
    var x := Sort(s);
    SortedPermutationEnds(x, s);
    var lo, hi := Min(s), Max(s);
    assert lo <= x[0] && x[0] <= lo;
    assert x[|x| - 1] <= hi && hi <= x[|x| - 1];
  }

  /** The rank `(n - 1) * q / 100` that numpy interpolates at, for a column
      of `n` values and a percentage `q`. */
  function Rank(n: nat, q: real): (h: real)
    requires n > 0 && 0.0 <= q <= 100.0
    ensures 0.0 <= h <= (n - 1) as real
  {
    RankWithin(n, q);
    (n - 1) as real * q / 100.0
  }

  lemma RankWithin(n: nat, q: real)
    requires n > 0 && 0.0 <= q <= 100.0
    ensures 0.0 <= (n - 1) as real * q / 100.0 <= (n - 1) as real
  {
    var m := (n - 1) as real;
    NonNegProduct(m, q);
    NonNegProduct(m, 100.0 - q);
  }

  /** A higher percentage gives a rank at least as high. */
  lemma RankMonotone(n: nat, q1: real, q2: real)
    requires n > 0 && 0.0 <= q1 <= q2 <= 100.0
    ensures Rank(n, q1) <= Rank(n, q2)
  {
    NonNegProduct((n - 1) as real, q2 - q1);
  }

  lemma NonNegProduct(x: real, y: real)
    requires x >= 0.0 && y >= 0.0
    ensures x * y >= 0.0
  {
  }

  /** Linear interpolation `a + f * (b - a)`. */
  function Lerp(a: real, b: real, f: real): real
  {
    a + f * (b - a)
  }

  /** Between `a <= b`, interpolation stays within `[a, b]`. */
  lemma LerpWithin(a: real, b: real, f: real)
    requires a <= b && 0.0 <= f <= 1.0
    ensures a <= Lerp(a, b, f) <= b
  {
    NonNegProduct(f, b - a);
    NonNegProduct(1.0 - f, b - a);
    assert (1.0 - f) * (b - a) == (b - a) - f * (b - a);
  }

  /** Interpolating further along never decreases the value when `a <= b`. */
  lemma LerpMonotone(a: real, b: real, f: real, g: real)
    requires a <= b && f <= g
    ensures Lerp(a, b, f) <= Lerp(a, b, g)
  {
    NonNegProduct(g - f, b - a);
    assert (g - f) * (b - a) == g * (b - a) - f * (b - a);
  }

  /** numpy's linear method at rank `h` of a sorted column: the value at
      `floor(h)` plus the fractional part of `h` times the step to the next
      value; at the last position, the last value. */
  function Interpolate(x: seq<real>, h: real): real
    requires |x| > 0 && 0.0 <= h <= (|x| - 1) as real
  {
    var lo := h.Floor;
    if lo + 1 < |x| then Lerp(x[lo], x[lo + 1], h - lo as real) else x[lo]
  }

  /** On a sorted column the interpolated value lies between its ends. */
  lemma InterpolateWithin(x: seq<real>, h: real)
    requires |x| > 0 && 0.0 <= h <= (|x| - 1) as real && Sorted(x)
    ensures x[0] <= Interpolate(x, h) <= x[|x| - 1]
  {
    var lo := h.Floor;
    if lo + 1 < |x| {
      LerpWithin(x[lo], x[lo + 1], h - lo as real);
    }
  }

  /** On a sorted column a higher rank never gives a lower value. */
  lemma InterpolateMonotone(x: seq<real>, h1: real, h2: real)
    requires |x| > 0 && 0.0 <= h1 <= h2 <= (|x| - 1) as real && Sorted(x)
    ensures Interpolate(x, h1) <= Interpolate(x, h2)
  {
    var lo1, lo2 := h1.Floor, h2.Floor;
    assert lo1 <= lo2;
    if lo1 == lo2 {
      if lo1 + 1 < |x| {
        LerpMonotone(x[lo1], x[lo1 + 1], h1 - lo1 as real, h2 - lo2 as real);
      }
    } else {
      LerpWithin(x[lo1], x[lo1 + 1], h1 - lo1 as real);
      if lo2 + 1 < |x| {
        LerpWithin(x[lo2], x[lo2 + 1], h2 - lo2 as real);
      }
    }
  }

  /** `np.percentile(s, q)` with numpy's default linear method. */
  function Percentile(s: seq<real>, q: real): real
    requires |s| > 0 && 0.0 <= q <= 100.0
  {
    Interpolate(Sort(s), Rank(|s|, q))
  }

  /** The percentile lies between the minimum and the maximum of the column. */
  lemma PercentileWithin(s: seq<real>, q: real)
    requires |s| > 0 && 0.0 <= q <= 100.0
    ensures Min(s) <= Percentile(s, q) <= Max(s)
  {
    SortedEnds(s);
    InterpolateWithin(Sort(s), Rank(|s|, q));
  }

  /** A higher percentage never gives a lower percentile. */
  lemma PercentileMonotone(s: seq<real>, q1: real, q2: real)
    requires |s| > 0 && 0.0 <= q1 <= q2 <= 100.0
    ensures Percentile(s, q1) <= Percentile(s, q2)
  {
    RankMonotone(|s|, q1, q2);
    InterpolateMonotone(Sort(s), Rank(|s|, q1), Rank(|s|, q2));
  }

  /** The 0th percentile is the minimum and the 100th the maximum. */
  lemma PercentileEnds(s: seq<real>)
    requires |s| > 0
    ensures Percentile(s, 0.0) == Min(s)
    ensures Percentile(s, 100.0) == Max(s)
  {
    SortedEnds(s);
    assert Rank(|s|, 0.0) == 0.0;
    assert Rank(|s|, 100.0) == (|s| - 1) as real;
  }

  // ----- running peak and drawdown -----

  /** Every value is at least the one before it. */
  predicate NonDecreasing(xs: seq<real>)
  {
    forall i :: 0 < i < |xs| ==> xs[i - 1] <= xs[i]
  }

  /** `Series.cummax()`. */
  function RunningPeak(xs: seq<real>): (peak: seq<real>)
    ensures |peak| == |xs|
  {
    if xs == [] then []
    else if |xs| == 1 then xs
    else
      var p := RunningPeak(xs[..|xs| - 1]);
      var last := xs[|xs| - 1];
      p + [if last > p[|xs| - 2] then last else p[|xs| - 2]]
  }

  /** The running peak never falls, is at least every value seen so far, and
      is one of those values. */
  lemma {:induction false} RunningPeakIsPrefixMax(xs: seq<real>)
    ensures NonDecreasing(RunningPeak(xs))
    ensures forall i, j :: 0 <= j <= i < |xs| ==> xs[j] <= RunningPeak(xs)[i]
    ensures forall i :: 0 <= i < |xs| ==> RunningPeak(xs)[i] in xs[..i + 1]
  {
    if |xs| > 1 {
      var n := |xs| - 1;
      var p := RunningPeak(xs[..n]);
      RunningPeakIsPrefixMax(xs[..n]);
      var peak := RunningPeak(xs);
      forall i | 0 <= i < n ensures peak[i] == p[i] && xs[..n][..i + 1] == xs[..i + 1] {
      }
      forall i, j | 0 <= j <= i < n ensures xs[j] <= peak[i] {
        assert xs[..n][j] == xs[j];
      }
    }
  }

  /** When the series never falls its running peak is the series itself. */
  lemma {:induction false} RunningPeakOfNonDecreasing(xs: seq<real>)
    requires NonDecreasing(xs)
    ensures RunningPeak(xs) == xs
  {
    if |xs| > 1 {
      var n := |xs| - 1;
      RunningPeakOfNonDecreasing(xs[..n]);
      assert xs[..n] + [xs[n]] == xs;
    }
  }

  predicate AllPositive(xs: seq<real>)
  {
    forall i :: 0 <= i < |xs| ==> xs[i] > 0.0
  }

  /** The percentage fall of `x` below the peak `p`. */
  function Fall(x: real, p: real): real
    requires p > 0.0
  {
    (x - p) / p * 100.0
  }

  /** A positive value at most its peak falls by less than 100% and by at
      least 0%; the fall is zero exactly when the value is the peak. */
  lemma FallWithin(x: real, p: real)
    requires 0.0 < x <= p
    ensures -100.0 < Fall(x, p) <= 0.0
    ensures Fall(x, p) == 0.0 <==> x == p
  {
    var d := (x - p) / p;
    assert (d + 1.0) * p == x;
    PositiveFactor(d + 1.0, p);
    assert d <= 0.0;
    assert d == 0.0 <==> x == p;
  }

  /** A product with a positive factor is positive only if the other factor is. */
  lemma PositiveFactor(a: real, p: real)
    requires p > 0.0 && a * p > 0.0
    ensures a > 0.0
  {
  }

  /** The drawdown column: the fall of each value below its running peak. */
  function Drawdowns(xs: seq<real>): (dd: seq<real>)
    requires AllPositive(xs)
    ensures |dd| == |xs|
  {
    RunningPeakIsPrefixMax(xs);
    var peak := RunningPeak(xs);
    seq(|xs|, i requires 0 <= i < |xs| => Fall(xs[i], peak[i]))
  }

  /** Every drawdown lies in `(-100, 0]`. */
  lemma DrawdownsWithin(xs: seq<real>)
    requires AllPositive(xs)
    ensures forall i :: 0 <= i < |xs| ==> -100.0 < Drawdowns(xs)[i] <= 0.0
    ensures forall i :: 0 <= i < |xs| ==> (Drawdowns(xs)[i] == 0.0 <==> xs[i] == RunningPeak(xs)[i])
  {
    RunningPeakIsPrefixMax(xs);
    forall i | 0 <= i < |xs|
      ensures -100.0 < Drawdowns(xs)[i] <= 0.0
      ensures Drawdowns(xs)[i] == 0.0 <==> xs[i] == RunningPeak(xs)[i]
    {
      FallWithin(xs[i], RunningPeak(xs)[i]);
    }
  }

  /** `np.min` of the drawdown column: the maximum drawdown. */
  function MaxDrawdown(xs: seq<real>): real
    requires |xs| > 0 && AllPositive(xs)
  {
    Min(Drawdowns(xs))
  }

  /** A lower bound and an upper bound of every value bound the minimum. */
  lemma MinBetween(s: seq<real>, lo: real, hi: real)
    requires |s| > 0
    requires forall i :: 0 <= i < |s| ==> lo < s[i] <= hi
    ensures lo < Min(s) <= hi
  {
    var k :| 0 <= k < |s| && s[k] == Min(s);
  }

  /** The minimum of a column of non-positive values is zero exactly when
      every value is zero. */
  lemma MinZeroIffAllZero(s: seq<real>)
    requires |s| > 0
    requires forall i :: 0 <= i < |s| ==> s[i] <= 0.0
    ensures Min(s) == 0.0 <==> forall i :: 0 <= i < |s| ==> s[i] == 0.0
  {
    var k :| 0 <= k < |s| && s[k] == Min(s);
  }

  /** A series equals its running peak everywhere exactly when it never falls. */
  lemma AtPeakIffNonDecreasing(xs: seq<real>)
    ensures (forall i :: 0 <= i < |xs| ==> xs[i] == RunningPeak(xs)[i]) <==> NonDecreasing(xs)
  {
    RunningPeakIsPrefixMax(xs);
    if NonDecreasing(xs) {
      RunningPeakOfNonDecreasing(xs);
    }
  }

  /** The maximum drawdown lies in `(-100, 0]`. */
  lemma MaxDrawdownWithin(xs: seq<real>)
    requires |xs| > 0 && AllPositive(xs)
    ensures -100.0 < MaxDrawdown(xs) <= 0.0
  {
    DrawdownsWithin(xs);
    MinBetween(Drawdowns(xs), -100.0, 0.0);
  }

  /** The maximum drawdown is zero exactly when the series never falls. */
  lemma MaxDrawdownZeroIffNonDecreasing(xs: seq<real>)
    requires |xs| > 0 && AllPositive(xs)
    ensures MaxDrawdown(xs) == 0.0 <==> NonDecreasing(xs)
  {
    DrawdownsWithin(xs);
    MinZeroIffAllZero(Drawdowns(xs));
    AtPeakIffNonDecreasing(xs);
  }

  // ----- growth -----

  /** Buy-and-hold return in percent from `first` to `last`. */
  function BuyAndHold(first: real, last: real): real
    requires first > 0.0
  {
    (last - first) / first * 100.0
  }

  /** CAGR in percent over `years`, with `x ** y` supplied by the caller. */
  function Cagr(first: real, last: real, years: real, pow: (real, real) -> real): real
    requires first > 0.0 && years != 0.0
  {
    (pow(last / first, 1.0 / years) - 1.0) * 100.0
  }

  /** Over exactly one year, with a power that is the identity at exponent 1,
      the CAGR is the buy-and-hold return. */
  lemma CagrOverOneYear(first: real, last: real, pow: (real, real) -> real)
    requires first > 0.0
    requires pow(last / first, 1.0) == last / first
    ensures Cagr(first, last, 1.0, pow) == BuyAndHold(first, last)
  {
    assert first / first == 1.0;
    assert (last - first) / first == last / first - first / first;
  }
}
