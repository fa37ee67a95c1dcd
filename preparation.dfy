/** Series preparation: `df[~df.index.duplicated()]`, the `Daily Return`
    column from `Adj Close`.pct_change(), and `df.iloc[1:]`. */
module Preparation {
  import opened Wrappers
  import opened Bars

  /** No earlier bar has the date of `s[i]`: exactly the rows that
      `index.duplicated()` (keep='first') leaves unmarked. */
  predicate IsFirstOccurrence(s: seq<Bar>, i: nat)
    requires i < |s|
  {
    forall j :: 0 <= j < i ==> s[j].date != s[i].date
  }

  /** No two bars share a date. */
  predicate DistinctDates(s: seq<Bar>)
  {
    forall i, j :: 0 <= i < j < |s| ==> s[i].date != s[j].date
  }

  /** The set of dates a frame mentions. */
  function DateSet(s: seq<Bar>): set<Date>
  {
    set i | 0 <= i < |s| :: s[i].date
  }

  /** `df[~df.index.duplicated()]`: the frame filtered by the first-occurrence mask. */
  function Dedup(s: seq<Bar>): (d: seq<Bar>)
    ensures |d| <= |s|
  {
    if s == [] then []
    else Dedup(s[..|s| - 1]) + (if IsFirstOccurrence(s, |s| - 1) then [s[|s| - 1]] else [])
  }

  /** The positions of `s` that the mask keeps, in order. */
  ghost function KeptIndices(s: seq<Bar>): (idx: seq<nat>)
    ensures |idx| == |Dedup(s)|
    ensures forall k :: 0 <= k < |idx| ==> idx[k] < |s|
  {
    if s == [] then []
    else KeptIndices(s[..|s| - 1]) + (if IsFirstOccurrence(s, |s| - 1) then [|s| - 1] else [])
  }

  /** `d` lists, in source order and through the positions `idx`, exactly the
      bars of `s` whose date has not appeared before. */
  ghost predicate ListsFirstOccurrences(s: seq<Bar>, d: seq<Bar>, idx: seq<nat>)
  {
    && |idx| == |d|
    && (forall k :: 0 <= k < |idx| ==> idx[k] < |s| && d[k] == s[idx[k]] && IsFirstOccurrence(s, idx[k]))
    && (forall k, l :: 0 <= k < l < |idx| ==> idx[k] < idx[l])
    && (forall i :: 0 <= i < |s| && IsFirstOccurrence(s, i) ==> i in idx)
  }

  /** De-duplication keeps the first bar of every date and nothing else, and
      keeps them in the order of the source. */
  lemma {:induction false} DedupKeepsFirstInOrder(s: seq<Bar>)
    ensures ListsFirstOccurrences(s, Dedup(s), KeptIndices(s))
  {
    if s != [] {
      var n := |s| - 1;
      var p := s[..n];
      DedupKeepsFirstInOrder(p);
      var d, idx := Dedup(s), KeptIndices(s);
      var dp, ip := Dedup(p), KeptIndices(p);
      assert d[..|dp|] == dp && idx[..|ip|] == ip;
      forall i | 0 <= i < n
        ensures IsFirstOccurrence(s, i) == IsFirstOccurrence(p, i)
      {
      }
      forall k | 0 <= k < |idx|
        ensures idx[k] < |s| && d[k] == s[idx[k]] && IsFirstOccurrence(s, idx[k])
      {
        if k < |ip| {
          assert idx[k] == ip[k] && d[k] == dp[k] && p[ip[k]] == s[ip[k]];
        }
      }
      forall i | 0 <= i < |s| && IsFirstOccurrence(s, i) ensures i in idx {
        if i < n {
          assert i in ip;
        } else {
          assert idx[|ip|] == n;
        }
      }
    }
  }

  /** Appending a bar adds its date to the date set. */
  lemma DateSetAppend(s: seq<Bar>, b: Bar)
    ensures DateSet(s + [b]) == DateSet(s) + {b.date}
  {
    var t := s + [b];
    forall x | x in DateSet(t) ensures x in DateSet(s) + {b.date} {
      var i :| 0 <= i < |t| && t[i].date == x;
      if i < |s| { assert t[i] == s[i]; }
    }
    forall x | x in DateSet(s) + {b.date} ensures x in DateSet(t) {
      if x == b.date {
        assert t[|s|].date == x;
      } else {
        var i :| 0 <= i < |s| && s[i].date == x;
        assert t[i].date == x;
      }
    }
  }

  /** De-duplication neither loses a date nor invents one. */
  lemma {:induction false} DedupKeepsDates(s: seq<Bar>)
    ensures DateSet(Dedup(s)) == DateSet(s)
  {
    if s != [] {
      var n := |s| - 1;
      DedupKeepsDates(s[..n]);
      assert s[..n] + [s[n]] == s;
      DateSetAppend(s[..n], s[n]);
      var d := Dedup(s[..n]);
      if IsFirstOccurrence(s, n) {
        DateSetAppend(d, s[n]);
      } else {
        var j :| 0 <= j < n && s[j].date == s[n].date;
        assert s[..n][j] == s[j];
        assert Dedup(s) == d;
      }
    }
  }

  /** After de-duplication no date repeats. */
  lemma {:induction false} DedupDistinct(s: seq<Bar>)
    ensures DistinctDates(Dedup(s))
  {
    if s != [] {
      var n := |s| - 1;
      DedupDistinct(s[..n]);
      if IsFirstOccurrence(s, n) {
        var d := Dedup(s[..n]);
        DedupKeepsDates(s[..n]);
        forall i | 0 <= i < |d| ensures d[i].date != s[n].date {
          assert d[i].date in DateSet(d);
          var j :| 0 <= j < n && s[..n][j].date == d[i].date;
        }
      }
    }
  }

  /** A frame whose dates are already distinct is left unchanged. */
  lemma {:induction false} DedupOfDistinct(s: seq<Bar>)
    requires DistinctDates(s)
    ensures Dedup(s) == s
  {
    if s != [] {
      var n := |s| - 1;
      DedupOfDistinct(s[..n]);
      assert s[..n] + [s[n]] == s;
    }
  }

  /** De-duplicating twice is de-duplicating once. */
  lemma DedupIdempotent(s: seq<Bar>)
    ensures Dedup(Dedup(s)) == Dedup(s)
  {
    DedupDistinct(s);
    DedupOfDistinct(Dedup(s));
  }

  /** The simple return from `prev` to `cur`. */
  function PctChange(prev: real, cur: real): real
    requires prev > 0.0
  {
    cur / prev - 1.0
  }

  /** `df["Adj Close"].pct_change()` on the de-duplicated frame: NaN on the
      first row, `adj[t] / adj[t-1] - 1` after. */
  function DailyReturns(d: seq<Bar>): (r: seq<Option<real>>)
    requires PositivePrices(d)
    ensures |r| == |d|
  {
    seq(|d|, t requires 0 <= t < |d| => if t == 0 then None else Some(PctChange(d[t - 1].adjClose, d[t].adjClose)))
  }

  /** `DailyReturns` row by row: undefined exactly on the first row. */
  lemma DailyReturnsAt(d: seq<Bar>, t: nat)
    requires PositivePrices(d) && t < |d|
    ensures DailyReturns(d)[t] == if t == 0 then None else Some(PctChange(d[t - 1].adjClose, d[t].adjClose))
  {
  }

  /** The prepared frame: every de-duplicated row but the first, each with its
      return against the row before it (`df.iloc[1:]` after pct_change). */
  function Prepare(d: seq<Bar>): (days: seq<Day>)
    requires PositivePrices(d)
  {
    if |d| <= 1 then []
    else seq(|d| - 1, t requires 0 <= t < |d| - 1 => Day(d[t + 1], PctChange(d[t].adjClose, d[t + 1].adjClose)))
  }

  /** The prepared frame is one row shorter than the de-duplicated one (empty
      when that has at most one row); row `t` is de-duplicated row `t + 1`,
      and its return is taken against de-duplicated row `t`, the one that the
      trimming drops when `t == 0`. */
  lemma PreparedRows(d: seq<Bar>)
    requires PositivePrices(d)
    ensures |Prepare(d)| == if |d| == 0 then 0 else |d| - 1
    ensures forall t :: 0 <= t < |Prepare(d)| ==>
      Prepare(d)[t].bar == d[t + 1] && Prepare(d)[t].ret == PctChange(d[t].adjClose, d[t + 1].adjClose)
  {
  }

  /** The returns of the prepared frame are the pct_change column with its
      undefined first cell trimmed away. */
  lemma PreparedIsTrimmedPctChange(d: seq<Bar>)
    requires PositivePrices(d)
    ensures |Prepare(d)| == |DailyReturns(d)| - 1 || |d| == 0
    ensures forall t :: 0 <= t < |Prepare(d)| ==> DailyReturns(d)[t + 1] == Some(Prepare(d)[t].ret)
  {
    PreparedRows(d);
    forall t | 0 <= t < |Prepare(d)| ensures DailyReturns(d)[t + 1] == Some(Prepare(d)[t].ret) {
      DailyReturnsAt(d, t + 1);
    }
  }

  /** `b` is `a` grown by the simple return `r`. */
  predicate GrownBy(a: real, r: real, b: real)
  {
    b == a * (1.0 + r)
  }

  /** Returns invert back to prices: each adjusted close of the de-duplicated
      frame is the one before it grown by the return of its row. */
  lemma ReturnsCompoundToPrices(d: seq<Bar>, t: nat)
    requires PositivePrices(d) && t + 1 < |d|
    ensures |Prepare(d)| == |d| - 1
    ensures GrownBy(d[t].adjClose, Prepare(d)[t].ret, d[t + 1].adjClose)
  {
    PreparedRows(d);
    GrowthUndoesReturn(d[t].adjClose, d[t + 1].adjClose, Prepare(d)[t].ret);
  }

  /** Growing `a` by the simple return `r` from `a` to `b` gives back `b`. */
  lemma GrowthUndoesReturn(a: real, b: real, r: real)
    requires a > 0.0 && r == PctChange(a, b)
    ensures GrownBy(a, r, b)
  {
  }

  /** With at most one distinct date the prepared frame is empty. */
  lemma PreparedEmptyIffOneDate(bars: seq<Bar>)
    requires PositivePrices(bars)
    ensures PositivePrices(Dedup(bars))
    ensures |Prepare(Dedup(bars))| == 0 <==> |DateSet(bars)| <= 1
  {
    DedupKeepsPositive(bars);
    var d := Dedup(bars);
    PreparedRows(d);
    DedupKeepsDates(bars);
    DedupDistinct(bars);
    DistinctDatesCount(d);
  }

  /** De-duplication keeps bars of the source only, so positivity carries over. */
  lemma DedupKeepsPositive(bars: seq<Bar>)
    requires PositivePrices(bars)
    ensures PositivePrices(Dedup(bars))
  {
    DedupKeepsFirstInOrder(bars);
  }

  /** A frame with distinct dates has as many dates as rows. */
  lemma {:induction false} DistinctDatesCount(s: seq<Bar>)
    requires DistinctDates(s)
    ensures |DateSet(s)| == |s|
  {
    if s != [] {
      var n := |s| - 1;
      DistinctDatesCount(s[..n]);
      assert s[..n] + [s[n]] == s;
      DateSetAppend(s[..n], s[n]);
      assert s[n].date !in DateSet(s[..n]);
    }
  }

  /** The bars of the prepared frame keep positive prices. */
  lemma PreparedPositive(d: seq<Bar>)
    requires PositivePrices(d)
    ensures PositivePrices(BarsOf(Prepare(d)))
  {
    PreparedRows(d);
  }

  /** Each row's adjusted close is the previous row's grown by the row's return. */
  ghost predicate Chained(days: seq<Day>)
  {
    forall t :: 0 < t < |days| ==> GrownBy(days[t - 1].bar.adjClose, days[t].ret, days[t].bar.adjClose)
  }

  /** The rows of the prepared frame are chained by their returns. */
  lemma PreparedChained(d: seq<Bar>)
    requires PositivePrices(d)
    ensures Chained(Prepare(d))
  {
    PreparedRows(d);
    forall t | 0 < t < |Prepare(d)|
      ensures GrownBy(Prepare(d)[t - 1].bar.adjClose, Prepare(d)[t].ret, Prepare(d)[t].bar.adjClose)
    {
      ReturnsCompoundToPrices(d, t);
    }
  }

  /** The growth factor of a run of simple returns: the product of `1 + r`. */
  function Growth(rets: seq<real>): real
  {
    if rets == [] then 1.0 else Growth(rets[..|rets| - 1]) * (1.0 + rets[|rets| - 1])
  }

  /** In a chained frame, row `k`'s adjusted close is row 0's grown by the
      returns of rows 1 to `k`; the return of row 0 itself does not enter. */
  lemma {:induction false} CompoundFromFirstRow(days: seq<Day>, k: nat)
    requires Chained(days) && k < |days|
    ensures days[k].bar.adjClose == days[0].bar.adjClose * Growth(ReturnsOf(days)[1..k + 1])
  {
    var rets := ReturnsOf(days);
    if k > 0 {
      CompoundFromFirstRow(days, k - 1);
      assert rets[1..k + 1][..k - 1] == rets[1..k];
      var a, g, r := days[0].bar.adjClose, Growth(rets[1..k]), days[k].ret;
      assert GrownBy(days[k - 1].bar.adjClose, r, days[k].bar.adjClose);
      assert days[k].bar.adjClose == (a * g) * (1.0 + r);
      assert Growth(rets[1..k + 1]) == g * (1.0 + r);
      MulAssoc(a, g, 1.0 + r);
    }
  }

  lemma MulAssoc(a: real, b: real, c: real)
    ensures (a * b) * c == a * (b * c)
  {
  }
}
