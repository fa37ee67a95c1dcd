/** The rolling columns: `rolling(w).std()`, scaling by a constant,
    `rolling(w).mean()`, and the lookups of the date of the lowest and the
    highest defined value. A `None` cell is a NaN. */
module Rolling {
  import opened Wrappers
  import opened Stats

  /** `Series.rolling(w).std()`: the sample standard deviation of the
      trailing `w` values ending at each row, NaN until the window is full. */
  function RollingStd(xs: seq<real>, w: nat, sqrt: real -> real): (col: seq<Option<real>>)
    requires w >= 2
    ensures |col| == |xs|
  {
    seq(|xs|, i requires 0 <= i < |xs| => if i + 1 >= w then SampleStd(xs[i + 1 - w..i + 1], sqrt) else None)
  }

  /** A column multiplied by a constant; NaN stays NaN. */
  function Scale(col: seq<Option<real>>, k: real): (r: seq<Option<real>>)
    ensures |r| == |col|
    ensures forall i :: 0 <= i < |col| ==> (r[i].Some? <==> col[i].Some?)
  {
    seq(|col|, i requires 0 <= i < |col| => if col[i].Some? then Some(col[i].value * k) else None)
  }

  predicate AllDefined(col: seq<Option<real>>)
  {
    forall i :: 0 <= i < |col| ==> col[i].Some?
  }

  /** The values of a column with no NaN. */
  function Values(col: seq<Option<real>>): (vs: seq<real>)
    requires AllDefined(col)
    ensures |vs| == |col|
  {
    seq(|col|, i requires 0 <= i < |col| => col[i].value)
  }

  /** `Series.rolling(w).mean()`: the mean of the trailing `w` cells ending at
      each row, NaN unless all `w` of them are defined. */
  function RollingMean(col: seq<Option<real>>, w: nat): (r: seq<Option<real>>)
    requires w >= 1
    ensures |r| == |col|
  {
    seq(|col|, i requires 0 <= i < |col| =>
      if i + 1 >= w && AllDefined(col[i + 1 - w..i + 1]) then Some(Mean(Values(col[i + 1 - w..i + 1]))) else None)
  }

  /** The rolling standard deviation is defined from row `w - 1` on and
      nowhere before. */
  lemma RollingStdWarmup(xs: seq<real>, w: nat, sqrt: real -> real)
    requires w >= 2
    ensures forall i :: 0 <= i < |xs| ==> (RollingStd(xs, w, sqrt)[i].Some? <==> i >= w - 1)
  {
  }

  /** A column defined from row `u` on gives a rolling mean defined from row
      `u + w - 1` on and nowhere before. */
  lemma RollingMeanWarmup(col: seq<Option<real>>, w: nat, u: nat)
    requires w >= 1
    requires forall i :: 0 <= i < |col| ==> (col[i].Some? <==> i >= u)
    ensures forall i :: 0 <= i < |col| ==> (RollingMean(col, w)[i].Some? <==> i >= u + w - 1)
  {
    var r := RollingMean(col, w);
    forall i | 0 <= i < |col| ensures r[i].Some? <==> i >= u + w - 1 {
      if i + 1 >= w {
        var win := col[i + 1 - w..i + 1];
        assert win[0] == col[i + 1 - w];
        if i >= u + w - 1 {
          assert forall j :: 0 <= j < |win| ==> win[j] == col[i + 1 - w + j];
        }
      }
    }
  }

  /** The 14-row volatility of a return column: NaN on exactly the first 13
      rows; its scaled copies (×100, ×√252) likewise; and the 126-row mean of
      those is NaN on exactly the first 138 rows. */
  lemma VolatilityWarmup(rets: seq<real>, sqrt: real -> real, k1: real, k2: real)
    ensures var vol := Scale(RollingStd(rets, 14, sqrt), k1);
            var annualized := Scale(vol, k2);
            var sma := RollingMean(annualized, 126);
            forall i :: 0 <= i < |rets| ==>
              (vol[i].Some? <==> i >= 13) && (annualized[i].Some? <==> i >= 13) && (sma[i].Some? <==> i >= 138)
  {
    var vol := Scale(RollingStd(rets, 14, sqrt), k1);
    RollingStdWarmup(rets, 14, sqrt);
    RollingMeanWarmup(Scale(vol, k2), 126, 13);
  }

  // ----- extremum lookups -----

  /** Which extremum a lookup is after. */
  datatype Extremum = Lowest | Highest

  /** `a` is strictly better than `b` for the extremum `e`. */
  predicate Beats(e: Extremum, a: real, b: real)
  {
    if e == Lowest then a < b else a > b
  }

  /** `Series.min()` / `Series.max()`, skipping NaN: NaN when no cell is defined. */
  function DefinedExtreme(col: seq<Option<real>>, e: Extremum): (r: Option<real>)
    ensures r.None? <==> forall i :: 0 <= i < |col| ==> col[i].None?
    ensures r.Some? ==> exists i :: 0 <= i < |col| && col[i] == Some(r.value)
    ensures r.Some? ==> forall i :: 0 <= i < |col| && col[i].Some? ==> !Beats(e, col[i].value, r.value)
  {
    if col == [] then None
    else
      var n := |col| - 1;
      var r := DefinedExtreme(col[..n], e);
      assert forall i :: 0 <= i < n ==> col[..n][i] == col[i];
      if col[n].None? then r
      else if r.None? || Beats(e, col[n].value, r.value) then Some(col[n].value)
      else r
  }

  /** The position of the first cell equal to `Some(v)` at or after `from`. */
  function FirstIndexOf(col: seq<Option<real>>, v: real, from: nat): (r: Option<nat>)
    requires from <= |col|
    ensures r.None? <==> forall i :: from <= i < |col| ==> col[i] != Some(v)
    ensures r.Some? ==> from <= r.value < |col| && col[r.value] == Some(v)
    ensures r.Some? ==> forall j :: from <= j < r.value ==> col[j] != Some(v)
    decreases |col| - from
  {
    if from == |col| then None
    else if col[from] == Some(v) then Some(from)
    else FirstIndexOf(col, v, from + 1)
  }

  /** `col[col == col.min()].index[0]` (or `max`): the position of the first
      cell equal to the defined extremum; `None` where the list of matches is
      empty and `[0]` raises. */
  function MaskLookup(col: seq<Option<real>>, e: Extremum): Option<nat>
  {
    match DefinedExtreme(col, e)
    case None => None
    case Some(m) => FirstIndexOf(col, m, 0)
  }

  /** Position `i` holds a defined value that no defined value beats, and every
      defined value before it is beaten by it: the first position of the
      extremum, the tie broken chronologically. */
  ghost predicate IsFirstExtreme(col: seq<Option<real>>, e: Extremum, i: nat)
  {
    && i < |col|
    && col[i].Some?
    && (forall j :: 0 <= j < |col| && col[j].Some? ==> !Beats(e, col[j].value, col[i].value))
    && (forall j :: 0 <= j < i && col[j].Some? ==> Beats(e, col[i].value, col[j].value))
  }

  /** The mask lookup fails exactly when no cell is defined, and otherwise
      finds the first position of the extremum. */
  lemma MaskLookupFindsFirstExtreme(col: seq<Option<real>>, e: Extremum)
    ensures MaskLookup(col, e).None? <==> forall i :: 0 <= i < |col| ==> col[i].None?
    ensures MaskLookup(col, e).Some? ==> IsFirstExtreme(col, e, MaskLookup(col, e).value)
  {
    var m := DefinedExtreme(col, e);
    if m.Some? {
      var r := FirstIndexOf(col, m.value, 0);
      assert r.Some?;
      var i := r.value;
      forall j | 0 <= j < i && col[j].Some? ensures Beats(e, col[i].value, col[j].value) {
        assert col[j] != Some(m.value);
      }
    }
  }

  /** At most one position is the first position of the extremum. */
  lemma FirstExtremeUnique(col: seq<Option<real>>, e: Extremum, i: nat, j: nat)
    requires IsFirstExtreme(col, e, i) && IsFirstExtreme(col, e, j)
    ensures i == j
  {
  }

  /** Multiplying by a positive constant keeps which value beats which. */
  lemma ScaleKeepsBeats(e: Extremum, a: real, b: real, k: real)
    requires k > 0.0
    ensures Beats(e, a * k, b * k) <==> Beats(e, a, b)
  {
    if a < b {
      assert a * k < b * k;
    } else if a > b {
      assert a * k > b * k;
    }
  }

  /** Scaling by a positive constant moves neither extremum. */
  lemma ScaleKeepsFirstExtreme(col: seq<Option<real>>, e: Extremum, k: real, i: nat)
    requires k > 0.0
    ensures IsFirstExtreme(Scale(col, k), e, i) <==> IsFirstExtreme(col, e, i)
  {
    var sc := Scale(col, k);
    if i < |col| && col[i].Some? {
      forall j | 0 <= j < |col| && col[j].Some?
        ensures Beats(e, sc[j].value, sc[i].value) <==> Beats(e, col[j].value, col[i].value)
        ensures Beats(e, sc[i].value, sc[j].value) <==> Beats(e, col[i].value, col[j].value)
      {
        ScaleKeepsBeats(e, col[j].value, col[i].value, k);
        ScaleKeepsBeats(e, col[i].value, col[j].value, k);
      }
    }
  }

  /** The extremum position of the annualized column is that of the column
      it was scaled from. */
  lemma MaskLookupOfScaled(col: seq<Option<real>>, e: Extremum, k: real)
    requires k > 0.0
    ensures MaskLookup(Scale(col, k), e) == MaskLookup(col, e)
  {
    var sc := Scale(col, k);
    MaskLookupFindsFirstExtreme(col, e);
    MaskLookupFindsFirstExtreme(sc, e);
    if MaskLookup(col, e).Some? {
      var i, j := MaskLookup(col, e).value, MaskLookup(sc, e).value;
      ScaleKeepsFirstExtreme(col, e, k, i);
      ScaleKeepsFirstExtreme(col, e, k, j);
      FirstExtremeUnique(col, e, i, j);
    }
  }
}
