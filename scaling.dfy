/** Min-max scaling of one column, and the store of fitted scalers
    `scale_ann` that `addGetScaleCol` (preprocess.py:683-696) reads and
    writes.

    sklearn's MinMaxScaler is not part of this model; its behaviour on the
    inputs the pipeline gives it is stated here as definitions: fitting
    records the least and greatest present value and ignores missing ones,
    transforming maps x to (x - min) / (max - min) without clipping, a
    constant column (max = min) is shifted by -min only, missing values stay
    missing, and fitting on zero rows raises. */
module Scaling {
  import opened Cells
  import opened Columns
  import opened Frames

  /** A fitted scaler: the range seen at fit time, or no range at all when
      every fitted value was missing. */
  datatype Scaler = MinMax(lo: real, hi: real) | AllMissing

  /** The present values of a column, top to bottom. */
  function Present(cells: seq<Cell>): (xs: seq<real>)
    ensures forall x :: x in xs <==> Num(x) in cells
    ensures |xs| <= |cells|
  {
    if cells == [] then []
    else (if cells[0].Num? then [cells[0].x] else []) + Present(cells[1..])
  }

  /** The least element of a non-empty sequence. */
  function Least(xs: seq<real>): (m: real)
    requires xs != []
    ensures m in xs && forall k :: 0 <= k < |xs| ==> m <= xs[k]
  {
    if |xs| == 1 then xs[0]
    else
      var rest := Least(xs[1..]);
      assert forall k :: 1 <= k < |xs| ==> xs[k] == xs[1..][k - 1];
      if xs[0] <= rest then xs[0] else rest
  }

  /** The greatest element of a non-empty sequence. */
  function Greatest(xs: seq<real>): (m: real)
    requires xs != []
    ensures m in xs && forall k :: 0 <= k < |xs| ==> xs[k] <= m
  {
    if |xs| == 1 then xs[0]
    else
      var rest := Greatest(xs[1..]);
      assert forall k :: 1 <= k < |xs| ==> xs[k] == xs[1..][k - 1];
      if xs[0] >= rest then xs[0] else rest
  }

  /** `MinMaxScaler().fit(df[[col]])`: the range of the present values. */
  function Fit(cells: seq<Cell>): (s: Scaler)
    ensures s.AllMissing? <==> forall i :: 0 <= i < |cells| ==> !cells[i].Num?
    ensures s.MinMax? ==> s.lo <= s.hi && Num(s.lo) in cells && Num(s.hi) in cells
    ensures s.MinMax? ==> forall i :: 0 <= i < |cells| && cells[i].Num? ==> s.lo <= cells[i].x <= s.hi
  {
    var xs := Present(cells);
    assert forall i :: 0 <= i < |cells| && cells[i].Num? ==> cells[i].x in xs by {
      forall i | 0 <= i < |cells| && cells[i].Num? ensures cells[i].x in xs {
        assert Num(cells[i].x) == cells[i];
      }
    }
    if xs == [] then AllMissing
    else
      var lo, hi := Least(xs), Greatest(xs);
      assert forall i :: 0 <= i < |cells| && cells[i].Num? ==> lo <= cells[i].x <= hi by {
        forall i | 0 <= i < |cells| && cells[i].Num? ensures lo <= cells[i].x <= hi {
          var k :| 0 <= k < |xs| && xs[k] == cells[i].x;
        }
      }
      MinMax(lo, hi)
  }

  /** `scaler.transform` on one cell. */
  function TransformCell(s: Scaler, c: Cell): (r: Cell)
    requires !c.Text?
    ensures r.Num? <==> c.Num? && s.MinMax?
  {
    match s
    case AllMissing => NaN
    case MinMax(lo, hi) =>
      if !c.Num? then NaN
      else if hi > lo then Num((c.x - lo) / (hi - lo))
      else Num(c.x - lo)
  }

  /** `scaler.transform(df[[col]])`: every cell transformed. */
  function TransformColumn(s: Scaler, cells: seq<Cell>): (r: seq<Cell>)
    requires NumericColumn(cells)
    ensures |r| == |cells| && forall i :: 0 <= i < |cells| ==> r[i] == TransformCell(s, cells[i])
  {
    seq(|cells|, i requires 0 <= i < |cells| => TransformCell(s, cells[i]))
  }

  /** A scaler maps its own range onto [0, 1]: the minimum to 0 and, when
      the range is not a single point, the maximum to 1. */
  lemma TransformWithinRange(s: Scaler, x: real)
    requires s.MinMax? && s.lo <= x <= s.hi
    ensures 0.0 <= TransformCell(s, Num(x)).x <= 1.0
    ensures TransformCell(s, Num(s.lo)) == Num(0.0)
    ensures s.hi > s.lo ==> TransformCell(s, Num(s.hi)) == Num(1.0)
  {
    if s.hi > s.lo {
      QuotientInUnit(x - s.lo, s.hi - s.lo);
      QuotientOfSelf(s.hi - s.lo);
    }
  }

  /** Fitting and transforming the same column puts every present value in
      [0, 1], the column's least value at 0 and, when the column is not
      constant, its greatest at 1. */
  lemma FitTransformUnitRange(cells: seq<Cell>, i: int)
    requires NumericColumn(cells) && 0 <= i < |cells| && cells[i].Num?
    ensures var s := Fit(cells); var r := TransformCell(s, cells[i]);
      r.Num? && 0.0 <= r.x <= 1.0
    ensures var s := Fit(cells);
      TransformCell(s, Num(s.lo)) == Num(0.0) && (s.hi > s.lo ==> TransformCell(s, Num(s.hi)) == Num(1.0))
  {
    var s := Fit(cells);
    assert s.MinMax? && s.lo <= cells[i].x <= s.hi;
    TransformWithinRange(s, cells[i].x);
    assert Num(cells[i].x) == cells[i];
  }

  /** Transforming keeps the order of values. */
  lemma TransformMonotone(s: Scaler, a: real, b: real)
    requires s.MinMax? && a <= b
    ensures TransformCell(s, Num(a)).x <= TransformCell(s, Num(b)).x
  {
    if s.hi > s.lo {
      QuotientMonotone(a - s.lo, b - s.lo, s.hi - s.lo);
    }
  }

  /** Values outside the fitted range are not clipped: a value above the
      fitted maximum of a non-constant column lands above 1 and one below
      the minimum lands below 0. This is what a one-row frame meets when it
      is scaled with a stored scaler. */
  lemma TransformExtrapolates(s: Scaler, x: real)
    requires s.MinMax? && s.hi > s.lo
    ensures x > s.hi ==> TransformCell(s, Num(x)).x > 1.0
    ensures x < s.lo ==> TransformCell(s, Num(x)).x < 0.0
  {
    if x > s.hi {
      QuotientAboveOne(x - s.lo, s.hi - s.lo);
    } else if x < s.lo {
      QuotientNegative(x - s.lo, s.hi - s.lo);
    }
  }

  lemma QuotientInUnit(num: real, d: real)
    requires d > 0.0 && 0.0 <= num <= d
    ensures 0.0 <= num / d <= 1.0
  {
  }

  lemma QuotientOfSelf(d: real)
    requires d > 0.0
    ensures d / d == 1.0
  {
  }

  lemma QuotientMonotone(a: real, b: real, d: real)
    requires d > 0.0 && a <= b
    ensures a / d <= b / d
  {
  }

  lemma QuotientAboveOne(num: real, d: real)
    requires d > 0.0 && num > d
    ensures num / d > 1.0
  {
  }

  lemma QuotientNegative(num: real, d: real)
    requires d > 0.0 && num < 0.0
    ensures num / d < 0.0
  {
  }

  /** Refitting on a column with a further row inside the fitted range gives
      back the same scaler: the fit depends only on the range. */
  lemma {:induction false} FitStableInsideRange(cells: seq<Cell>, c: Cell)
    requires Fit(cells).MinMax?
    requires c.Num? ==> Fit(cells).lo <= c.x <= Fit(cells).hi
    ensures Fit(cells + [c]) == Fit(cells)
  {
    var s, ext := Fit(cells), cells + [c];
    var a :| 0 <= a < |cells| && cells[a] == Num(s.lo);
    var b :| 0 <= b < |cells| && cells[b] == Num(s.hi);
    assert ext[a] == Num(s.lo) && ext[b] == Num(s.hi);
    var t := Fit(ext);
    var p :| 0 <= p < |ext| && ext[p] == Num(t.lo);
    var q :| 0 <= q < |ext| && ext[q] == Num(t.hi);
    if p < |cells| {
      assert cells[p] == Num(t.lo);
    }
    if q < |cells| {
      assert cells[q] == Num(t.hi);
    }
  }

  /** What one call of addGetScaleCol did. */
  datatype Step =
    | Transformed          // one row, scaled with the stored scaler
    | Skipped              // one row, no stored scaler or no such column: the warning is printed
    | Fitted               // several rows: a fresh scaler fitted, stored and applied
    | Failed(why: Failure) // the call raised

  datatype Failure =
    | MissingColumn        // `df[[col]]` raises KeyError
    | NoSamples            // fitting on zero rows raises ValueError

  /** `scale_ann`: the scaler fitted for each column label. */
  class ScalerStore {
    var scalers: map<Col, Scaler>

    /** `scale_ann = {}` (preprocess.py:683). */
    constructor()
      ensures scalers == map[]
    {
      scalers := map[];
    }

    /** `addGetScaleCol(df, col)` (preprocess.py:685-696). A one-row frame
        is scaled with the stored scaler and never changes the store; any
        other frame has a scaler fitted on the column, which replaces the
        stored one for `col` and no other. The frame the source changes in
        place is returned as `out`. */
    method AddGetScaleCol(df: Frame, col: Col) returns (out: Frame, step: Step)
      requires df.Valid()
      requires col in df.data && (df.n != 1 || col in scalers) ==> NumericColumn(df.data[col])
      modifies this
      ensures out.Valid() && out.n == df.n
      ensures df.n == 1 ==> scalers == old(scalers)
      ensures df.n == 1 && col in old(scalers) && col in df.data ==>
        step == Transformed && out == SetColumn(df, col, TransformColumn(old(scalers)[col], df.data[col]))
      ensures df.n == 1 && !(col in old(scalers) && col in df.data) ==>
        step == Skipped && out == df
      ensures df.n != 1 && col !in df.data ==>
        step == Failed(MissingColumn) && out == df && scalers == old(scalers)
      ensures df.n == 0 && col in df.data ==>
        step == Failed(NoSamples) && out == df && scalers == old(scalers)
      ensures df.n > 1 && col in df.data ==>
        step == Fitted && scalers == old(scalers)[col := Fit(df.data[col])] &&
        out == SetColumn(df, col, TransformColumn(Fit(df.data[col]), df.data[col]))
    {
      if df.n == 1 {
        if col in scalers && col in df.data {
          out := SetColumn(df, col, TransformColumn(scalers[col], df.data[col]));
          step := Transformed;
        } else {
          out := df;
          step := Skipped;
        }
      } else if col !in df.data {
        out := df;
        step := Failed(MissingColumn);
      } else if df.n == 0 {
        out := df;
        step := Failed(NoSamples);
      } else {
        var scaler := Fit(df.data[col]);
        out := SetColumn(df, col, TransformColumn(scaler, df.data[col]));
        scalers := scalers[col := scaler];
        step := Fitted;
      }
    }
  }
}
