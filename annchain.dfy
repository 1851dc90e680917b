/** A run of addGetScaleCol calls (preprocess.py:685-696) inside
    annPreProc, one column after another, with the frame and the store
    tracked against the columns scaled so far. */
module AnnChain {
  import opened Cells
  import opened Columns
  import opened Frames
  import opened Scaling
  import opened AnnScaling
  import opened AnnAlgebra

  /** One call of addGetScaleCol inside annPreProc, with the store held
      `stored` when annPreProc started. `ok` is false when the call raised.
      A one-row frame scales the column with the stored scaler (or not at
      all) and leaves the store alone; any other frame fits the column,
      scales it and records its scaler. */
  method ScaleStep(f: Frame, c: Col, ghost stored: map<Col, Scaler>, store: ScalerStore) returns (g: Frame, ok: bool)
    requires f.Valid()
    requires c in f.data ==> NumericColumn(f.data[c])
    requires f.n == 1 ==> store.scalers == stored
    modifies store
    ensures g.Valid() && g.n == f.n
    ensures ok <==> f.n == 1 || (f.n > 1 && c in f.data)
    ensures ok && c in f.data ==> g == Frame(f.n, f.data[c := ScaleOne(f.n, stored, c, f.data[c])])
    ensures ok && c !in f.data ==> g == f
    ensures f.n <= 1 || !ok ==> store.scalers == old(store.scalers)
    ensures f.n > 1 && ok ==> store.scalers == old(store.scalers)[c := Fit(f.data[c])]
  {
    var step;
    g, step := store.AddGetScaleCol(f, c);
    ok := !step.Failed?;
    if c in f.data && f.n == 1 && c !in stored {
      assert f.data[c := f.data[c]] == f.data;
    }
  }

  /** Partway through a run of addGetScaleCol calls over the columns of
      `m`: the frame holds `m` with the columns `x` scaled so far, and the
      store holds `stored` (one row) or `s` with the scalers fitted on those
      columns (several rows). */
  predicate Partway(f: Frame, stored: map<Col, Scaler>, scalers: map<Col, Scaler>,
                    m: map<Col, seq<Cell>>, x: set<Col>, s: map<Col, Scaler>) {
    f.n >= 1 && f.Valid() && f.data == m + Scale(f.n, stored, Restrict(m, x)) &&
    (f.n == 1 ==> scalers == stored) && (f.n > 1 ==> scalers == s + Fits(Restrict(m, x)))
  }

  /** Column `c` of `m` is one annPreProc scales, and addGetScaleCol can fit it. */
  predicate Ready(m: map<Col, seq<Cell>>, c: Col) {
    Scaled(c) && c in m && NumericColumn(m[c])
  }

  /** One more call of addGetScaleCol in such a run: column `c` of `m`,
      not scaled so far, is scaled next. */
  method ScaleNext(f: Frame, c: Col, ghost stored: map<Col, Scaler>, store: ScalerStore,
                   ghost m: map<Col, seq<Cell>>, ghost x: set<Col>, ghost s: map<Col, Scaler>) returns (g: Frame)
    requires Partway(f, stored, store.scalers, m, x, s)
    requires Ready(m, c) && c !in x
    modifies store
    ensures g.n == f.n && Partway(g, stored, store.scalers, m, x + {c}, s)
  {
    UnscaledSoFar(f.n, stored, m, x, c);
    var ok;
    g, ok := ScaleStep(f, c, stored, store);
    ScaleColumnInPlace(f.n, stored, m, x, c, s);
  }

  /** Four more calls in such a run, on four columns of `m` in turn, none
      scaled before its call. */
  method ScaleFour(f: Frame, c1: Col, c2: Col, c3: Col, c4: Col, ghost stored: map<Col, Scaler>, store: ScalerStore,
                   ghost m: map<Col, seq<Cell>>, ghost x: set<Col>, ghost s: map<Col, Scaler>) returns (g: Frame)
    requires Partway(f, stored, store.scalers, m, x, s)
    requires Ready(m, c1) && Ready(m, c2) && Ready(m, c3) && Ready(m, c4)
    requires c1 !in x && c2 !in x && c3 !in x && c4 !in x
    requires c1 != c2 && c1 != c3 && c1 != c4 && c2 != c3 && c2 != c4 && c3 != c4
    modifies store
    ensures g.n == f.n && Partway(g, stored, store.scalers, m, x + {c1, c2, c3, c4}, s)
  {
    FreshFour(x, c1, c2, c3, c4);
    g := ScaleNext(f, c1, stored, store, m, x, s);
    g := ScaleNext(g, c2, stored, store, m, x + {c1}, s);
    g := ScaleNext(g, c3, stored, store, m, x + {c1} + {c2}, s);
    g := ScaleNext(g, c4, stored, store, m, x + {c1} + {c2} + {c3}, s);
    FourUnion(x, c1, c2, c3, c4);
  }
}
