/** How the column changes of annPreProc compose. Between two of its steps
    its frame is always `Stage(input, d, x, a, u)`: the renamed input
    without the dropped columns `d`, with the input columns `x` and the
    derived columns `a` added scaled, and with the indicator columns `u`
    added by get_dummies. */
module AnnAlgebra {
  import opened Cells
  import opened Columns
  import opened Frames
  import opened Scaling
  import opened AnnScaling

  /** `m` without `d`, then `w` and `u` added in this order. */
  function Layered<K, V>(m: map<K, V>, d: set<K>, w: map<K, V>, u: map<K, V>): map<K, V> {
    ((m - d) + w) + u
  }

  lemma LayeredDummies<K, V>(m: map<K, V>, d: set<K>, w: map<K, V>, u: map<K, V>, c: K, a: map<K, V>)
    requires c !in w && c !in u && a.Keys !! w.Keys
    ensures (Layered(m, d, w, u) - {c}) + a == Layered(m, d + {c}, w, u + a)
  {
  }

  lemma LayeredDerive<K, V>(m: map<K, V>, d: set<K>, w: map<K, V>, u: map<K, V>, a: map<K, V>, x: set<K>)
    requires x !! w.Keys && x !! a.Keys && x !! u.Keys && a.Keys !! u.Keys
    ensures (Layered(m, d, w, u) + a) - x == Layered(m, d + x, w + a, u)
  {
  }

  lemma LayeredAdd<K, V>(m: map<K, V>, d: set<K>, w: map<K, V>, u: map<K, V>, a: map<K, V>)
    requires a.Keys !! u.Keys
    ensures Layered(m, d, w, u) + a == Layered(m, d, w + a, u)
  {
  }

  lemma LayeredLookup<K, V>(m: map<K, V>, d: set<K>, w: map<K, V>, u: map<K, V>, c: K)
    requires c !in d && c !in w && c !in u
    ensures c in Layered(m, d, w, u) <==> c in m
    ensures c in m ==> Layered(m, d, w, u)[c] == m[c]
  {
  }

  /** The frame after some steps of annPreProc on the input `m`. */
  function Stage(n: nat, stored: map<Col, Scaler>, m: map<Col, seq<Cell>>, d: set<Col>, x: set<Col>,
                 a: map<Col, seq<Cell>>, u: map<Col, seq<Cell>>): map<Col, seq<Cell>> {
    Layered(m, d, Scale(n, stored, Restrict(m, x) + a), u)
  }

  /** The columns of `m` that are in `x` or in `y`. */
  lemma RestrictMerge(m: map<Col, seq<Cell>>, x: set<Col>, y: set<Col>)
    ensures Restrict(m, x) + Restrict(m, y) == Restrict(m, x + y)
  {
  }

  /** Scaling more input columns `y`. */
  lemma ScaleInputsNext(n: nat, stored: map<Col, Scaler>, m: map<Col, seq<Cell>>, x: set<Col>, a: map<Col, seq<Cell>>, y: set<Col>)
    requires y !! a.Keys
    ensures Scale(n, stored, Restrict(m, x) + a) + Scale(n, stored, Restrict(m, y))
      == Scale(n, stored, Restrict(m, x + y) + a)
    ensures Fits(Restrict(m, x) + a) + Fits(Restrict(m, y)) == Fits(Restrict(m, x + y) + a)
  {
    ScaleMerge(n, stored, Restrict(m, x) + a, Restrict(m, y));
    FitsMerge(Restrict(m, x) + a, Restrict(m, y));
    MergeSwap(Restrict(m, x), a, Restrict(m, y));
    RestrictMerge(m, x, y);
  }

  /** Adding more derived columns, scaled. */
  lemma ScaleDerivedNext(n: nat, stored: map<Col, Scaler>, r: map<Col, seq<Cell>>, a: map<Col, seq<Cell>>, b: map<Col, seq<Cell>>)
    ensures Scale(n, stored, r + a) + Scale(n, stored, b) == Scale(n, stored, r + (a + b))
    ensures Fits(r + a) + Fits(b) == Fits(r + (a + b))
  {
    ScaleMerge(n, stored, r + a, b);
    FitsMerge(r + a, b);
    MergeAssoc(r, a, b);
  }

  /** Scaling a present column in place is updating it. */
  lemma ScalePresent(n: nat, stored: map<Col, Scaler>, m: map<Col, seq<Cell>>, c: Col)
    requires c in m && Scaled(c)
    ensures m + Scale(n, stored, Restrict(m, {c})) == m[c := ScaleOne(n, stored, c, m[c])]
    ensures Fits(Restrict(m, {c})) == map[c := Fit(m[c])]
  {
    var r := Restrict(m, {c});
    assert r == map[c := m[c]];
    var t := Scale(n, stored, r);
    assert t.Keys == {c};
    assert t[c] == ScaleOne(n, stored, c, m[c]);
    assert t == map[c := ScaleOne(n, stored, c, m[c])];
    var fr := Fits(r);
    assert fr.Keys == {c};
    assert fr[c] == Fit(m[c]);
    MergeSingleton(m, c, ScaleOne(n, stored, c, m[c]));
    MapEqual(fr, map[c := Fit(m[c])]);
  }

  lemma MapEqual<K, V>(a: map<K, V>, b: map<K, V>)
    requires a.Keys == b.Keys && forall k :: k in a ==> a[k] == b[k]
    ensures a == b
  {
  }

  lemma MergeSingleton<K, V>(m: map<K, V>, k: K, x: V)
    ensures m + map[k := x] == m[k := x]
  {
  }

  /** Four updates in a row are a merge of the four new entries. */
  lemma Updates4<K, V>(m: map<K, V>, k1: K, k2: K, k3: K, k4: K, b1: V, b2: V, b3: V, b4: V)
    ensures m[k1 := b1][k2 := b2][k3 := b3][k4 := b4] == m + map[k1 := b1, k2 := b2, k3 := b3, k4 := b4]
  {
  }

  /** Three updates in a row are a merge of the three new entries. */
  lemma Updates3<K, V>(m: map<K, V>, k1: K, k2: K, k3: K, b1: V, b2: V, b3: V)
    ensures m[k1 := b1][k2 := b2][k3 := b3] == m + map[k1 := b1, k2 := b2, k3 := b3]
  {
  }

  /** Scaling nothing changes nothing. */
  lemma ScaleNoneYet(n: nat, stored: map<Col, Scaler>, m: map<Col, seq<Cell>>, s: map<Col, Scaler>)
    ensures m + Scale(n, stored, Restrict(m, {})) == m
    ensures s + Fits(Restrict(m, {})) == s
  {
    assert Restrict(m, {}) == map[];
  }

  /** Scaling the columns `x` of `m` one after another, then `c`, is scaling
      `x + {c}`; `c` is scaled (and fitted) on its cells in `m`. */
  lemma ScaleColumnNext(n: nat, stored: map<Col, Scaler>, m: map<Col, seq<Cell>>, x: set<Col>, c: Col, s: map<Col, Scaler>)
    requires c !in x
    ensures var h := m + Scale(n, stored, Restrict(m, x));
      h + Scale(n, stored, Restrict(h, {c})) == m + Scale(n, stored, Restrict(m, x + {c}))
    ensures var h := m + Scale(n, stored, Restrict(m, x));
      (s + Fits(Restrict(m, x))) + Fits(Restrict(h, {c})) == s + Fits(Restrict(m, x + {c}))
  {
    var h := m + Scale(n, stored, Restrict(m, x));
    RestrictUnscaled(n, stored, m, x, c);
    RestrictMerge(m, x, {c});
    ScaleMerge(n, stored, Restrict(m, x), Restrict(m, {c}));
    FitsMerge(Restrict(m, x), Restrict(m, {c}));
    MergeAssoc(m, Scale(n, stored, Restrict(m, x)), Scale(n, stored, Restrict(m, {c})));
    MergeAssoc(s, Fits(Restrict(m, x)), Fits(Restrict(m, {c})));
  }

  /** Scaling column `c` of `m` in place, once the columns `x` are scaled,
      is scaling `x + {c}`. */
  lemma ScaleColumnInPlace(n: nat, stored: map<Col, Scaler>, m: map<Col, seq<Cell>>, x: set<Col>, c: Col, s: map<Col, Scaler>)
    requires c !in x && c in m && Scaled(c)
    ensures var h := m + Scale(n, stored, Restrict(m, x));
      h[c := ScaleOne(n, stored, c, h[c])] == m + Scale(n, stored, Restrict(m, x + {c}))
    ensures (s + Fits(Restrict(m, x)))[c := Fit(m[c])] == s + Fits(Restrict(m, x + {c}))
  {
    var h := m + Scale(n, stored, Restrict(m, x));
    ScalePresent(n, stored, h, c);
    MergeSingleton(s + Fits(Restrict(m, x)), c, Fit(h[c]));
    ScaleColumnNext(n, stored, m, x, c, s);
    RestrictUnscaled(n, stored, m, x, c);
  }

  lemma PairUnion<K>(a: K, b: K)
    ensures {a} + {b} == {a, b}
  {
  }

  lemma FourUnion<K>(x: set<K>, a: K, b: K, c: K, d: K)
    ensures x + {a} + {b} + {c} + {d} == x + {a, b, c, d}
  {
  }

  lemma FreshFour<K>(x: set<K>, a: K, b: K, c: K, d: K)
    requires a !in x && b !in x && c !in x && d !in x
    requires a != b && a != c && a != d && b != c && b != d && c != d
    ensures b !in x + {a} && c !in x + {a} + {b} && d !in x + {a} + {b} + {c}
  {
  }

  /** Dropping one key keeps every other. */
  lemma DropOther<K, V>(m: map<K, V>, a: K, b: K)
    requires b in m && a != b
    ensures b in m - {a}
  {
  }

  /** A column not scaled yet holds its cells. */
  lemma UnscaledSoFar(n: nat, stored: map<Col, Scaler>, m: map<Col, seq<Cell>>, x: set<Col>, c: Col)
    requires c !in x && c in m
    ensures c in m + Scale(n, stored, Restrict(m, x)) && (m + Scale(n, stored, Restrict(m, x)))[c] == m[c]
  {
  }

  lemma RestrictUnscaled(n: nat, stored: map<Col, Scaler>, m: map<Col, seq<Cell>>, x: set<Col>, c: Col)
    requires c !in x
    ensures Restrict(m + Scale(n, stored, Restrict(m, x)), {c}) == Restrict(m, {c})
  {
    MapEqual(Restrict(m + Scale(n, stored, Restrict(m, x)), {c}), Restrict(m, {c}));
  }

  /** Once every scaled column of the added `a` has been scaled, the frame is
      `f` with `a` added scaled, and the scalers fitted are those of `a`. */
  lemma ScaleAddedDone(n: nat, stored: map<Col, Scaler>, f: map<Col, seq<Cell>>, a: map<Col, seq<Cell>>, x: set<Col>)
    requires x <= a.Keys
    requires forall k :: k in a && Scaled(k) ==> k in x
    ensures (f + a) + Scale(n, stored, Restrict(f + a, x)) == f + Scale(n, stored, a)
    ensures Fits(Restrict(f + a, x)) == Fits(a)
  {
    ScaledAddedDone(n, stored, f, a, x);
    FittedAddedDone(f, a, x);
  }

  lemma ScaledAddedDone(n: nat, stored: map<Col, Scaler>, f: map<Col, seq<Cell>>, a: map<Col, seq<Cell>>, x: set<Col>)
    requires x <= a.Keys
    requires forall k :: k in a && Scaled(k) ==> k in x
    ensures (f + a) + Scale(n, stored, Restrict(f + a, x)) == f + Scale(n, stored, a)
  {
    MapEqual((f + a) + Scale(n, stored, Restrict(f + a, x)), f + Scale(n, stored, a));
  }

  lemma FittedAddedDone(f: map<Col, seq<Cell>>, a: map<Col, seq<Cell>>, x: set<Col>)
    requires x <= a.Keys
    requires forall k :: k in a && Scaled(k) ==> k in x
    ensures Fits(Restrict(f + a, x)) == Fits(a)
  {
    MapEqual(Fits(Restrict(f + a, x)), Fits(a));
  }

  /** A single scaled column. */
  lemma ScaleSingleton(n: nat, stored: map<Col, Scaler>, c: Col, a: seq<Cell>)
    requires Scaled(c)
    ensures Scale(n, stored, map[c := a]) == map[c := ScaleOne(n, stored, c, a)]
    ensures Fits(map[c := a]) == map[c := Fit(a)]
  {
    MapEqual(Scale(n, stored, map[c := a]), map[c := ScaleOne(n, stored, c, a)]);
    MapEqual(Fits(map[c := a]), map[c := Fit(a)]);
  }

  /** A column set and then overwritten is the second value merged in. */
  lemma SetTwice<K, V>(m: map<K, V>, k: K, x: V, y: V)
    ensures m[k := x][k := y] == m + map[k := y]
  {
  }

  /** Scaling, column by column, the added `a` and the columns `y` of `f`
      (in any order of the columns `x`) is adding `a` scaled and then
      scaling `y`. */
  lemma ScaleSplit(n: nat, stored: map<Col, Scaler>, f: map<Col, seq<Cell>>, a: map<Col, seq<Cell>>,
                   x: set<Col>, y: set<Col>, s: map<Col, Scaler>)
    requires y !! a.Keys
    requires forall k :: k in x ==> k in y || k in a
    requires forall k :: k in y ==> k in x
    requires forall k :: k in a && Scaled(k) ==> k in x
    ensures (f + a) + Scale(n, stored, Restrict(f + a, x)) == (f + Scale(n, stored, a)) + Scale(n, stored, Restrict(f, y))
    ensures s + Fits(Restrict(f + a, x)) == (s + Fits(a)) + Fits(Restrict(f, y))
  {
    ScaledSplit(n, stored, f, a, x, y);
    FittedSplit(f, a, x, y);
    MergeAssoc(s, Fits(a), Fits(Restrict(f, y)));
  }

  lemma ScaledSplit(n: nat, stored: map<Col, Scaler>, f: map<Col, seq<Cell>>, a: map<Col, seq<Cell>>, x: set<Col>, y: set<Col>)
    requires y !! a.Keys
    requires forall k :: k in x ==> k in y || k in a
    requires forall k :: k in y ==> k in x
    requires forall k :: k in a && Scaled(k) ==> k in x
    ensures (f + a) + Scale(n, stored, Restrict(f + a, x)) == (f + Scale(n, stored, a)) + Scale(n, stored, Restrict(f, y))
  {
    MapEqual((f + a) + Scale(n, stored, Restrict(f + a, x)), (f + Scale(n, stored, a)) + Scale(n, stored, Restrict(f, y)));
  }

  lemma FittedSplit(f: map<Col, seq<Cell>>, a: map<Col, seq<Cell>>, x: set<Col>, y: set<Col>)
    requires y !! a.Keys
    requires forall k :: k in x ==> k in y || k in a
    requires forall k :: k in y ==> k in x
    requires forall k :: k in a && Scaled(k) ==> k in x
    ensures Fits(Restrict(f + a, x)) == Fits(a) + Fits(Restrict(f, y))
  {
    MapEqual(Fits(Restrict(f + a, x)), Fits(a) + Fits(Restrict(f, y)));
  }

  /** Setting a column that is not among the scaled ones commutes with the
      scaling done so far. */
  lemma SetAfterScale(n: nat, stored: map<Col, Scaler>, m: map<Col, seq<Cell>>, x: set<Col>, k: Col, cells: seq<Cell>)
    requires k !in x
    ensures (m + Scale(n, stored, Restrict(m, x)))[k := cells] == m[k := cells] + Scale(n, stored, Restrict(m[k := cells], x))
    ensures Fits(Restrict(m[k := cells], x)) == Fits(Restrict(m, x))
  {
    MapEqual(Restrict(m[k := cells], x), Restrict(m, x));
    MapEqual((m + Scale(n, stored, Restrict(m, x)))[k := cells], m[k := cells] + Scale(n, stored, Restrict(m, x)));
  }
}
