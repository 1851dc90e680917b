/** How each kind of step of annPreProc moves its frame from one stage to
    the next, a stage being `Stage(n, stored, m, d, x, a, u)`: the renamed
    input `m` without the dropped columns `d`, with its columns `x` and the
    derived columns `a` added scaled, and with the indicator columns `u`. */
module AnnStages {
  import opened Cells
  import opened Columns
  import opened Frames
  import opened Scaling
  import opened AnnScaling
  import opened AnnAlgebra

  /** Between two steps of annPreProc on the renamed input `v`, whose store
      held `stored` when it started: the frame is the stage `d`, `x`, `a`,
      `u` of `v`, only columns annPreProc scales have been scaled in place,
      the indicator columns are the only ones get_dummies added, and the
      store holds `stored` (one row) or `stored` with the scalers fitted on
      the scaled and derived columns (several rows). */
  ghost predicate AtStage(f: Frame, v: Frame, stored: map<Col, Scaler>, scalers: map<Col, Scaler>,
                    d: set<Col>, x: set<Col>, a: map<Col, seq<Cell>>, u: map<Col, seq<Cell>>) {
    f.Valid() && f == Frame(v.n, Stage(v.n, stored, v.data, d, x, a, u)) &&
    (forall k :: (k in x ==> Scaled(k)) && (k in a ==> !k.Indicator?) && (k in u ==> k.Indicator?)) &&
    (v.n >= 1 ==> scalers == if v.n == 1 then stored else stored + Fits(Restrict(v.data, x) + a))
  }

  /** Column `c` of the input has not been dropped, scaled, derived or
      one-hot encoded so far. */
  predicate Untouched(c: Col, d: set<Col>, x: set<Col>, a: map<Col, seq<Cell>>, u: map<Col, seq<Cell>>) {
    c !in d && c !in x && c !in a && c !in u
  }

  /** An untouched column still holds its input cells. */
  lemma StageLookup(n: nat, stored: map<Col, Scaler>, m: map<Col, seq<Cell>>, d: set<Col>, x: set<Col>,
                    a: map<Col, seq<Cell>>, u: map<Col, seq<Cell>>, c: Col)
    requires Untouched(c, d, x, a, u)
    ensures c in Stage(n, stored, m, d, x, a, u) <==> c in m
    ensures c in m ==> Stage(n, stored, m, d, x, a, u)[c] == m[c]
  {
    LayeredLookup(m, d, Scale(n, stored, Restrict(m, x) + a), u, c);
  }

  /** Untouched columns `y` still hold their input cells. */
  lemma StageRestrict(n: nat, stored: map<Col, Scaler>, m: map<Col, seq<Cell>>, d: set<Col>, x: set<Col>,
                      a: map<Col, seq<Cell>>, u: map<Col, seq<Cell>>, y: set<Col>)
    requires y !! d && y !! x && y !! a.Keys && y !! u.Keys
    ensures Restrict(Stage(n, stored, m, d, x, a, u), y) == Restrict(m, y)
  {
    MapEqual(Restrict(Stage(n, stored, m, d, x, a, u), y), Restrict(m, y));
  }

  /** `pd.get_dummies` on an untouched column: it is dropped and its
      indicator columns join `u`. */
  lemma StageDummies(n: nat, stored: map<Col, Scaler>, m: map<Col, seq<Cell>>, d: set<Col>, x: set<Col>,
                     a: map<Col, seq<Cell>>, u: map<Col, seq<Cell>>, c: Col)
    requires c in m && Untouched(c, d, x, a, u)
    requires forall k :: k in x ==> !k.Indicator?
    requires forall k :: k in a ==> !k.Indicator?
    ensures (Stage(n, stored, m, d, x, a, u) - {c}) + Dummies(c, m[c]) == Stage(n, stored, m, d + {c}, x, a, u + Dummies(c, m[c]))
  {
    LayeredDummies(m, d, Scale(n, stored, Restrict(m, x) + a), u, c, Dummies(c, m[c]));
  }

  /** A section that adds the columns `b` scaled and drops the input
      columns `e`: `b` joins the derived columns and `e` the dropped ones;
      the scalers fitted on `b` join the store. */
  lemma StageDerive(n: nat, stored: map<Col, Scaler>, m: map<Col, seq<Cell>>, d: set<Col>, x: set<Col>,
                    a: map<Col, seq<Cell>>, u: map<Col, seq<Cell>>, b: map<Col, seq<Cell>>, e: set<Col>, s: map<Col, Scaler>)
    requires b.Keys !! u.Keys
    requires e !! x && e !! a.Keys && e !! b.Keys && e !! u.Keys
    ensures (Stage(n, stored, m, d, x, a, u) + Scale(n, stored, b)) - e == Stage(n, stored, m, d + e, x, a + b, u)
    ensures (s + Fits(Restrict(m, x) + a)) + Fits(b) == s + Fits(Restrict(m, x) + (a + b))
  {
    LayeredDerive(m, d, Scale(n, stored, Restrict(m, x) + a), u, Scale(n, stored, b), e);
    ScaleDerivedNext(n, stored, Restrict(m, x), a, b);
    MergeAssoc(s, Fits(Restrict(m, x) + a), Fits(b));
  }

  /** A section that adds the columns `b` scaled and then scales its
      untouched inputs `y`: `b` joins the derived columns and `y` the scaled
      inputs; the scalers fitted on both join the store. */
  lemma StageDeriveInputs(n: nat, stored: map<Col, Scaler>, m: map<Col, seq<Cell>>, d: set<Col>, x: set<Col>,
                          a: map<Col, seq<Cell>>, u: map<Col, seq<Cell>>, b: map<Col, seq<Cell>>, y: set<Col>, s: map<Col, Scaler>)
    requires b.Keys !! u.Keys
    requires y !! d && y !! x && y !! a.Keys && y !! b.Keys && y !! u.Keys
    ensures var l := Stage(n, stored, m, d, x, a, u);
      (l + Scale(n, stored, b)) + Scale(n, stored, Restrict(l, y)) == Stage(n, stored, m, d, x + y, a + b, u)
    ensures var l := Stage(n, stored, m, d, x, a, u);
      ((s + Fits(Restrict(m, x) + a)) + Fits(b)) + Fits(Restrict(l, y)) == s + Fits(Restrict(m, x + y) + (a + b))
  {
    var w := Scale(n, stored, Restrict(m, x) + a);
    StageRestrict(n, stored, m, d, x, a, u, y);
    LayeredAdd(m, d, w, u, Scale(n, stored, b));
    LayeredAdd(m, d, w + Scale(n, stored, b), u, Scale(n, stored, Restrict(m, y)));
    ScaleDerivedNext(n, stored, Restrict(m, x), a, b);
    ScaleInputsNext(n, stored, m, x, a + b, y);
    MergeAssoc(s, Fits(Restrict(m, x) + a), Fits(b));
    MergeAssoc(s, Fits(Restrict(m, x) + (a + b)), Fits(Restrict(m, y)));
  }

  /** addGetScaleCol on an untouched input column `c` that is present: it
      joins the scaled inputs. */
  lemma StageScaleInput(n: nat, stored: map<Col, Scaler>, m: map<Col, seq<Cell>>, d: set<Col>, x: set<Col>,
                        a: map<Col, seq<Cell>>, u: map<Col, seq<Cell>>, c: Col)
    requires Scaled(c) && Untouched(c, d, x, a, u) && c in m
    ensures var l := Stage(n, stored, m, d, x, a, u);
      l[c := ScaleOne(n, stored, c, m[c])] == Stage(n, stored, m, d, x + {c}, a, u)
  {
    var l := Stage(n, stored, m, d, x, a, u);
    var w := Scale(n, stored, Restrict(m, x) + a);
    StageLookup(n, stored, m, d, x, a, u, c);
    StageRestrict(n, stored, m, d, x, a, u, {c});
    ScalePresent(n, stored, l, c);
    LayeredAdd(m, d, w, u, Scale(n, stored, Restrict(m, {c})));
    ScaleInputsNext(n, stored, m, x, a, {c});
  }

  /** ... and its scaler joins the store. */
  lemma FitInput(m: map<Col, seq<Cell>>, x: set<Col>, a: map<Col, seq<Cell>>, c: Col, s: map<Col, Scaler>)
    requires Scaled(c) && c in m && c !in a
    ensures (s + Fits(Restrict(m, x) + a))[c := Fit(m[c])] == s + Fits(Restrict(m, x + {c}) + a)
  {
    ScaleInputsNext(0, map[], m, x, a, {c});
    ScalePresent(0, map[], m, c);
    MergeAssoc(s, Fits(Restrict(m, x) + a), Fits(Restrict(m, {c})));
    MergeSingleton(s + Fits(Restrict(m, x) + a), c, Fit(m[c]));
  }

  /** On a one-row frame an absent column is skipped: it counts as scaled. */
  lemma StageSkipInput(n: nat, stored: map<Col, Scaler>, m: map<Col, seq<Cell>>, d: set<Col>, x: set<Col>,
                       a: map<Col, seq<Cell>>, u: map<Col, seq<Cell>>, c: Col)
    requires c !in m
    ensures Stage(n, stored, m, d, x, a, u) == Stage(n, stored, m, d, x + {c}, a, u)
  {
    assert Restrict(m, x + {c}) == Restrict(m, x);
  }

  /** Once every column annPreProc scales has been scaled or derived, with
      the consumed columns `c` and the one-hot encoded ones `nom` dropped,
      the stage is the frame of the derivation without `nom`, scaled, with
      the indicator columns added; the scalers fitted are those of that
      frame's columns. */
  lemma StageDone(n: nat, stored: map<Col, Scaler>, m: map<Col, seq<Cell>>, c: set<Col>, nom: set<Col>, x: set<Col>,
                  a: map<Col, seq<Cell>>, u: map<Col, seq<Cell>>)
    requires forall k :: k in x ==> Scaled(k)
    requires x !! c && x !! nom && x !! a.Keys && a.Keys !! nom
    requires forall k :: Scaled(k) ==> k in x || k in a
    ensures Stage(n, stored, m, c + nom, x, a, u) == Scale(n, stored, ((m - c) + a) - nom) + u
    ensures Fits(Restrict(m, x) + a) == Fits((m - c) + a)
  {
    StageScaledDone(n, stored, m, c, nom, x, a);
    MapEqual(Fits(Restrict(m, x) + a), Fits((m - c) + a));
  }

  lemma StageScaledDone(n: nat, stored: map<Col, Scaler>, m: map<Col, seq<Cell>>, c: set<Col>, nom: set<Col>, x: set<Col>,
                        a: map<Col, seq<Cell>>)
    requires forall k :: k in x ==> Scaled(k)
    requires x !! c && x !! nom && x !! a.Keys && a.Keys !! nom
    requires forall k :: Scaled(k) ==> k in x || k in a
    ensures (m - (c + nom)) + Scale(n, stored, Restrict(m, x) + a) == Scale(n, stored, ((m - c) + a) - nom)
  {
    var lhs := (m - (c + nom)) + Scale(n, stored, Restrict(m, x) + a);
    var rhs := Scale(n, stored, ((m - c) + a) - nom);
    forall k | k in lhs
      ensures k in rhs && lhs[k] == rhs[k]
    {
      if k !in a && k !in x {
        assert !Scaled(k);
      }
    }
    MapEqual(lhs, rhs);
  }
}
