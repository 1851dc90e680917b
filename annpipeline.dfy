/** annPreProc (preprocess.py:701-840) as a whole: its steps one after
    another on the renamed input, the frame tracked as a stage of
    AnnAlgebra.Stage between two steps, and what it returns and leaves in
    the scaler store. */
module AnnPipeline {
  import opened Wrappers
  import opened Cells
  import opened Columns
  import opened Frames
  import opened Scaling
  import opened AnnScaling
  import opened AnnAlgebra
  import opened AnnChain
  import opened AnnStages
  import opened Labels
  import opened Derivation
  import opened AnnSpec
  import opened AnnSteps
  import opened Pipelines

  /** Before the first step the frame is the renamed input. */
  lemma StageStart(f: Frame, stored: map<Col, Scaler>)
    requires f.Valid()
    ensures AtStage(f, f, stored, stored, {}, {}, map[], map[])
  {
    assert Restrict(f.data, {}) == map[];
    assert Scale(f.n, stored, map[]) == map[];
  }

  /** `pd.get_dummies(df_ann, columns=[c], drop_first=False, dtype=int)` on
      a nominal column not touched so far: its indicator columns, computed
      from its input cells, replace it. */
  method DummiesStep(f: Frame, c: Col, ghost i: nat, ghost j: nat, ghost v: Frame, ghost stored: map<Col, Scaler>, ghost scalers: map<Col, Scaler>,
                     ghost d: set<Col>, ghost x: set<Col>, ghost a: map<Col, seq<Cell>>)
    returns (g: Frame)
    requires j == i + 1
    requires i < 7
    requires c == NominalAt(i)
    requires AtStage(f, v, stored, scalers, d, x, a, OneHot(v, i))
    requires c in v.data
    requires c !in d
    requires c !in a
    ensures AtStage(g, v, stored, scalers, d + {c}, x, a, OneHot(v, j))
  {
    NominalPlain(i);
    OneHotNext(v, i, j);
    StageLookup(v.n, stored, v.data, d, x, a, OneHot(v, i), c);
    StageDummies(v.n, stored, v.data, d, x, a, OneHot(v, i), c);
    g := GetDummies(f, c);
  }

  /** One more nominal column, when present, adds its indicator columns. */
  lemma OneHotNext(v: Frame, i: nat, j: nat)
    requires j == i + 1 && i < 7 && NominalAt(i) in v.data
    ensures OneHot(v, j) == OneHot(v, i) + Dummies(NominalAt(i), v.data[NominalAt(i)])
  {
  }

  /** The nominal columns are input columns annPreProc does not scale. */
  lemma NominalPlain(i: nat)
    requires i < 7
    ensures !Scaled(NominalAt(i)) && !NominalAt(i).Indicator?
  {
  }

  /** addGetScaleCol on an input column not touched so far: with several
      rows a missing column makes it raise (`ok` false); otherwise the
      column, when present, joins the scaled ones. */
  method ScaleInputStep(f: Frame, c: Col, ghost v: Frame, ghost stored: map<Col, Scaler>, store: ScalerStore,
                        ghost d: set<Col>, ghost x: set<Col>, ghost a: map<Col, seq<Cell>>, ghost u: map<Col, seq<Cell>>)
    returns (g: Frame, ok: bool)
    requires AtStage(f, v, stored, store.scalers, d, x, a, u) && v.n >= 1
    requires Scaled(c) && c !in d && c !in x && c !in a
    requires c in v.data ==> NumericColumn(v.data[c])
    modifies store
    ensures ok <==> v.n == 1 || c in v.data
    ensures ok ==> AtStage(g, v, stored, store.scalers, d, x + {c}, a, u)
    ensures v.n == 1 ==> store.scalers == old(store.scalers)
  {
    StageLookup(v.n, stored, v.data, d, x, a, u, c);
    g, ok := ScaleStep(f, c, stored, store);
    if c in v.data {
      StageScaleInput(v.n, stored, v.data, d, x, a, u, c);
      FitInput(v.data, x, a, c, stored);
    } else {
      StageSkipInput(v.n, stored, v.data, d, x, a, u, c);
    }
  }

  /** The columns `b` a step adds and the input columns `e` it drops are no
      indicator columns, and the dropped ones are neither scaled, derived
      so far (`ak`), nor added. */
  predicate Apart(b: map<Col, seq<Cell>>, e: set<Col>, x: set<Col>, ak: set<Col>) {
    (forall k :: k in b ==> !k.Indicator?) && (forall k :: k in e ==> !k.Indicator?) &&
    e !! x && e !! ak && e !! b.Keys
  }

  /** A section that adds the columns `b` scaled, fitting their scalers,
      and drops the input columns `e` moves the frame from one stage to the
      next. */
  lemma DeriveStep(f: Frame, g: Frame, v: Frame, stored: map<Col, Scaler>, s0: map<Col, Scaler>, s1: map<Col, Scaler>,
                   d: set<Col>, x: set<Col>, a: map<Col, seq<Cell>>, u: map<Col, seq<Cell>>, b: map<Col, seq<Cell>>, e: set<Col>)
    requires AtStage(f, v, stored, s0, d, x, a, u)
    requires g.Valid() && g.n == f.n && g.data == (f.data + Scale(v.n, stored, b)) - e
    requires v.n == 1 ==> s1 == s0
    requires v.n > 1 ==> s1 == s0 + Fits(b)
    requires Apart(b, e, x, a.Keys)
    ensures AtStage(g, v, stored, s1, d + e, x, a + b, u)
  {
    StageDerive(v.n, stored, v.data, d, x, a, u, b, e, stored);
  }

  /** A section that adds the columns `b` scaled and then scales its
      untouched inputs `y`, fitting the scalers of both, moves the frame
      from one stage to the next. */
  lemma DeriveInputsStep(f: Frame, g: Frame, v: Frame, stored: map<Col, Scaler>, s0: map<Col, Scaler>, s1: map<Col, Scaler>,
                         d: set<Col>, x: set<Col>, a: map<Col, seq<Cell>>, u: map<Col, seq<Cell>>, b: map<Col, seq<Cell>>, y: set<Col>)
    requires AtStage(f, v, stored, s0, d, x, a, u)
    requires g.Valid() && g.n == f.n && g.data == (f.data + Scale(v.n, stored, b)) + Scale(v.n, stored, Restrict(f.data, y))
    requires v.n == 1 ==> s1 == s0
    requires v.n > 1 ==> s1 == (s0 + Fits(b)) + Fits(Restrict(f.data, y))
    requires forall k :: k in b ==> !k.Indicator?
    requires forall k :: k in y ==> Scaled(k)
    requires y !! d && y !! x && y !! a.Keys && y !! b.Keys
    ensures AtStage(g, v, stored, s1, d, x + y, a + b, u)
  {
    assert forall k :: k in y ==> !k.Indicator?;
    StageDeriveInputs(v.n, stored, v.data, d, x, a, u, b, y, stored);
  }

  /** A step that adds the columns `b` unscaled, fitting nothing, and drops
      the input columns `e` moves the frame from one stage to the next. */
  lemma UnscaledStep(f: Frame, g: Frame, v: Frame, stored: map<Col, Scaler>, scalers: map<Col, Scaler>,
                     d: set<Col>, x: set<Col>, a: map<Col, seq<Cell>>, u: map<Col, seq<Cell>>, b: map<Col, seq<Cell>>, e: set<Col>)
    requires AtStage(f, v, stored, scalers, d, x, a, u)
    requires g.Valid() && g.n == f.n && g.data == (f.data + b) - e
    requires Scale(v.n, stored, b) == b && Fits(b) == map[]
    requires Apart(b, e, x, a.Keys)
    ensures AtStage(g, v, stored, scalers, d + e, x, a + b, u)
  {
    assert scalers + Fits(b) == scalers;
    DeriveStep(f, g, v, stored, scalers, scalers, d, x, a, u, b, e);
  }

  /** Input columns `y` no step has touched are still those of `v`. */
  lemma StageIntact(f: Frame, v: Frame, stored: map<Col, Scaler>, scalers: map<Col, Scaler>,
                    d: set<Col>, x: set<Col>, a: map<Col, seq<Cell>>, u: map<Col, seq<Cell>>, y: set<Col>)
    requires AtStage(f, v, stored, scalers, d, x, a, u) && HasNumeric(v, y)
    requires y !! d && y !! x && y !! a.Keys && forall k :: k in y ==> !k.Indicator?
    ensures HasNumeric(f, y) && Agree(f, v, y)
  {
    StageRestrict(v.n, stored, v.data, d, x, a, u, y);
    forall c | c in y
      ensures c in f.data && f.data[c] == v.data[c]
    {
      assert c in Restrict(v.data, y);
    }
  }

  /** The stage after `#applicationOrder`. */
  lemma OrderStep(f: Frame, g: Frame, v: Frame, stored: map<Col, Scaler>, s0: map<Col, Scaler>, s1: map<Col, Scaler>,
                  d: set<Col>, x: set<Col>, a: map<Col, seq<Cell>>, u: map<Col, seq<Cell>>, b: map<Col, seq<Cell>>)
    requires AtStage(f, v, stored, s0, d, x, a, u) && b.Keys == {ApplicationOrderShifted}
    requires ApplicationOrder !in x && ApplicationOrder !in a
    requires g.Valid() && g == Frame(f.n, (f.data + Scale(f.n, stored, b)) - {ApplicationOrder})
    requires v.n == 1 ==> s1 == s0
    requires v.n > 1 ==> s1 == s0 + Fits(b)
    ensures AtStage(g, v, stored, s1, d + {ApplicationOrder}, x, a + b, u)
  {
    DeriveStep(f, g, v, stored, s0, s1, d, x, a, u, b, {ApplicationOrder});
  }

  /** `#applicationOrder` of annPreProc (preprocess.py:710-713): the
      shifted order joins the derived columns and the order is dropped. A
      frame of no rows makes the scaling raise. */
  method StageOrder(f: Frame, ghost v: Frame, ghost stored: map<Col, Scaler>, store: ScalerStore,
                    ghost d: set<Col>, ghost x: set<Col>, ghost a: map<Col, seq<Cell>>, ghost u: map<Col, seq<Cell>>)
    returns (g: Frame, ok: bool)
    requires AtStage(f, v, stored, store.scalers, d, x, a, u) && HasOrder(v)
    requires ApplicationOrder !in d && ApplicationOrder !in x && ApplicationOrder !in a
    modifies store
    ensures ok <==> v.n >= 1
    ensures ok ==> AtStage(g, v, stored, store.scalers, d + {ApplicationOrder}, x, a + OrderFeature(v), u)
    ensures v.n <= 1 ==> store.scalers == old(store.scalers)
  {
    StageLookup(v.n, stored, v.data, d, x, a, u, ApplicationOrder);
    g, ok := AnnOrder(f, v, stored, store);
    if ok {
      OrderStep(f, g, v, stored, old(store.scalers), store.scalers, d, x, a, u, OrderFeature(v));
    }
  }

  /** The stage after `#previousQualification`. */
  lemma PreviousQualificationStep(f: Frame, g: Frame, v: Frame, stored: map<Col, Scaler>, s0: map<Col, Scaler>, s1: map<Col, Scaler>,
                                  d: set<Col>, x: set<Col>, a: map<Col, seq<Cell>>, u: map<Col, seq<Cell>>, b: map<Col, seq<Cell>>)
    requires AtStage(f, v, stored, s0, d, x, a, u) && b.Keys == {PreviousQualificationOrdinal}
    requires PreviousQualification !in x && PreviousQualification !in a
    requires g.Valid() && g == Frame(f.n, (f.data + Scale(f.n, stored, b)) - {PreviousQualification})
    requires v.n == 1 ==> s1 == s0
    requires v.n > 1 ==> s1 == s0 + Fits(b)
    ensures AtStage(g, v, stored, s1, d + {PreviousQualification}, x, a + b, u)
  {
    DeriveStep(f, g, v, stored, s0, s1, d, x, a, u, b, {PreviousQualification});
  }

  /** `#previousQualification` of annPreProc (preprocess.py:721-724). */
  method StagePreviousQualification(f: Frame, ghost v: Frame, ghost stored: map<Col, Scaler>, store: ScalerStore,
                                    ghost d: set<Col>, ghost x: set<Col>, ghost a: map<Col, seq<Cell>>, ghost u: map<Col, seq<Cell>>)
    returns (g: Frame)
    requires AtStage(f, v, stored, store.scalers, d, x, a, u) && HasQualificationInputs(v) && v.n >= 1
    requires PreviousQualification !in d && PreviousQualification !in x && PreviousQualification !in a
    modifies store
    ensures AtStage(g, v, stored, store.scalers, d + {PreviousQualification}, x, a + PreviousQualificationFeature(v), u)
  {
    StageLookup(v.n, stored, v.data, d, x, a, u, PreviousQualification);
    g := AnnPreviousQualification(f, v, stored, store);
    PreviousQualificationStep(f, g, v, stored, old(store.scalers), store.scalers, d, x, a, u, PreviousQualificationFeature(v));
  }

  /** The columns `#parent qualification` adds and drops are none of the
      indicator, scaled or derived columns so far. */
  lemma ParentKeys(b: map<Col, seq<Cell>>, x: set<Col>, ak: set<Col>)
    requires b.Keys == {MotherQualificationOrdinal, FatherQualificationOrdinal, AvgParentalEducation, ParentalEduDisparity}
    requires MotherQualification !in x && MotherQualification !in ak
    requires FatherQualification !in x && FatherQualification !in ak
    ensures Apart(b, {MotherQualification, FatherQualification}, x, ak)
  {
  }

  /** The stage after `#parent qualification`. */
  lemma ParentQualificationsStep(f: Frame, g: Frame, v: Frame, stored: map<Col, Scaler>, s0: map<Col, Scaler>, s1: map<Col, Scaler>,
                                 d: set<Col>, x: set<Col>, a: map<Col, seq<Cell>>, u: map<Col, seq<Cell>>, b: map<Col, seq<Cell>>)
    requires AtStage(f, v, stored, s0, d, x, a, u) && b.Keys == {MotherQualificationOrdinal, FatherQualificationOrdinal, AvgParentalEducation, ParentalEduDisparity}
    requires MotherQualification !in x && MotherQualification !in a
    requires FatherQualification !in x && FatherQualification !in a
    requires g.Valid() && g == Frame(f.n, (f.data + Scale(f.n, stored, b)) - {MotherQualification, FatherQualification})
    requires v.n == 1 ==> s1 == s0
    requires v.n > 1 ==> s1 == s0 + Fits(b)
    ensures AtStage(g, v, stored, s1, d + {MotherQualification, FatherQualification}, x, a + b, u)
  {
    ParentKeys(b, x, a.Keys);
    DeriveStep(f, g, v, stored, s0, s1, d, x, a, u, b, {MotherQualification, FatherQualification});
  }

  /** `#parent qualification` of annPreProc (preprocess.py:732-742). */
  method StageParentQualifications(f: Frame, ghost v: Frame, ghost stored: map<Col, Scaler>, store: ScalerStore,
                                   ghost d: set<Col>, ghost x: set<Col>, ghost a: map<Col, seq<Cell>>, ghost u: map<Col, seq<Cell>>)
    returns (g: Frame)
    requires AtStage(f, v, stored, store.scalers, d, x, a, u) && HasQualificationInputs(v) && v.n >= 1
    requires MotherQualification !in d && MotherQualification !in x && MotherQualification !in a
    requires FatherQualification !in d && FatherQualification !in x && FatherQualification !in a
    modifies store
    ensures AtStage(g, v, stored, store.scalers, d + {MotherQualification, FatherQualification}, x, a + ParentQualificationFeatures(v), u)
  {
    StageLookup(v.n, stored, v.data, d, x, a, u, MotherQualification);
    StageLookup(v.n, stored, v.data, d, x, a, u, FatherQualification);
    g := AnnParentQualifications(f, v, stored, store);
    ParentQualificationsStep(f, g, v, stored, old(store.scalers), store.scalers, d, x, a, u, ParentQualificationFeatures(v));
  }

  /** The same for `#parent occupation`. */
  lemma OccupationKeys(b: map<Col, seq<Cell>>, x: set<Col>, ak: set<Col>)
    requires b.Keys == OccupationLabels
    requires MotherOccupation !in x && MotherOccupation !in ak
    requires FatherOccupation !in x && FatherOccupation !in ak
    ensures Apart(b, {MotherOccupation, FatherOccupation}, x, ak)
  {
  }

  /** The stage after `#parent occupation`. */
  lemma OccupationsStep(f: Frame, g: Frame, v: Frame, stored: map<Col, Scaler>, s0: map<Col, Scaler>, s1: map<Col, Scaler>,
                        d: set<Col>, x: set<Col>, a: map<Col, seq<Cell>>, u: map<Col, seq<Cell>>, b: map<Col, seq<Cell>>)
    requires AtStage(f, v, stored, s0, d, x, a, u) && b.Keys == OccupationLabels
    requires MotherOccupation !in x && MotherOccupation !in a
    requires FatherOccupation !in x && FatherOccupation !in a
    requires g.Valid() && g == Frame(f.n, (f.data + Scale(f.n, stored, b)) - {MotherOccupation, FatherOccupation})
    requires v.n == 1 ==> s1 == s0
    requires v.n > 1 ==> s1 == s0 + Fits(b)
    ensures AtStage(g, v, stored, s1, d + {MotherOccupation, FatherOccupation}, x, a + b, u)
  {
    OccupationKeys(b, x, a.Keys);
    DeriveStep(f, g, v, stored, s0, s1, d, x, a, u, b, {MotherOccupation, FatherOccupation});
  }

  /** `#parent occupation` of annPreProc (preprocess.py:744-754). */
  method StageOccupations(f: Frame, ghost v: Frame, ghost stored: map<Col, Scaler>, store: ScalerStore,
                          ghost d: set<Col>, ghost x: set<Col>, ghost a: map<Col, seq<Cell>>, ghost u: map<Col, seq<Cell>>)
    returns (g: Frame)
    requires AtStage(f, v, stored, store.scalers, d, x, a, u) && HasOccupationInputs(v) && v.n >= 1
    requires MotherOccupation !in d && MotherOccupation !in x && MotherOccupation !in a
    requires FatherOccupation !in d && FatherOccupation !in x && FatherOccupation !in a
    modifies store
    ensures AtStage(g, v, stored, store.scalers, d + {MotherOccupation, FatherOccupation}, x, a + OccupationFeatures(v), u)
  {
    StageLookup(v.n, stored, v.data, d, x, a, u, MotherOccupation);
    StageLookup(v.n, stored, v.data, d, x, a, u, FatherOccupation);
    g := AnnOccupations(f, v, stored, store);
    OccupationsStep(f, g, v, stored, old(store.scalers), store.scalers, d, x, a, u, OccupationFeatures(v));
  }

  /** The curricular inputs are scaled, and the curricular features are
      neither inputs nor indicator columns. */
  lemma CurricularKeys(b: map<Col, seq<Cell>>)
    requires b.Keys == RateLabels + ActivityLabels
    ensures forall k :: k in b ==> !k.Indicator?
    ensures forall k :: k in CurricularInputs ==> Scaled(k)
    ensures CurricularInputs !! b.Keys
  {
    CurricularDisjoint();
  }

  /** The stage after `#curricularUnits`. */
  lemma CurricularStep(f: Frame, g: Frame, v: Frame, stored: map<Col, Scaler>, s0: map<Col, Scaler>, s1: map<Col, Scaler>,
                       d: set<Col>, x: set<Col>, a: map<Col, seq<Cell>>, u: map<Col, seq<Cell>>, b: map<Col, seq<Cell>>)
    requires AtStage(f, v, stored, s0, d, x, a, u) && b.Keys == RateLabels + ActivityLabels
    requires CurricularInputs !! d && CurricularInputs !! x && CurricularInputs !! a.Keys
    requires g.Valid() && g == Frame(f.n, (f.data + Scale(f.n, stored, b)) + Scale(f.n, stored, Restrict(f.data, CurricularInputs)))
    requires v.n == 1 ==> s1 == s0
    requires v.n > 1 ==> s1 == (s0 + Fits(b)) + Fits(Restrict(f.data, CurricularInputs))
    ensures AtStage(g, v, stored, s1, d, x + CurricularInputs, a + b, u)
  {
    CurricularKeys(b);
    DeriveInputsStep(f, g, v, stored, s0, s1, d, x, a, u, b, CurricularInputs);
  }

  /** `#curricularUnits` of annPreProc (preprocess.py:776-813): the
      curricular features join the derived columns and the twelve inputs
      the scaled ones. */
  method StageCurricular(f: Frame, ghost v: Frame, ghost stored: map<Col, Scaler>, store: ScalerStore,
                         ghost d: set<Col>, ghost x: set<Col>, ghost a: map<Col, seq<Cell>>, ghost u: map<Col, seq<Cell>>)
    returns (g: Frame)
    requires AtStage(f, v, stored, store.scalers, d, x, a, u) && HasCurricularInputs(v) && v.n >= 1
    requires CurricularInputs !! d && CurricularInputs !! x && CurricularInputs !! a.Keys
    modifies store
    ensures AtStage(g, v, stored, store.scalers, d, x + CurricularInputs, a + CurricularFeatures(v), u)
  {
    StageIntact(f, v, stored, store.scalers, d, x, a, u, CurricularInputs);
    g := AnnCurricular(f, v, stored, store);
    CurricularStep(f, g, v, stored, old(store.scalers), store.scalers, d, x, a, u, CurricularFeatures(v));
  }

  /** The same for the economic section. */
  lemma EconKeys(b: map<Col, seq<Cell>>)
    requires b.Keys == EconLabels
    ensures forall k :: k in b ==> !k.Indicator?
    ensures forall k :: k in EconInputs ==> Scaled(k)
    ensures EconInputs !! b.Keys
  {
  }

  /** The stage after `#econ`, `#year` and the economic inputs. */
  lemma EconStep(f: Frame, g: Frame, v: Frame, stored: map<Col, Scaler>, s0: map<Col, Scaler>, s1: map<Col, Scaler>,
                 d: set<Col>, x: set<Col>, a: map<Col, seq<Cell>>, u: map<Col, seq<Cell>>, b: map<Col, seq<Cell>>)
    requires AtStage(f, v, stored, s0, d, x, a, u) && b.Keys == EconLabels
    requires EconInputs !! d && EconInputs !! x && EconInputs !! a.Keys
    requires g.Valid() && g == Frame(f.n, (f.data + Scale(f.n, stored, b)) + Scale(f.n, stored, Restrict(f.data, EconInputs)))
    requires v.n == 1 ==> s1 == s0
    requires v.n > 1 ==> s1 == (s0 + Fits(b)) + Fits(Restrict(f.data, EconInputs))
    ensures AtStage(g, v, stored, s1, d, x + EconInputs, a + b, u)
  {
    EconKeys(b);
    DeriveInputsStep(f, g, v, stored, s0, s1, d, x, a, u, b, EconInputs);
  }

  /** `#econ`, `#year` and the three economic inputs of annPreProc
      (preprocess.py:815-831). */
  method StageEcon(f: Frame, ghost v: Frame, ghost stored: map<Col, Scaler>, store: ScalerStore,
                   ghost d: set<Col>, ghost x: set<Col>, ghost a: map<Col, seq<Cell>>, ghost u: map<Col, seq<Cell>>)
    returns (g: Frame)
    requires AtStage(f, v, stored, store.scalers, d, x, a, u) && HasEconInputs(v) && v.n >= 1
    requires EconInputs !! d && EconInputs !! x && EconInputs !! a.Keys
    modifies store
    ensures AtStage(g, v, stored, store.scalers, d, x + EconInputs, a + EconFeatures(v), u)
  {
    StageIntact(f, v, stored, store.scalers, d, x, a, u, EconInputs);
    g := AnnEcon(f, v, stored, store);
    EconStep(f, g, v, stored, old(store.scalers), store.scalers, d, x, a, u, EconFeatures(v));
  }

  /** The target codes are not scaled, and no scaler is fitted on them. */
  lemma TargetUnscaled(n: nat, stored: map<Col, Scaler>, v: Frame)
    requires v.Valid() && (v.n > 1 ==> Target in v.data)
    ensures Scale(n, stored, TargetFeatures(v)) == TargetFeatures(v)
    ensures Fits(TargetFeatures(v)) == map[]
  {
    MapEqual(Scale(n, stored, TargetFeatures(v)), TargetFeatures(v));
    MapEqual(Fits(TargetFeatures(v)), map[]);
  }

  /** The stage after `#target`. */
  lemma TargetStep(f: Frame, g: Frame, v: Frame, stored: map<Col, Scaler>, scalers: map<Col, Scaler>,
                   d: set<Col>, x: set<Col>, a: map<Col, seq<Cell>>, u: map<Col, seq<Cell>>)
    requires AtStage(f, v, stored, scalers, d, x, a, u) && v.Valid() && (v.n > 1 ==> Target in v.data)
    requires Target !in x && Target !in a
    requires g.Valid() && g == Frame(f.n, (f.data + TargetFeatures(v)) - {Target})
    ensures AtStage(g, v, stored, scalers, d + {Target}, x, a + TargetFeatures(v), u)
  {
    TargetUnscaled(v.n, stored, v);
    UnscaledStep(f, g, v, stored, scalers, d, x, a, u, TargetFeatures(v), {Target});
  }

  /** `#target` of annPreProc (preprocess.py:833-838): the class codes join
      the derived columns (several rows) and the outcome is dropped. */
  method StageTarget(f: Frame, ghost v: Frame, ghost stored: map<Col, Scaler>, ghost scalers: map<Col, Scaler>,
                     ghost d: set<Col>, ghost x: set<Col>, ghost a: map<Col, seq<Cell>>, ghost u: map<Col, seq<Cell>>)
    returns (g: Frame)
    requires AtStage(f, v, stored, scalers, d, x, a, u) && v.Valid() && (v.n > 1 ==> Target in v.data)
    requires Target !in d && Target !in x && Target !in a
    ensures AtStage(g, v, stored, scalers, d + {Target}, x, a + TargetFeatures(v), u)
  {
    StageLookup(v.n, stored, v.data, d, x, a, u, Target);
    g := EncodeTarget(f, v);
    TargetStep(f, g, v, stored, scalers, d, x, a, u);
  }
}
