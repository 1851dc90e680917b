/** What annPreProc (preprocess.py:701-840) returns, stated as functions of
    the renamed input frame: the feature frame of rfPreProc with the seven
    nominal columns one-hot encoded and the 34 numeric columns it passes
    to addGetScaleCol min-max scaled. */
module AnnSpec {
  import opened Wrappers
  import opened Cells
  import opened Columns
  import opened Frames
  import opened Features
  import opened Scaling
  import opened AnnScaling
  import opened Labels
  import opened Derivation

  /** The columns annPreProc one-hot encodes, in the order it does so. */
  const NominalColumns: set<Col> := {
    MaritalStatus, ApplicationMode, Course, DaytimeEveningAttendance, Nationality, Gender, ScholarshipHolder
  }

  /** The three input columns annPreProc scales without reading them
      otherwise; a frame of several rows that lacks one makes the scaling
      raise. */
  predicate HasGrades(v: Frame) {
    PreviousQualificationGrade in v.data && AdmissionGrade in v.data && AgeAtEnrollment in v.data
  }

  /** Everything annPreProc reads is there and every column it scales holds
      no text. */
  predicate AnnReady(v: Frame) {
    FeatureReady(v) &&
    MaritalStatus in v.data && ApplicationMode in v.data && Course in v.data && DaytimeEveningAttendance in v.data &&
    Nationality in v.data && Gender in v.data && ScholarshipHolder in v.data &&
    (PreviousQualificationGrade in v.data ==> NumericColumn(v.data[PreviousQualificationGrade])) &&
    (AdmissionGrade in v.data ==> NumericColumn(v.data[AdmissionGrade])) &&
    (AgeAtEnrollment in v.data ==> NumericColumn(v.data[AgeAtEnrollment]))
  }

  /** annPreProc returns normally: a one-row frame (whose scaling skips a
      missing column), or a frame of several rows with all three grades. A
      frame of no rows makes the first scaling raise. */
  predicate AnnSucceeds(v: Frame) {
    v.n == 1 || (v.n > 1 && HasGrades(v))
  }

  /** The `i`-th column annPreProc one-hot encodes. */
  function NominalAt(i: nat): (c: Col)
    requires i < 7
    ensures c in NominalColumns
  {
    if i == 0 then MaritalStatus
    else if i == 1 then ApplicationMode
    else if i == 2 then Course
    else if i == 3 then DaytimeEveningAttendance
    else if i == 4 then Nationality
    else if i == 5 then Gender
    else ScholarshipHolder
  }

  /** The indicator columns of the first `k` nominal columns, merged in the
      order annPreProc adds them. */
  function OneHot(v: Frame, k: nat): map<Col, seq<Cell>>
    requires k <= 7
  {
    if k == 0 then map[]
    else
      var c := NominalAt(k - 1);
      OneHot(v, k - 1) + if c in v.data then Dummies(c, v.data[c]) else map[]
  }

  /** Every indicator column comes from a nominal column and has one cell
      per row. */
  lemma {:induction false} OneHotShape(v: Frame, k: nat)
    requires k <= 7
    ensures forall c :: c in OneHot(v, k) ==> c.Indicator? && c.source in NominalColumns
    ensures v.Valid() ==> Sized(OneHot(v, k), v.n)
  {
    if k > 0 {
      OneHotShape(v, k - 1);
    }
  }

  /** The indicator columns of the seven nominal columns. */
  function OneHotColumns(v: Frame): (r: map<Col, seq<Cell>>)
    requires AnnReady(v)
    ensures forall k :: k in r ==> k.Indicator? && k.source in NominalColumns
    ensures Sized(r, v.n)
  {
    OneHotShape(v, 7);
    OneHot(v, 7)
  }

  /** The application order is there and holds no text. */
  predicate HasOrder(v: Frame) {
    v.Valid() && ApplicationOrder in v.data && NumericColumn(v.data[ApplicationOrder])
  }

  /** `#applicationOrder`: the shifted order (preprocess.py:711). */
  function OrderFeature(v: Frame): (r: map<Col, seq<Cell>>)
    requires HasOrder(v)
    ensures r.Keys == {ApplicationOrderShifted}
  {
    map[ApplicationOrderShifted := Map1(Shifted, v.data[ApplicationOrder])]
  }

  /** `#previousQualification` of annPreProc (preprocess.py:722). */
  function PreviousQualificationFeature(v: Frame): (r: map<Col, seq<Cell>>)
    requires HasQualificationInputs(v)
    ensures r.Keys == {PreviousQualificationOrdinal}
  {
    map[PreviousQualificationOrdinal := Map1(QualificationOrdinalOf, v.data[PreviousQualification])]
  }

  /** `#parent qualification` of annPreProc (preprocess.py:733-736). */
  function ParentQualificationFeatures(v: Frame): (r: map<Col, seq<Cell>>)
    requires HasQualificationInputs(v)
    ensures r.Keys == {MotherQualificationOrdinal, FatherQualificationOrdinal, AvgParentalEducation, ParentalEduDisparity}
  {
    var mq := Map1(QualificationOrdinalOf, v.data[MotherQualification]);
    var fq := Map1(QualificationOrdinalOf, v.data[FatherQualification]);
    map[
      MotherQualificationOrdinal := mq,
      FatherQualificationOrdinal := fq,
      AvgParentalEducation := Map2(MeanSkipNaN, mq, fq),
      ParentalEduDisparity := Map2(AbsDiff, mq, fq)
    ]
  }

  /** `#curricularUnits` (preprocess.py:777-794): the columns both halves
      of the curricular section add. */
  function CurricularFeatures(v: Frame): (r: map<Col, seq<Cell>>)
    requires HasCurricularInputs(v)
    ensures r.Keys == RateLabels + ActivityLabels
  {
    RateFeatures(v) + ActivityFeatures(v)
  }

  /** annPreProc derives the same columns as rfPreProc: its sections, merged
      in the order it runs them, give the derived columns of the feature
      derivation. */
  lemma AnnDerivesInOrder(v: Frame)
    requires FeatureReady(v)
    ensures HasOrder(v)
    ensures map[] + OrderFeature(v) + PreviousQualificationFeature(v) + ParentQualificationFeatures(v) +
      OccupationFeatures(v) + CurricularFeatures(v) + EconFeatures(v) + TargetFeatures(v) == Derived(v)
  {
    QualificationsSplit(v);
    Regroup(OrderFeature(v), PreviousQualificationFeature(v), ParentQualificationFeatures(v), OccupationFeatures(v),
      RateFeatures(v), ActivityFeatures(v), EconFeatures(v), TargetFeatures(v));
  }

  /** The two qualification steps of annPreProc add the columns of the
      qualification section. */
  lemma QualificationsSplit(v: Frame)
    requires HasQualificationInputs(v)
    ensures PreviousQualificationFeature(v) + ParentQualificationFeatures(v) == QualificationFeatures(v)
  {
  }

  lemma Regroup<K, V>(o: map<K, V>, p: map<K, V>, q: map<K, V>, w: map<K, V>, r: map<K, V>, t: map<K, V>, e: map<K, V>, g: map<K, V>)
    ensures map[] + o + p + q + w + (r + t) + e + g == o + ((p + q) + w + r + t + e) + g
  {
    var x := (p + q) + w;
    assert map[] + o == o;
    calc {
      map[] + o + p + q + w;
      { MergeAssoc(o, p, q); }
      o + (p + q) + w;
      { MergeAssoc(o, p + q, w); }
      o + x;
    }
    calc {
      o + x + (r + t);
      { MergeAssoc(o, x, r + t); }
      o + (x + (r + t));
      { MergeAssoc(x, r, t); }
      o + (x + r + t);
    }
    MergeAssoc(o, x + r + t, e);
  }

  /** Every column of `q` has `n` cells and holds no text: addGetScaleCol
      can fit each of them. */
  predicate Scalable(q: map<Col, seq<Cell>>, n: nat) {
    Sized(q, n) && forall k :: k in q ==> NumericColumn(q[k])
  }

  lemma ParentQualificationScalable(v: Frame)
    requires HasQualificationInputs(v)
    ensures Scalable(ParentQualificationFeatures(v), v.n)
  {
  }

  lemma OccupationScalable(v: Frame)
    requires HasOccupationInputs(v)
    ensures Scalable(OccupationFeatures(v), v.n)
  {
  }

  lemma CurricularScalable(v: Frame)
    requires HasCurricularInputs(v)
    ensures Scalable(CurricularFeatures(v), v.n)
  {
  }

  lemma EconScalable(v: Frame)
    requires HasEconInputs(v)
    ensures Scalable(EconFeatures(v), v.n)
  {
  }

  /** The frame annPreProc returns for the renamed input `v` when its store
      held `stored` at the start: the frame rfPreProc returns, with the
      nominal columns replaced by their indicator columns and the columns
      annPreProc scales scaled. Every derived column is computed from
      unscaled cells: annPreProc scales a column only after the last
      derivation that reads it. */
  function AnnFeatures(v: Frame, stored: map<Col, Scaler>): Frame
    requires AnnReady(v)
  {
    Frame(v.n, Scale(v.n, stored, DeriveFeatures(v).data - NominalColumns) + OneHotColumns(v))
  }

  /** The scalers a call on a frame of several rows leaves in the store,
      over what was there: one for each scaled column, fitted on the column
      of rfPreProc's frame. */
  function AnnFits(v: Frame): map<Col, Scaler>
    requires AnnReady(v)
  {
    Fits(DeriveFeatures(v).data)
  }
}
