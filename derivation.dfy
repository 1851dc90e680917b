/** The feature derivation the three pipelines of preprocess.py share,
    stated as functions of the renamed input frame: the columns each section
    reads and adds, the columns each section derives, and DeriveFeatures, the
    frame rfPreProc and hgbPreProc return. */
module Derivation {
  import opened Wrappers
  import opened Cells
  import opened Columns
  import opened Frames
  import opened Features
  import opened Labels

  /** The frame has the columns `cols` (reading a missing column makes
      pandas raise KeyError). */
  predicate Has(v: Frame, cols: set<Col>) {
    v.Valid() && forall c :: c in cols ==> c in v.data
  }

  /** The frame has the columns `cols` and they hold no text (arithmetic on
      text makes pandas raise TypeError). */
  predicate HasNumeric(v: Frame, cols: set<Col>) {
    Has(v, cols) && forall c :: c in cols ==> NumericColumn(v.data[c])
  }

  predicate HasQualificationInputs(v: Frame) { Has(v, QualificationInputs) }
  predicate HasOccupationInputs(v: Frame) { Has(v, OccupationInputs) }
  predicate HasCurricularInputs(v: Frame) { HasNumeric(v, CurricularInputs) }
  predicate HasEconInputs(v: Frame) { HasNumeric(v, EconInputs) }

  /** Every column of `m` has `n` cells. */
  predicate Sized(m: map<Col, seq<Cell>>, n: nat) {
    forall c :: c in m ==> |m[c]| == n
  }

  /** `a` and `b` hold the same cells in the columns `cols`. */
  predicate Agree(a: Frame, b: Frame, cols: set<Col>)
    requires Has(a, cols) && Has(b, cols)
  {
    a.n == b.n && forall c :: c in cols ==> a.data[c] == b.data[c]
  }

  /** Everything the feature derivation reads is there: a renamed frame the
      pipelines run on without raising. The outcome column is read only when
      the frame has more than one row. */
  predicate FeatureReady(v: Frame) {
    v.Valid() &&
    ApplicationOrder in v.data && NumericColumn(v.data[ApplicationOrder]) &&
    HasQualificationInputs(v) && HasOccupationInputs(v) && HasCurricularInputs(v) && HasEconInputs(v) &&
    (v.n > 1 ==> Target in v.data)
  }

  /** `#previousQualification` and `#parent qualification`
      (preprocess.py:595-606): the tiers of the three qualification codes,
      and the parents' average tier and tier distance. */
  function QualificationFeatures(v: Frame): (r: map<Col, seq<Cell>>)
    requires HasQualificationInputs(v)
    ensures r.Keys == QualificationLabels
    ensures Sized(r, v.n)
  {
    var mq := Map1(QualificationOrdinalOf, v.data[MotherQualification]);
    var fq := Map1(QualificationOrdinalOf, v.data[FatherQualification]);
    map[
      PreviousQualificationOrdinal := Map1(QualificationOrdinalOf, v.data[PreviousQualification]),
      MotherQualificationOrdinal := mq,
      FatherQualificationOrdinal := fq,
      AvgParentalEducation := Map2(MeanSkipNaN, mq, fq),
      ParentalEduDisparity := Map2(AbsDiff, mq, fq)
    ]
  }

  /** `#parent occupation` (preprocess.py:611-614): the income tiers of the
      parents' occupations, their average and their distance. */
  function OccupationFeatures(v: Frame): (r: map<Col, seq<Cell>>)
    requires HasOccupationInputs(v)
    ensures r.Keys == OccupationLabels
    ensures Sized(r, v.n)
  {
    var mo := Map1(OccupationOrdinalOf, v.data[MotherOccupation]);
    var fo := Map1(OccupationOrdinalOf, v.data[FatherOccupation]);
    map[
      MotherOccupationOrdinal := mo,
      FatherOccupationOrdinal := fo,
      AvgParentalIncome := Map2(MeanSkipNaN, mo, fo),
      ParentalIncomeDisparity := Map2(AbsDiff, mo, fo)
    ]
  }

  /** `inactive_mask.astype(int)` (preprocess.py:644-652), row by row. */
  function InactiveColumn(v: Frame): (r: seq<Cell>)
    requires HasCurricularInputs(v)
    ensures |r| == v.n
    ensures forall i :: 0 <= i < v.n ==> r[i] == InactiveFlag(
      v.data[CurricularUnits1stSemEnrolled][i], v.data[CurricularUnits2ndSemEnrolled][i],
      v.data[CurricularUnits1stSemEvaluations][i], v.data[CurricularUnits2ndSemEvaluations][i],
      v.data[CurricularUnits1stSemGrade][i], v.data[CurricularUnits2ndSemGrade][i])
  {
    seq(v.n, i requires 0 <= i < v.n => InactiveFlag(
      v.data[CurricularUnits1stSemEnrolled][i], v.data[CurricularUnits2ndSemEnrolled][i],
      v.data[CurricularUnits1stSemEvaluations][i], v.data[CurricularUnits2ndSemEvaluations][i],
      v.data[CurricularUnits1stSemGrade][i], v.data[CurricularUnits2ndSemGrade][i]))
  }

  /** The first half of `#curricularUnits` (preprocess.py:635-640): approval
      rates, performance indices and credit load reductions. */
  function RateFeatures(v: Frame): (r: map<Col, seq<Cell>>)
    requires HasCurricularInputs(v)
    ensures r.Keys == RateLabels
    ensures Sized(r, v.n)
  {
    var ar1 := Map2(SafeRatio, v.data[CurricularUnits1stSemApproved], v.data[CurricularUnits1stSemEnrolled]);
    var ar2 := Map2(SafeRatio, v.data[CurricularUnits2ndSemApproved], v.data[CurricularUnits2ndSemEnrolled]);
    map[
      ApprovedRate1stSem := ar1,
      ApprovedRate2ndSem := ar2,
      PerformanceIndex1stSem := Map2(FilledProduct, ar1, v.data[CurricularUnits1stSemGrade]),
      PerformanceIndex2ndSem := Map2(FilledProduct, ar2, v.data[CurricularUnits2ndSemGrade]),
      CreditLoadReduction1stSem := Map2(SafeRatio, v.data[CurricularUnits1stSemCredited], v.data[CurricularUnits1stSemEnrolled]),
      CreditLoadReduction2ndSem := Map2(SafeRatio, v.data[CurricularUnits2ndSemCredited], v.data[CurricularUnits2ndSemEnrolled])
    ]
  }

  /** The second half of `#curricularUnits` (preprocess.py:641-652):
      evaluation rates and the inactivity flag. */
  function ActivityFeatures(v: Frame): (r: map<Col, seq<Cell>>)
    requires HasCurricularInputs(v)
    ensures r.Keys == ActivityLabels
    ensures Sized(r, v.n)
  {
    map[
      EvalRate1stSem := Map2(EvalRate, v.data[CurricularUnits1stSemEvaluations], v.data[CurricularUnits1stSemWithoutEvaluations]),
      EvalRate2ndSem := Map2(EvalRate, v.data[CurricularUnits2ndSemEvaluations], v.data[CurricularUnits2ndSemWithoutEvaluations]),
      NoAcademicActivity := InactiveColumn(v)
    ]
  }

  /** `#econ` and `#year` (preprocess.py:655-659). */
  function EconFeatures(v: Frame): (r: map<Col, seq<Cell>>)
    requires HasEconInputs(v)
    ensures r.Keys == EconLabels
    ensures Sized(r, v.n)
  {
    map[
      EconomicStressIndex := Map3(StressIndex, v.data[UnemploymentRate], v.data[InflationRate], v.data[Gdp]),
      IsEconomyGood := Map2(EconomyGoodFlag, v.data[Gdp], v.data[UnemploymentRate]),
      Year := Map3(YearOf, v.data[UnemploymentRate], v.data[InflationRate], v.data[Gdp])
    ]
  }

  /** `#target` (preprocess.py:668-669): the class codes, only for a frame of
      more than one row. */
  function TargetFeatures(v: Frame): (r: map<Col, seq<Cell>>)
    requires v.Valid() && (v.n > 1 ==> Target in v.data)
    ensures r.Keys <= {TargetInt} && (TargetInt in r <==> v.n > 1)
    ensures Sized(r, v.n)
  {
    if v.n > 1 then map[TargetInt := Map1(TargetCode, v.data[Target])] else map[]
  }

  /** The columns the five middle sections derive, from a frame with all
      their inputs. */
  function Sections(v: Frame): (r: map<Col, seq<Cell>>)
    requires HasQualificationInputs(v) && HasOccupationInputs(v) && HasCurricularInputs(v) && HasEconInputs(v)
    ensures Target !in r && TargetInt !in r && ApplicationOrderShifted !in r
    ensures Sized(r, v.n)
  {
    OutcomeNotDerived();
    var q, o, t, a, e := QualificationFeatures(v), OccupationFeatures(v), RateFeatures(v), ActivityFeatures(v), EconFeatures(v);
    SizedMerge(q, o, v.n);
    SizedMerge(q + o, t, v.n);
    SizedMerge(q + o + t, a, v.n);
    SizedMerge(q + o + t + a, e, v.n);
    q + o + t + a + e
  }

  lemma SizedMerge(a: map<Col, seq<Cell>>, b: map<Col, seq<Cell>>, n: nat)
    requires Sized(a, n) && Sized(b, n)
    ensures Sized(a + b, n)
  {
  }

  /** All derived columns, each computed from the renamed, unscaled input. */
  function Derived(v: Frame): map<Col, seq<Cell>>
    requires FeatureReady(v)
  {
    map[ApplicationOrderShifted := Map1(Shifted, v.data[ApplicationOrder])] + Sections(v) + TargetFeatures(v)
  }

  /** The frame rfPreProc and hgbPreProc return for the renamed input `v`:
      the consumed raw columns removed, the derived columns added, every
      other column as it was. */
  function DeriveFeatures(v: Frame): Frame
    requires FeatureReady(v)
  {
    Frame(v.n, (v.data - Consumed) + Derived(v))
  }
}
