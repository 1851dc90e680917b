/** What the frame rfPreProc and hgbPreProc return (DeriveFeatures) says
    about their input: which columns it has, which it keeps as they were,
    and, row by row, how each derived cell follows from the cells of the
    same input row. */
module RfProperties {
  import opened Cells
  import opened Columns
  import opened Frames
  import opened Features
  import opened Labels
  import opened Derivation

  /** The labels of the derived columns, section by section. */
  lemma DerivedLabelsSplit()
    ensures DerivedLabels == {ApplicationOrderShifted} + (QualificationLabels + OccupationLabels + RateLabels + ActivityLabels + EconLabels)
  {
  }

  lemma SectionsKeys(v: Frame)
    requires HasQualificationInputs(v) && HasOccupationInputs(v) && HasCurricularInputs(v) && HasEconInputs(v)
    ensures Sections(v).Keys == QualificationLabels + OccupationLabels + RateLabels + ActivityLabels + EconLabels
  {
  }

  /** The outcome column is consumed and neither it nor its code is among
      the labels the five middle sections add. */
  lemma OutcomeApart()
    ensures Target in Consumed && Target !in DerivedLabels && TargetInt !in DerivedLabels
  {
  }

  lemma MergeKeys<K, V>(o: map<K, V>, s: map<K, V>, t: map<K, V>)
    ensures ((o + s) + t).Keys == (o.Keys + s.Keys) + t.Keys
  {
  }

  lemma DropMergeKeys<K, V>(m: map<K, V>, d: set<K>, q: map<K, V>)
    ensures ((m - d) + q).Keys == (m.Keys - d) + q.Keys
  {
  }

  /** The derived columns: the labels of the sections, and the class codes
      exactly when the input has several rows. */
  lemma DerivedKeys(v: Frame)
    requires FeatureReady(v)
    ensures Derived(v).Keys == DerivedLabels + TargetFeatures(v).Keys
  {
    var order := map[ApplicationOrderShifted := Map1(Shifted, v.data[ApplicationOrder])];
    assert order.Keys == {ApplicationOrderShifted};
    SectionsKeys(v);
    DerivedLabelsSplit();
    MergeKeys(order, Sections(v), TargetFeatures(v));
  }

  /** rfPreProc's columns are the input's without the consumed ones, the
      derived ones, and the class codes exactly when the input has several
      rows. */
  lemma DeriveKeys(v: Frame)
    requires FeatureReady(v)
    ensures DeriveFeatures(v).data.Keys == (v.data.Keys - Consumed) + (DerivedLabels + TargetFeatures(v).Keys)
  {
    DerivedKeys(v);
    DropMergeKeys(v.data, Consumed, Derived(v));
  }

  /** rfPreProc's frame has one cell per row in every column. */
  lemma DeriveValid(v: Frame)
    requires FeatureReady(v)
    ensures DeriveFeatures(v).n == v.n && DeriveFeatures(v).Valid()
  {
    var order := map[ApplicationOrderShifted := Map1(Shifted, v.data[ApplicationOrder])];
    SizedMerge(order, Sections(v), v.n);
    SizedMerge(order + Sections(v), TargetFeatures(v), v.n);
    SizedDropMerge(v.data, Consumed, Derived(v), v.n);
  }

  lemma SizedDropMerge(m: map<Col, seq<Cell>>, d: set<Col>, q: map<Col, seq<Cell>>, n: nat)
    requires Sized(m, n) && Sized(q, n)
    ensures Sized((m - d) + q, n)
  {
  }

  /** The outcome column is gone, and the class codes are there when the
      input has several rows. */
  lemma DeriveOutcome(v: Frame)
    requires FeatureReady(v)
    ensures Target !in DeriveFeatures(v).data
    ensures v.n > 1 ==> TargetInt in DeriveFeatures(v).data
  {
    DeriveKeys(v);
    OutcomeApart();
  }

  /** A column of the input that is neither consumed nor derived holds the
      same cells. */
  lemma DeriveKeeps(v: Frame, c: Col)
    requires FeatureReady(v) && c in v.data && c !in Consumed && c !in DerivedLabels && c !in TargetFeatures(v)
    ensures c in DeriveFeatures(v).data && DeriveFeatures(v).data[c] == v.data[c]
  {
    DerivedKeys(v);
    MergeLookup(v.data, Consumed, Derived(v), c);
  }

  /** A column of the middle sections holds what its section computed. */
  lemma SectionLookup(v: Frame, c: Col)
    requires FeatureReady(v) && c in Sections(v)
    ensures c in DeriveFeatures(v).data && DeriveFeatures(v).data[c] == Sections(v)[c]
  {
    var order := map[ApplicationOrderShifted := Map1(Shifted, v.data[ApplicationOrder])];
    assert c !in TargetFeatures(v);
    MergeMiddle(v.data, Consumed, order, Sections(v), TargetFeatures(v), c);
  }

  /** A key of the middle map of a merge, and not of the last, takes its
      value from the middle map. */
  lemma MergeMiddle<K, V>(m: map<K, V>, d: set<K>, o: map<K, V>, s: map<K, V>, t: map<K, V>, k: K)
    requires k in s && k !in t
    ensures k in (m - d) + (o + s + t) && ((m - d) + (o + s + t))[k] == s[k]
  {
  }

  /** The labels of one section are none of the other sections'. */
  lemma SectionLabelsApart(c: Col)
    ensures c in QualificationLabels ==> c !in OccupationLabels && c !in RateLabels && c !in ActivityLabels && c !in EconLabels
    ensures c in OccupationLabels ==> c !in QualificationLabels && c !in RateLabels && c !in ActivityLabels && c !in EconLabels
    ensures c in RateLabels ==> c !in QualificationLabels && c !in OccupationLabels && c !in ActivityLabels && c !in EconLabels
    ensures c in ActivityLabels ==> c !in QualificationLabels && c !in OccupationLabels && c !in RateLabels && c !in EconLabels
    ensures c in EconLabels ==> c !in QualificationLabels && c !in OccupationLabels && c !in RateLabels && c !in ActivityLabels
  {
  }

  /** A key of exactly one of five merged maps takes its value from it. */
  lemma PickOne<K, V>(q: map<K, V>, o: map<K, V>, t: map<K, V>, a: map<K, V>, e: map<K, V>, k: K, p: map<K, V>)
    requires p == q || p == o || p == t || p == a || p == e
    requires k in p
    requires k in q ==> p == q
    requires (k in o ==> p == o) && (k in t ==> p == t) && (k in a ==> p == a) && (k in e ==> p == e)
    ensures k in q + o + t + a + e && (q + o + t + a + e)[k] == p[k]
  {
  }

  /** A column of QualificationFeatures holds what that section computed. */
  lemma QualificationColumn(v: Frame, c: Col)
    requires FeatureReady(v) && c in QualificationLabels
    ensures c in DeriveFeatures(v).data && DeriveFeatures(v).data[c] == QualificationFeatures(v)[c]
  {
    SectionLabelsApart(c);
    PickOne(QualificationFeatures(v), OccupationFeatures(v), RateFeatures(v), ActivityFeatures(v), EconFeatures(v), c, QualificationFeatures(v));
    SectionLookup(v, c);
  }

  /** A column of OccupationFeatures holds what that section computed. */
  lemma OccupationColumn(v: Frame, c: Col)
    requires FeatureReady(v) && c in OccupationLabels
    ensures c in DeriveFeatures(v).data && DeriveFeatures(v).data[c] == OccupationFeatures(v)[c]
  {
    SectionLabelsApart(c);
    PickOne(QualificationFeatures(v), OccupationFeatures(v), RateFeatures(v), ActivityFeatures(v), EconFeatures(v), c, OccupationFeatures(v));
    SectionLookup(v, c);
  }

  /** A column of RateFeatures holds what that section computed. */
  lemma RateColumn(v: Frame, c: Col)
    requires FeatureReady(v) && c in RateLabels
    ensures c in DeriveFeatures(v).data && DeriveFeatures(v).data[c] == RateFeatures(v)[c]
  {
    SectionLabelsApart(c);
    PickOne(QualificationFeatures(v), OccupationFeatures(v), RateFeatures(v), ActivityFeatures(v), EconFeatures(v), c, RateFeatures(v));
    SectionLookup(v, c);
  }

  /** A column of ActivityFeatures holds what that section computed. */
  lemma ActivityColumn(v: Frame, c: Col)
    requires FeatureReady(v) && c in ActivityLabels
    ensures c in DeriveFeatures(v).data && DeriveFeatures(v).data[c] == ActivityFeatures(v)[c]
  {
    SectionLabelsApart(c);
    PickOne(QualificationFeatures(v), OccupationFeatures(v), RateFeatures(v), ActivityFeatures(v), EconFeatures(v), c, ActivityFeatures(v));
    SectionLookup(v, c);
  }

  /** A column of EconFeatures holds what that section computed. */
  lemma EconColumn(v: Frame, c: Col)
    requires FeatureReady(v) && c in EconLabels
    ensures c in DeriveFeatures(v).data && DeriveFeatures(v).data[c] == EconFeatures(v)[c]
  {
    SectionLabelsApart(c);
    PickOne(QualificationFeatures(v), OccupationFeatures(v), RateFeatures(v), ActivityFeatures(v), EconFeatures(v), c, EconFeatures(v));
    SectionLookup(v, c);
  }

  /** `applicationOrderShifted` is the application order plus one, row by
      row (preprocess.py:587). */
  lemma OrderRow(v: Frame, i: int)
    requires FeatureReady(v) && 0 <= i < v.n
    ensures var r := DeriveFeatures(v).data; var c := ApplicationOrderShifted;
      c in r && |r[c]| == v.n && r[c][i] == Shifted(v.data[ApplicationOrder][i])
  {
    OutcomeApart();
    SectionsKeys(v);
    assert ApplicationOrderShifted !in Sections(v) && ApplicationOrderShifted !in TargetFeatures(v);
  }

  lemma QualificationCells(v: Frame, i: int)
    requires HasQualificationInputs(v) && 0 <= i < v.n
    ensures var r := QualificationFeatures(v);
      var pq := QualificationOrdinalOf(v.data[PreviousQualification][i]);
      var mq := QualificationOrdinalOf(v.data[MotherQualification][i]);
      var fq := QualificationOrdinalOf(v.data[FatherQualification][i]);
      |r[PreviousQualificationOrdinal]| == v.n && r[PreviousQualificationOrdinal][i] == pq &&
      |r[MotherQualificationOrdinal]| == v.n && r[MotherQualificationOrdinal][i] == mq &&
      |r[FatherQualificationOrdinal]| == v.n && r[FatherQualificationOrdinal][i] == fq &&
      |r[AvgParentalEducation]| == v.n && r[AvgParentalEducation][i] == MeanSkipNaN(mq, fq) &&
      |r[ParentalEduDisparity]| == v.n && r[ParentalEduDisparity][i] == AbsDiff(mq, fq)
  {
  }

  /** The qualification tiers and the parents' average tier and tier
      distance, row by row (preprocess.py:595-606). */
  lemma QualificationRow(v: Frame, i: int)
    requires FeatureReady(v) && 0 <= i < v.n
    ensures var r := DeriveFeatures(v).data;
      var pq := QualificationOrdinalOf(v.data[PreviousQualification][i]);
      var mq := QualificationOrdinalOf(v.data[MotherQualification][i]);
      var fq := QualificationOrdinalOf(v.data[FatherQualification][i]);
      QualificationLabels <= r.Keys &&
      |r[PreviousQualificationOrdinal]| == v.n && r[PreviousQualificationOrdinal][i] == pq &&
      |r[MotherQualificationOrdinal]| == v.n && r[MotherQualificationOrdinal][i] == mq &&
      |r[FatherQualificationOrdinal]| == v.n && r[FatherQualificationOrdinal][i] == fq &&
      |r[AvgParentalEducation]| == v.n && r[AvgParentalEducation][i] == MeanSkipNaN(mq, fq) &&
      |r[ParentalEduDisparity]| == v.n && r[ParentalEduDisparity][i] == AbsDiff(mq, fq)
  {
    QualificationColumn(v, PreviousQualificationOrdinal);
    QualificationColumn(v, MotherQualificationOrdinal);
    QualificationColumn(v, FatherQualificationOrdinal);
    QualificationColumn(v, AvgParentalEducation);
    QualificationColumn(v, ParentalEduDisparity);
    QualificationCells(v, i);
  }

  lemma OccupationCells(v: Frame, i: int)
    requires HasOccupationInputs(v) && 0 <= i < v.n
    ensures var r := OccupationFeatures(v);
      var mo := OccupationOrdinalOf(v.data[MotherOccupation][i]);
      var fo := OccupationOrdinalOf(v.data[FatherOccupation][i]);
      |r[MotherOccupationOrdinal]| == v.n && r[MotherOccupationOrdinal][i] == mo &&
      |r[FatherOccupationOrdinal]| == v.n && r[FatherOccupationOrdinal][i] == fo &&
      |r[AvgParentalIncome]| == v.n && r[AvgParentalIncome][i] == MeanSkipNaN(mo, fo) &&
      |r[ParentalIncomeDisparity]| == v.n && r[ParentalIncomeDisparity][i] == AbsDiff(mo, fo)
  {
  }

  /** The occupation tiers and the parents' average tier and tier distance,
      row by row (preprocess.py:611-614). */
  lemma OccupationRow(v: Frame, i: int)
    requires FeatureReady(v) && 0 <= i < v.n
    ensures var r := DeriveFeatures(v).data;
      var mo := OccupationOrdinalOf(v.data[MotherOccupation][i]);
      var fo := OccupationOrdinalOf(v.data[FatherOccupation][i]);
      OccupationLabels <= r.Keys &&
      |r[MotherOccupationOrdinal]| == v.n && r[MotherOccupationOrdinal][i] == mo &&
      |r[FatherOccupationOrdinal]| == v.n && r[FatherOccupationOrdinal][i] == fo &&
      |r[AvgParentalIncome]| == v.n && r[AvgParentalIncome][i] == MeanSkipNaN(mo, fo) &&
      |r[ParentalIncomeDisparity]| == v.n && r[ParentalIncomeDisparity][i] == AbsDiff(mo, fo)
  {
    OccupationColumn(v, MotherOccupationOrdinal);
    OccupationColumn(v, FatherOccupationOrdinal);
    OccupationColumn(v, AvgParentalIncome);
    OccupationColumn(v, ParentalIncomeDisparity);
    OccupationCells(v, i);
  }

  lemma RateCells(v: Frame, i: int)
    requires HasCurricularInputs(v) && 0 <= i < v.n
    ensures var r := RateFeatures(v);
      var ar1 := SafeRatio(v.data[CurricularUnits1stSemApproved][i], v.data[CurricularUnits1stSemEnrolled][i]);
      var ar2 := SafeRatio(v.data[CurricularUnits2ndSemApproved][i], v.data[CurricularUnits2ndSemEnrolled][i]);
      |r[ApprovedRate1stSem]| == v.n && r[ApprovedRate1stSem][i] == ar1 &&
      |r[ApprovedRate2ndSem]| == v.n && r[ApprovedRate2ndSem][i] == ar2 &&
      |r[PerformanceIndex1stSem]| == v.n && r[PerformanceIndex1stSem][i] == FilledProduct(ar1, v.data[CurricularUnits1stSemGrade][i]) &&
      |r[PerformanceIndex2ndSem]| == v.n && r[PerformanceIndex2ndSem][i] == FilledProduct(ar2, v.data[CurricularUnits2ndSemGrade][i]) &&
      |r[CreditLoadReduction1stSem]| == v.n &&
      r[CreditLoadReduction1stSem][i] == SafeRatio(v.data[CurricularUnits1stSemCredited][i], v.data[CurricularUnits1stSemEnrolled][i]) &&
      |r[CreditLoadReduction2ndSem]| == v.n &&
      r[CreditLoadReduction2ndSem][i] == SafeRatio(v.data[CurricularUnits2ndSemCredited][i], v.data[CurricularUnits2ndSemEnrolled][i])
  {
  }

  /** The approval rates, performance indices and credit load reductions,
      row by row (preprocess.py:635-640). */
  lemma RateRow(v: Frame, i: int)
    requires FeatureReady(v) && 0 <= i < v.n
    ensures var r := DeriveFeatures(v).data;
      var ar1 := SafeRatio(v.data[CurricularUnits1stSemApproved][i], v.data[CurricularUnits1stSemEnrolled][i]);
      var ar2 := SafeRatio(v.data[CurricularUnits2ndSemApproved][i], v.data[CurricularUnits2ndSemEnrolled][i]);
      RateLabels <= r.Keys &&
      |r[ApprovedRate1stSem]| == v.n && r[ApprovedRate1stSem][i] == ar1 &&
      |r[ApprovedRate2ndSem]| == v.n && r[ApprovedRate2ndSem][i] == ar2 &&
      |r[PerformanceIndex1stSem]| == v.n && r[PerformanceIndex1stSem][i] == FilledProduct(ar1, v.data[CurricularUnits1stSemGrade][i]) &&
      |r[PerformanceIndex2ndSem]| == v.n && r[PerformanceIndex2ndSem][i] == FilledProduct(ar2, v.data[CurricularUnits2ndSemGrade][i]) &&
      |r[CreditLoadReduction1stSem]| == v.n &&
      r[CreditLoadReduction1stSem][i] == SafeRatio(v.data[CurricularUnits1stSemCredited][i], v.data[CurricularUnits1stSemEnrolled][i]) &&
      |r[CreditLoadReduction2ndSem]| == v.n &&
      r[CreditLoadReduction2ndSem][i] == SafeRatio(v.data[CurricularUnits2ndSemCredited][i], v.data[CurricularUnits2ndSemEnrolled][i])
  {
    RateColumn(v, ApprovedRate1stSem);
    RateColumn(v, ApprovedRate2ndSem);
    RateColumn(v, PerformanceIndex1stSem);
    RateColumn(v, PerformanceIndex2ndSem);
    RateColumn(v, CreditLoadReduction1stSem);
    RateColumn(v, CreditLoadReduction2ndSem);
    RateCells(v, i);
  }

  lemma ActivityCells(v: Frame, i: int)
    requires HasCurricularInputs(v) && 0 <= i < v.n
    ensures var r := ActivityFeatures(v);
      |r[EvalRate1stSem]| == v.n &&
      r[EvalRate1stSem][i] == EvalRate(v.data[CurricularUnits1stSemEvaluations][i], v.data[CurricularUnits1stSemWithoutEvaluations][i]) &&
      |r[EvalRate2ndSem]| == v.n &&
      r[EvalRate2ndSem][i] == EvalRate(v.data[CurricularUnits2ndSemEvaluations][i], v.data[CurricularUnits2ndSemWithoutEvaluations][i]) &&
      |r[NoAcademicActivity]| == v.n &&
      r[NoAcademicActivity][i] == InactiveFlag(
        v.data[CurricularUnits1stSemEnrolled][i], v.data[CurricularUnits2ndSemEnrolled][i],
        v.data[CurricularUnits1stSemEvaluations][i], v.data[CurricularUnits2ndSemEvaluations][i],
        v.data[CurricularUnits1stSemGrade][i], v.data[CurricularUnits2ndSemGrade][i])
  {
  }

  /** The evaluation rates and the inactivity flag, row by row
      (preprocess.py:641-652). */
  lemma ActivityRow(v: Frame, i: int)
    requires FeatureReady(v) && 0 <= i < v.n
    ensures var r := DeriveFeatures(v).data;
      ActivityLabels <= r.Keys &&
      |r[EvalRate1stSem]| == v.n &&
      r[EvalRate1stSem][i] == EvalRate(v.data[CurricularUnits1stSemEvaluations][i], v.data[CurricularUnits1stSemWithoutEvaluations][i]) &&
      |r[EvalRate2ndSem]| == v.n &&
      r[EvalRate2ndSem][i] == EvalRate(v.data[CurricularUnits2ndSemEvaluations][i], v.data[CurricularUnits2ndSemWithoutEvaluations][i]) &&
      |r[NoAcademicActivity]| == v.n &&
      r[NoAcademicActivity][i] == InactiveFlag(
        v.data[CurricularUnits1stSemEnrolled][i], v.data[CurricularUnits2ndSemEnrolled][i],
        v.data[CurricularUnits1stSemEvaluations][i], v.data[CurricularUnits2ndSemEvaluations][i],
        v.data[CurricularUnits1stSemGrade][i], v.data[CurricularUnits2ndSemGrade][i])
  {
    ActivityColumn(v, EvalRate1stSem);
    ActivityColumn(v, EvalRate2ndSem);
    ActivityColumn(v, NoAcademicActivity);
    ActivityCells(v, i);
  }

  lemma EconCells(v: Frame, i: int)
    requires HasEconInputs(v) && 0 <= i < v.n
    ensures var r := EconFeatures(v);
      var u, p, g := v.data[UnemploymentRate][i], v.data[InflationRate][i], v.data[Gdp][i];
      |r[EconomicStressIndex]| == v.n && r[EconomicStressIndex][i] == StressIndex(u, p, g) &&
      |r[IsEconomyGood]| == v.n && r[IsEconomyGood][i] == EconomyGoodFlag(g, u) &&
      |r[Year]| == v.n && r[Year][i] == YearOf(u, p, g)
  {
  }

  /** The stress index, the economy flag and the year, row by row
      (preprocess.py:655-659). */
  lemma EconRow(v: Frame, i: int)
    requires FeatureReady(v) && 0 <= i < v.n
    ensures var r := DeriveFeatures(v).data;
      var u, p, g := v.data[UnemploymentRate][i], v.data[InflationRate][i], v.data[Gdp][i];
      EconLabels <= r.Keys &&
      |r[EconomicStressIndex]| == v.n && r[EconomicStressIndex][i] == StressIndex(u, p, g) &&
      |r[IsEconomyGood]| == v.n && r[IsEconomyGood][i] == EconomyGoodFlag(g, u) &&
      |r[Year]| == v.n && r[Year][i] == YearOf(u, p, g)
  {
    EconColumn(v, EconomicStressIndex);
    EconColumn(v, IsEconomyGood);
    EconColumn(v, Year);
    EconCells(v, i);
  }

  /** With several rows, `targetInt` holds the class code of each row's
      outcome (preprocess.py:668-669). */
  lemma TargetRow(v: Frame, i: int)
    requires FeatureReady(v) && v.n > 1 && 0 <= i < v.n
    ensures var r := DeriveFeatures(v).data;
      TargetInt in r && |r[TargetInt]| == v.n && r[TargetInt][i] == TargetCode(v.data[Target][i])
  {
  }
}
