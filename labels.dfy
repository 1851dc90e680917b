/** The column labels each section of the feature derivation reads and
    adds, and the facts that no section touches a column a later one reads. */
module Labels {
  import opened Columns

  /** The columns each section reads. */
  const QualificationInputs: set<Col> := {PreviousQualification, MotherQualification, FatherQualification}
  const OccupationInputs: set<Col> := {MotherOccupation, FatherOccupation}
  const CurricularInputs: set<Col> := {
    CurricularUnits1stSemCredited, CurricularUnits1stSemEnrolled, CurricularUnits1stSemEvaluations,
    CurricularUnits1stSemApproved, CurricularUnits1stSemGrade, CurricularUnits1stSemWithoutEvaluations,
    CurricularUnits2ndSemCredited, CurricularUnits2ndSemEnrolled, CurricularUnits2ndSemEvaluations,
    CurricularUnits2ndSemApproved, CurricularUnits2ndSemGrade, CurricularUnits2ndSemWithoutEvaluations
  }
  const EconInputs: set<Col> := {UnemploymentRate, InflationRate, Gdp}

  /** The columns each section adds. */
  const QualificationLabels: set<Col> := {
    PreviousQualificationOrdinal, MotherQualificationOrdinal, FatherQualificationOrdinal, AvgParentalEducation, ParentalEduDisparity
  }
  const OccupationLabels: set<Col> := {MotherOccupationOrdinal, FatherOccupationOrdinal, AvgParentalIncome, ParentalIncomeDisparity}
  const RateLabels: set<Col> := {
    ApprovedRate1stSem, ApprovedRate2ndSem, PerformanceIndex1stSem, PerformanceIndex2ndSem,
    CreditLoadReduction1stSem, CreditLoadReduction2ndSem
  }
  const ActivityLabels: set<Col> := {EvalRate1stSem, EvalRate2ndSem, NoAcademicActivity}
  const EconLabels: set<Col> := {EconomicStressIndex, IsEconomyGood, Year}

  /** The raw columns the feature derivation replaces by derived ones. */
  const Consumed: set<Col> := {
    ApplicationOrder, PreviousQualification, MotherQualification, FatherQualification,
    MotherOccupation, FatherOccupation, Target
  }

  /** The set of labels the feature derivation adds. */
  const DerivedLabels: set<Col> := {
    ApplicationOrderShifted, PreviousQualificationOrdinal, MotherQualificationOrdinal, FatherQualificationOrdinal,
    AvgParentalEducation, ParentalEduDisparity, MotherOccupationOrdinal, FatherOccupationOrdinal,
    AvgParentalIncome, ParentalIncomeDisparity, ApprovedRate1stSem, ApprovedRate2ndSem,
    PerformanceIndex1stSem, PerformanceIndex2ndSem, CreditLoadReduction1stSem, CreditLoadReduction2ndSem,
    EvalRate1stSem, EvalRate2ndSem, NoAcademicActivity, EconomicStressIndex, IsEconomyGood, Year
  }

  /** No section writes or drops a column a later section reads. */
  lemma OccupationInputsUntouched()
    ensures OccupationInputs !! QualificationInputs && OccupationInputs !! QualificationLabels
  {
  }

  lemma CurricularInputsUntouched()
    ensures CurricularInputs !! QualificationInputs && CurricularInputs !! QualificationLabels
    ensures CurricularInputs !! OccupationInputs && CurricularInputs !! OccupationLabels
    ensures CurricularInputs !! {} && CurricularInputs !! RateLabels
  {
    CodeSectionsSkipCurricular();
  }

  lemma CodeSectionsSkipCurricular()
    ensures CurricularInputs !! QualificationInputs && CurricularInputs !! QualificationLabels
    ensures CurricularInputs !! OccupationInputs && CurricularInputs !! OccupationLabels
  {
  }

  lemma EconInputsUntouched()
    ensures EconInputs !! QualificationInputs && EconInputs !! QualificationLabels
    ensures EconInputs !! OccupationInputs && EconInputs !! OccupationLabels
    ensures EconInputs !! {} && EconInputs !! RateLabels && EconInputs !! ActivityLabels
  {
  }

  /** The shifted application order touches no column a section reads. */
  lemma ShiftTouchesNoInputs()
    ensures QualificationInputs !! {ApplicationOrder} && QualificationInputs !! {ApplicationOrderShifted}
    ensures OccupationInputs !! {ApplicationOrder} && OccupationInputs !! {ApplicationOrderShifted}
    ensures CurricularInputs !! {ApplicationOrder} && CurricularInputs !! {ApplicationOrderShifted}
    ensures EconInputs !! {ApplicationOrder} && EconInputs !! {ApplicationOrderShifted}
  {
  }

  /** No section derives the outcome, its code or the shifted order. */
  lemma OutcomeNotDerived()
    ensures Target !in QualificationLabels && Target !in OccupationLabels && Target !in RateLabels
    ensures Target !in ActivityLabels && Target !in EconLabels
    ensures TargetInt !in QualificationLabels && TargetInt !in OccupationLabels && TargetInt !in RateLabels
    ensures TargetInt !in ActivityLabels && TargetInt !in EconLabels
    ensures ApplicationOrderShifted !in QualificationLabels && ApplicationOrderShifted !in OccupationLabels
    ensures ApplicationOrderShifted !in RateLabels && ApplicationOrderShifted !in ActivityLabels
    ensures ApplicationOrderShifted !in EconLabels
  {
  }

  /** The outcome column is neither consumed nor derived before `#target`. */
  lemma OutcomeUntouched()
    ensures Target !in {ApplicationOrder} && Target != ApplicationOrderShifted
    ensures Target !in {PreviousQualification, MotherQualification, FatherQualification, MotherOccupation, FatherOccupation}
  {
  }
}
