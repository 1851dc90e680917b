/** The three preprocessing pipelines of preprocess.py: rfPreProc
    (579-674), its duplicate hgbPreProc (849-944), and annPreProc (701-840),
    which in addition one-hot encodes the nominal columns and min-max scales
    34 numeric columns through the scaler store.

    Each pipeline is a method that changes its frame step by step as the
    source does; what it returns is specified by DeriveFeatures, which
    computes every derived column from the renamed input at once, section by
    section in the order of the source's comments. */
module Pipelines {
  import opened Wrappers
  import opened Cells
  import opened Columns
  import opened Frames
  import opened Features
  import opened Scaling
  import opened Labels
  import opened Derivation
  import opened DerivationFacts

  /** `#previousQualification` and `#parent qualification` of rfPreProc
      (preprocess.py:595-608). */
  method DeriveQualifications(f: Frame, ghost v: Frame) returns (g: Frame)
    requires HasQualificationInputs(f) && HasQualificationInputs(v) && Agree(f, v, QualificationInputs)
    ensures g.Valid()
    ensures g == Frame(f.n, (f.data - {PreviousQualification, MotherQualification, FatherQualification}) + QualificationFeatures(v))
  {
    g := SetColumn(f, PreviousQualificationOrdinal, Map1(QualificationOrdinalOf, f.data[PreviousQualification]));
    g := DropColumn(g, PreviousQualification);
    g := SetColumn(g, MotherQualificationOrdinal, Map1(QualificationOrdinalOf, g.data[MotherQualification]));
    g := SetColumn(g, FatherQualificationOrdinal, Map1(QualificationOrdinalOf, g.data[FatherQualification]));
    g := SetColumn(g, AvgParentalEducation, Map2(MeanSkipNaN, g.data[MotherQualificationOrdinal], g.data[FatherQualificationOrdinal]));
    g := SetColumn(g, ParentalEduDisparity, Map2(AbsDiff, g.data[MotherQualificationOrdinal], g.data[FatherQualificationOrdinal]));
    g := DropColumn(g, MotherQualification);
    g := DropColumn(g, FatherQualification);
    QualificationSectionRead(f, v);
    ghost var q := QualificationFeatures(f);
    QualificationSteps(f.data, q[PreviousQualificationOrdinal], q[MotherQualificationOrdinal], q[FatherQualificationOrdinal],
      q[AvgParentalEducation], q[ParentalEduDisparity]);
  }

  /** `#parent occupation` of rfPreProc (preprocess.py:611-616). */
  method DeriveOccupations(f: Frame, ghost v: Frame) returns (g: Frame)
    requires HasOccupationInputs(f) && HasOccupationInputs(v) && Agree(f, v, OccupationInputs)
    ensures g.Valid()
    ensures g == Frame(f.n, (f.data - {MotherOccupation, FatherOccupation}) + OccupationFeatures(v))
  {
    g := SetColumn(f, MotherOccupationOrdinal, Map1(OccupationOrdinalOf, f.data[MotherOccupation]));
    g := SetColumn(g, FatherOccupationOrdinal, Map1(OccupationOrdinalOf, g.data[FatherOccupation]));
    g := SetColumn(g, AvgParentalIncome, Map2(MeanSkipNaN, g.data[MotherOccupationOrdinal], g.data[FatherOccupationOrdinal]));
    g := SetColumn(g, ParentalIncomeDisparity, Map2(AbsDiff, g.data[MotherOccupationOrdinal], g.data[FatherOccupationOrdinal]));
    g := DropColumn(g, MotherOccupation);
    g := DropColumn(g, FatherOccupation);
    OccupationSectionRead(f, v);
    ghost var o := OccupationFeatures(f);
    OccupationSteps(f.data, o[MotherOccupationOrdinal], o[FatherOccupationOrdinal], o[AvgParentalIncome], o[ParentalIncomeDisparity]);
  }

  /** The first half of `#curricularUnits` of rfPreProc (preprocess.py:635-640). */
  method DeriveRates(f: Frame, ghost v: Frame) returns (g: Frame)
    requires HasCurricularInputs(f) && HasCurricularInputs(v) && Agree(f, v, CurricularInputs)
    ensures g.Valid()
    ensures g == Frame(f.n, f.data + RateFeatures(v))
  {
    g := SetColumn(f, ApprovedRate1stSem, Map2(SafeRatio, f.data[CurricularUnits1stSemApproved], f.data[CurricularUnits1stSemEnrolled]));
    g := SetColumn(g, ApprovedRate2ndSem, Map2(SafeRatio, g.data[CurricularUnits2ndSemApproved], g.data[CurricularUnits2ndSemEnrolled]));
    g := SetColumn(g, PerformanceIndex1stSem, Map2(FilledProduct, g.data[ApprovedRate1stSem], g.data[CurricularUnits1stSemGrade]));
    g := SetColumn(g, PerformanceIndex2ndSem, Map2(FilledProduct, g.data[ApprovedRate2ndSem], g.data[CurricularUnits2ndSemGrade]));
    g := SetColumn(g, CreditLoadReduction1stSem, Map2(SafeRatio, g.data[CurricularUnits1stSemCredited], g.data[CurricularUnits1stSemEnrolled]));
    g := SetColumn(g, CreditLoadReduction2ndSem, Map2(SafeRatio, g.data[CurricularUnits2ndSemCredited], g.data[CurricularUnits2ndSemEnrolled]));
    CurricularSectionsRead(f, v);
    ghost var r := RateFeatures(f);
    RateSteps(f.data, r[ApprovedRate1stSem], r[ApprovedRate2ndSem], r[PerformanceIndex1stSem], r[PerformanceIndex2ndSem],
      r[CreditLoadReduction1stSem], r[CreditLoadReduction2ndSem]);
  }

  /** The second half of `#curricularUnits` of rfPreProc (preprocess.py:641-652). */
  method DeriveActivity(f: Frame, ghost v: Frame) returns (g: Frame)
    requires HasCurricularInputs(f) && HasCurricularInputs(v) && Agree(f, v, CurricularInputs)
    ensures g.Valid()
    ensures g == Frame(f.n, f.data + ActivityFeatures(v))
  {
    g := SetColumn(f, EvalRate1stSem, Map2(EvalRate, f.data[CurricularUnits1stSemEvaluations], f.data[CurricularUnits1stSemWithoutEvaluations]));
    g := SetColumn(g, EvalRate2ndSem, Map2(EvalRate, g.data[CurricularUnits2ndSemEvaluations], g.data[CurricularUnits2ndSemWithoutEvaluations]));
    g := SetColumn(g, NoAcademicActivity, InactiveColumn(g));
    CurricularSectionsRead(f, v);
    ghost var a := ActivityFeatures(f);
    assert g.data == f.data + map[EvalRate1stSem := a[EvalRate1stSem], EvalRate2ndSem := a[EvalRate2ndSem], NoAcademicActivity := a[NoAcademicActivity]];
  }

  /** `#econ` and `#year` of rfPreProc (preprocess.py:655-659). */
  method DeriveEcon(f: Frame, ghost v: Frame) returns (g: Frame)
    requires HasEconInputs(f) && HasEconInputs(v) && Agree(f, v, EconInputs)
    ensures g.Valid()
    ensures g == Frame(f.n, f.data + EconFeatures(v))
  {
    g := SetColumn(f, EconomicStressIndex, Map3(StressIndex, f.data[UnemploymentRate], f.data[InflationRate], f.data[Gdp]));
    g := SetColumn(g, IsEconomyGood, Map2(EconomyGoodFlag, g.data[Gdp], g.data[UnemploymentRate]));
    g := SetColumn(g, Year, Map3(YearOf, g.data[UnemploymentRate], g.data[InflationRate], g.data[Gdp]));
    EconSectionRead(f, v);
    ghost var e := EconFeatures(f);
    assert g.data == f.data + map[EconomicStressIndex := e[EconomicStressIndex], IsEconomyGood := e[IsEconomyGood], Year := e[Year]];
  }

  /** The section methods, one after another, on a frame that has every
      input they read: the five code columns are replaced by their features
      and the curricular and economic features are added. */
  method DeriveSections(f: Frame, ghost v: Frame) returns (g: Frame)
    requires HasQualificationInputs(f) && HasOccupationInputs(f) && HasCurricularInputs(f) && HasEconInputs(f)
    requires HasQualificationInputs(v) && HasOccupationInputs(v) && HasCurricularInputs(v) && HasEconInputs(v)
    requires Agree(f, v, QualificationInputs) && Agree(f, v, OccupationInputs)
    requires Agree(f, v, CurricularInputs) && Agree(f, v, EconInputs)
    ensures g == Frame(f.n, (f.data - {PreviousQualification, MotherQualification, FatherQualification, MotherOccupation, FatherOccupation})
      + Sections(v))
  {
    ghost var q := QualificationFeatures(v);
    OccupationInputsUntouched();
    CurricularInputsUntouched();
    EconInputsUntouched();
    var g1 := DeriveQualifications(f, v);
    MergeKeeps(f, QualificationInputs, q, OccupationInputs);
    MergeKeeps(f, QualificationInputs, q, CurricularInputs);
    MergeKeeps(f, QualificationInputs, q, EconInputs);
    AgreeTrans(g1, f, v, OccupationInputs);
    AgreeTrans(g1, f, v, CurricularInputs);
    AgreeTrans(g1, f, v, EconInputs);
    var g2 := DeriveOccupations(g1, v);
    MergeKeeps(g1, OccupationInputs, OccupationFeatures(v), CurricularInputs);
    MergeKeeps(g1, OccupationInputs, OccupationFeatures(v), EconInputs);
    AgreeTrans(g2, g1, v, CurricularInputs);
    AgreeTrans(g2, g1, v, EconInputs);
    var g3 := DeriveRates(g2, v);
    MergeKeeps(g2, {}, RateFeatures(v), CurricularInputs);
    MergeKeeps(g2, {}, RateFeatures(v), EconInputs);
    AgreeTrans(g3, g2, v, CurricularInputs);
    AgreeTrans(g3, g2, v, EconInputs);
    var g4 := DeriveActivity(g3, v);
    MergeKeeps(g3, {}, ActivityFeatures(v), EconInputs);
    AgreeTrans(g4, g3, v, EconInputs);
    g := DeriveEcon(g4, v);
    SectionSteps(f.data, q, OccupationFeatures(v), RateFeatures(v), ActivityFeatures(v), EconFeatures(v));
  }

  /** `#target` (preprocess.py:667-672): with more than one row the outcome
      labels are encoded into `targetInt`; the outcome column is then dropped
      when present. `v` is the renamed input, whose outcome column `f` still
      holds. */
  method EncodeTarget(f: Frame, ghost v: Frame) returns (g: Frame)
    requires f.Valid() && v.Valid() && f.n == v.n
    requires v.n > 1 ==> Target in v.data && Target in f.data && f.data[Target] == v.data[Target]
    ensures g == Frame(f.n, (f.data + TargetFeatures(v)) - {Target})
  {
    g := f;
    if g.n > 1 {
      g := SetColumn(g, TargetInt, Map1(TargetCode, g.data[Target]));
    }
    if Target in g.data {
      g := DropColumn(g, Target);
    }
  }

  /** `#applicationOrder` (preprocess.py:586-588): the shifted order is
      added to the frame in place (`shifted`), then the original order is
      dropped from a copy (`f`). */
  method ShiftOrder(v: Frame) returns (f: Frame, shifted: Frame)
    requires v.Valid() && ApplicationOrder in v.data && NumericColumn(v.data[ApplicationOrder])
    ensures shifted == SetColumn(v, ApplicationOrderShifted, Map1(Shifted, v.data[ApplicationOrder]))
    ensures f == Frame(v.n, (v.data - {ApplicationOrder}) + map[ApplicationOrderShifted := Map1(Shifted, v.data[ApplicationOrder])])
  {
    f := SetColumn(v, ApplicationOrderShifted, Map1(Shifted, v.data[ApplicationOrder]));
    shifted := f;
    f := DropColumn(f, ApplicationOrder);
  }

  /** rfPreProc after its rename (preprocess.py:586-674), on the renamed
      frame `v`. `shifted` is the frame the caller's object holds after the
      call: `v` with the shifted application order added in place. */
  method DeriveAll(v: Frame) returns (out: Frame, shifted: Frame)
    requires FeatureReady(v)
    ensures out == DeriveFeatures(v)
    ensures shifted == SetColumn(v, ApplicationOrderShifted, Map1(Shifted, v.data[ApplicationOrder]))
  {
    ghost var order := map[ApplicationOrderShifted := Map1(Shifted, v.data[ApplicationOrder])];
    var f;
    f, shifted := ShiftOrder(v);
    ShiftKeepsSections(v, order);
    OutcomeUntouched();
    if Target in v.data {
      MergeLookup(v.data, {ApplicationOrder}, order, Target);
    }
    ghost var s := Sections(v);
    SectionsKeepOutcome(f, s);
    f := DeriveSections(f, v);
    out := EncodeTarget(f, v);
    DeriveFeaturesSteps(v, order, s, TargetFeatures(v));
  }

  /** `rfPreProc(df_rf)` (preprocess.py:579-674). It returns the renamed
      input with the feature columns derived, and leaves the caller's frame
      renamed and holding the shifted application order (the two changes
      made before the first reassignment of `df_rf`), returned here as
      `inputAfter`. */
  method RfPreProc(df: Frame) returns (out: Frame, inputAfter: Frame)
    requires df.Valid() && RenameDefined(df.data.Keys) && FeatureReady(Rename(df))
    ensures out == DeriveFeatures(Rename(df))
    ensures inputAfter == SetColumn(Rename(df), ApplicationOrderShifted, Map1(Shifted, Rename(df).data[ApplicationOrder]))
  {
    var v := Rename(df);
    out, inputAfter := DeriveAll(v);
  }

  /** `hgbPreProc(df_hgb)` (preprocess.py:849-944), a statement-for-statement
      copy of rfPreProc: the same result and the same change to the
      caller's frame. */
  method HgbPreProc(df: Frame) returns (out: Frame, inputAfter: Frame)
    requires df.Valid() && RenameDefined(df.data.Keys) && FeatureReady(Rename(df))
    ensures out == DeriveFeatures(Rename(df))
    ensures inputAfter == SetColumn(Rename(df), ApplicationOrderShifted, Map1(Shifted, Rename(df).data[ApplicationOrder]))
  {
    var v := Rename(df);
    out, inputAfter := DeriveAll(v);
  }

  /** rfPreProc and hgbPreProc agree on every input they accept: the same
      frame returned and the same change left in the caller's frame. The two
      source functions have the same statements (preprocess.py:579-674 and
      849-944), so RfPreProc and HgbPreProc share their body and the
      agreement follows from it; it is not an independent result. */
  method RfHgbAgree(df: Frame) returns (rf: Frame, hgb: Frame, rfInput: Frame, hgbInput: Frame)
    requires df.Valid() && RenameDefined(df.data.Keys) && FeatureReady(Rename(df))
    ensures rf == hgb && rfInput == hgbInput
  {
    rf, rfInput := RfPreProc(df);
    hgb, hgbInput := HgbPreProc(df);
  }
}
