/** The sections of annPreProc (preprocess.py:701-840), each a method that
    changes the frame and the scaler store step by step as the source does.
    What each section leaves is stated in terms of the renamed input `v`,
    whose cells in the columns the section reads the frame still holds. */
module AnnSteps {
  import opened Cells
  import opened Columns
  import opened Frames
  import opened Features
  import opened Scaling
  import opened AnnScaling
  import opened AnnAlgebra
  import opened AnnChain
  import opened Labels
  import opened Derivation
  import opened AnnSpec
  import opened DerivationFacts
  import opened Pipelines

  /** `#applicationOrder` of annPreProc (preprocess.py:711-713): the shifted
      order is added, scaled, and the original order dropped. A frame of no
      rows makes the scaling raise. */
  method AnnOrder(f: Frame, ghost v: Frame, ghost stored: map<Col, Scaler>, store: ScalerStore) returns (g: Frame, ok: bool)
    requires HasOrder(v) && f.Valid() && f.n == v.n
    requires ApplicationOrder in f.data && f.data[ApplicationOrder] == v.data[ApplicationOrder]
    requires f.n == 1 ==> store.scalers == stored
    modifies store
    ensures ok <==> f.n >= 1
    ensures ok ==> g.Valid()
    ensures ok ==> g == Frame(f.n, (f.data + Scale(f.n, stored, OrderFeature(v))) - {ApplicationOrder})
    ensures f.n <= 1 ==> store.scalers == old(store.scalers)
    ensures f.n > 1 ==> store.scalers == old(store.scalers) + Fits(OrderFeature(v))
  {
    g := SetColumn(f, ApplicationOrderShifted, Map1(Shifted, f.data[ApplicationOrder]));
    g, ok := ScaleStep(g, ApplicationOrderShifted, stored, store);
    if !ok {
      return;
    }
    g := DropColumn(g, ApplicationOrder);
    ghost var x := Map1(Shifted, v.data[ApplicationOrder]);
    ScaleSingleton(f.n, stored, ApplicationOrderShifted, x);
    SetTwice(f.data, ApplicationOrderShifted, x, ScaleOne(f.n, stored, ApplicationOrderShifted, x));
    MergeSingleton(old(store.scalers), ApplicationOrderShifted, Fit(x));
  }

  /** `#previousQualification` of annPreProc (preprocess.py:722-724): the
      tier of the previous qualification is added, scaled, and the code
      dropped. */
  method AnnPreviousQualification(f: Frame, ghost v: Frame, ghost stored: map<Col, Scaler>, store: ScalerStore) returns (g: Frame)
    requires HasQualificationInputs(v) && f.Valid() && f.n == v.n && f.n >= 1
    requires PreviousQualification in f.data && f.data[PreviousQualification] == v.data[PreviousQualification]
    requires f.n == 1 ==> store.scalers == stored
    modifies store
    ensures g.Valid()
    ensures g == Frame(f.n, (f.data + Scale(f.n, stored, PreviousQualificationFeature(v))) - {PreviousQualification})
    ensures f.n == 1 ==> store.scalers == old(store.scalers)
    ensures f.n > 1 ==> store.scalers == old(store.scalers) + Fits(PreviousQualificationFeature(v))
  {
    g := SetColumn(f, PreviousQualificationOrdinal, Map1(QualificationOrdinalOf, f.data[PreviousQualification]));
    var ok;
    g, ok := ScaleStep(g, PreviousQualificationOrdinal, stored, store);
    g := DropColumn(g, PreviousQualification);
    ghost var x := Map1(QualificationOrdinalOf, v.data[PreviousQualification]);
    ScaleSingleton(f.n, stored, PreviousQualificationOrdinal, x);
    SetTwice(f.data, PreviousQualificationOrdinal, x, ScaleOne(f.n, stored, PreviousQualificationOrdinal, x));
    MergeSingleton(old(store.scalers), PreviousQualificationOrdinal, Fit(x));
  }

  /** The four columns `#parent qualification` adds (preprocess.py:733-736). */
  method AddParentQualifications(f: Frame, ghost v: Frame) returns (g: Frame)
    requires HasQualificationInputs(v) && f.Valid() && f.n == v.n
    requires MotherQualification in f.data && f.data[MotherQualification] == v.data[MotherQualification]
    requires FatherQualification in f.data && f.data[FatherQualification] == v.data[FatherQualification]
    ensures g.Valid()
    ensures g == Frame(f.n, f.data + ParentQualificationFeatures(v))
  {
    g := SetColumn(f, MotherQualificationOrdinal, Map1(QualificationOrdinalOf, f.data[MotherQualification]));
    g := SetColumn(g, FatherQualificationOrdinal, Map1(QualificationOrdinalOf, g.data[FatherQualification]));
    g := SetColumn(g, AvgParentalEducation, Map2(MeanSkipNaN, g.data[MotherQualificationOrdinal], g.data[FatherQualificationOrdinal]));
    g := SetColumn(g, ParentalEduDisparity, Map2(AbsDiff, g.data[MotherQualificationOrdinal], g.data[FatherQualificationOrdinal]));
    ghost var a := ParentQualificationFeatures(v);
    ParentQualificationScalable(v);
    SizedMerge(f.data, a, f.n);
    Updates4(f.data, MotherQualificationOrdinal, FatherQualificationOrdinal, AvgParentalEducation, ParentalEduDisparity,
      a[MotherQualificationOrdinal], a[FatherQualificationOrdinal], a[AvgParentalEducation], a[ParentalEduDisparity]);
  }

  /** `#parent qualification` of annPreProc (preprocess.py:733-742): the
      parents' tiers, their average and their distance are added, the four
      are scaled one after another, and the two codes dropped. */
  method AnnParentQualifications(f: Frame, ghost v: Frame, ghost stored: map<Col, Scaler>, store: ScalerStore) returns (g: Frame)
    requires HasQualificationInputs(v) && f.Valid() && f.n == v.n && f.n >= 1
    requires MotherQualification in f.data && f.data[MotherQualification] == v.data[MotherQualification]
    requires FatherQualification in f.data && f.data[FatherQualification] == v.data[FatherQualification]
    requires f.n == 1 ==> store.scalers == stored
    modifies store
    ensures g.Valid()
    ensures g == Frame(f.n, (f.data + Scale(f.n, stored, ParentQualificationFeatures(v))) - {MotherQualification, FatherQualification})
    ensures f.n == 1 ==> store.scalers == old(store.scalers)
    ensures f.n > 1 ==> store.scalers == old(store.scalers) + Fits(ParentQualificationFeatures(v))
  {
    g := ScaleParentQualifications(f, v, stored, store);
    g := DropColumn(g, MotherQualification);
    DropOther(f.data + Scale(f.n, stored, ParentQualificationFeatures(v)), MotherQualification, FatherQualification);
    g := DropColumn(g, FatherQualification);
    DropTwice(f.data + Scale(f.n, stored, ParentQualificationFeatures(v)), {MotherQualification}, {FatherQualification});
    PairUnion(MotherQualification, FatherQualification);
  }

  /** The columns the section adds, added and then scaled one after another. */
  method ScaleParentQualifications(f: Frame, ghost v: Frame, ghost stored: map<Col, Scaler>, store: ScalerStore) returns (g: Frame)
    requires HasQualificationInputs(v) && f.Valid() && f.n == v.n && f.n >= 1
    requires MotherQualification in f.data && f.data[MotherQualification] == v.data[MotherQualification]
    requires FatherQualification in f.data && f.data[FatherQualification] == v.data[FatherQualification]
    requires f.n == 1 ==> store.scalers == stored
    modifies store
    ensures g.Valid()
    ensures g == Frame(f.n, f.data + Scale(f.n, stored, ParentQualificationFeatures(v)))
    ensures f.n == 1 ==> store.scalers == old(store.scalers)
    ensures f.n > 1 ==> store.scalers == old(store.scalers) + Fits(ParentQualificationFeatures(v))
  {
    g := AddParentQualifications(f, v);
    ghost var a := ParentQualificationFeatures(v);
    ghost var m := g.data;
    ghost var s := old(store.scalers);
    ScaleNoneYet(f.n, stored, m, s);
    ParentQualificationReady(f.data, v);
    g := ScaleFour(g, MotherQualificationOrdinal, FatherQualificationOrdinal, AvgParentalEducation, ParentalEduDisparity, stored, store, m, {}, s);
    ScaleAddedDone(f.n, stored, f.data, a, {} + {MotherQualificationOrdinal, FatherQualificationOrdinal, AvgParentalEducation, ParentalEduDisparity});
  }

  /** Each column the section adds can be fitted. */
  lemma ParentQualificationReady(d: map<Col, seq<Cell>>, v: Frame)
    requires HasQualificationInputs(v)
    ensures Ready(d + ParentQualificationFeatures(v), MotherQualificationOrdinal)
    ensures Ready(d + ParentQualificationFeatures(v), FatherQualificationOrdinal)
    ensures Ready(d + ParentQualificationFeatures(v), AvgParentalEducation)
    ensures Ready(d + ParentQualificationFeatures(v), ParentalEduDisparity)
  {
    ParentQualificationScalable(v);
  }

  /** The four columns `#parent occupation` adds (preprocess.py:745-748). */
  method AddOccupations(f: Frame, ghost v: Frame) returns (g: Frame)
    requires HasOccupationInputs(v) && f.Valid() && f.n == v.n
    requires MotherOccupation in f.data && f.data[MotherOccupation] == v.data[MotherOccupation]
    requires FatherOccupation in f.data && f.data[FatherOccupation] == v.data[FatherOccupation]
    ensures g.Valid()
    ensures g == Frame(f.n, f.data + OccupationFeatures(v))
  {
    g := SetColumn(f, MotherOccupationOrdinal, Map1(OccupationOrdinalOf, f.data[MotherOccupation]));
    g := SetColumn(g, FatherOccupationOrdinal, Map1(OccupationOrdinalOf, g.data[FatherOccupation]));
    g := SetColumn(g, AvgParentalIncome, Map2(MeanSkipNaN, g.data[MotherOccupationOrdinal], g.data[FatherOccupationOrdinal]));
    g := SetColumn(g, ParentalIncomeDisparity, Map2(AbsDiff, g.data[MotherOccupationOrdinal], g.data[FatherOccupationOrdinal]));
    ghost var a := OccupationFeatures(v);
    OccupationScalable(v);
    SizedMerge(f.data, a, f.n);
    Updates4(f.data, MotherOccupationOrdinal, FatherOccupationOrdinal, AvgParentalIncome, ParentalIncomeDisparity,
      a[MotherOccupationOrdinal], a[FatherOccupationOrdinal], a[AvgParentalIncome], a[ParentalIncomeDisparity]);
  }

  /** `#parent occupation` of annPreProc (preprocess.py:745-754): the
      parents' income tiers, their average and their distance are added,
      the four are scaled one after another, and the two codes dropped. */
  method AnnOccupations(f: Frame, ghost v: Frame, ghost stored: map<Col, Scaler>, store: ScalerStore) returns (g: Frame)
    requires HasOccupationInputs(v) && f.Valid() && f.n == v.n && f.n >= 1
    requires MotherOccupation in f.data && f.data[MotherOccupation] == v.data[MotherOccupation]
    requires FatherOccupation in f.data && f.data[FatherOccupation] == v.data[FatherOccupation]
    requires f.n == 1 ==> store.scalers == stored
    modifies store
    ensures g.Valid()
    ensures g == Frame(f.n, (f.data + Scale(f.n, stored, OccupationFeatures(v))) - {MotherOccupation, FatherOccupation})
    ensures f.n == 1 ==> store.scalers == old(store.scalers)
    ensures f.n > 1 ==> store.scalers == old(store.scalers) + Fits(OccupationFeatures(v))
  {
    g := ScaleOccupations(f, v, stored, store);
    g := DropColumn(g, MotherOccupation);
    DropOther(f.data + Scale(f.n, stored, OccupationFeatures(v)), MotherOccupation, FatherOccupation);
    g := DropColumn(g, FatherOccupation);
    DropTwice(f.data + Scale(f.n, stored, OccupationFeatures(v)), {MotherOccupation}, {FatherOccupation});
    PairUnion(MotherOccupation, FatherOccupation);
  }

  /** The columns the section adds, added and then scaled one after another. */
  method ScaleOccupations(f: Frame, ghost v: Frame, ghost stored: map<Col, Scaler>, store: ScalerStore) returns (g: Frame)
    requires HasOccupationInputs(v) && f.Valid() && f.n == v.n && f.n >= 1
    requires MotherOccupation in f.data && f.data[MotherOccupation] == v.data[MotherOccupation]
    requires FatherOccupation in f.data && f.data[FatherOccupation] == v.data[FatherOccupation]
    requires f.n == 1 ==> store.scalers == stored
    modifies store
    ensures g.Valid()
    ensures g == Frame(f.n, f.data + Scale(f.n, stored, OccupationFeatures(v)))
    ensures f.n == 1 ==> store.scalers == old(store.scalers)
    ensures f.n > 1 ==> store.scalers == old(store.scalers) + Fits(OccupationFeatures(v))
  {
    g := AddOccupations(f, v);
    ghost var a := OccupationFeatures(v);
    ghost var m := g.data;
    ghost var s := old(store.scalers);
    ScaleNoneYet(f.n, stored, m, s);
    OccupationReady(f.data, v);
    g := ScaleFour(g, MotherOccupationOrdinal, FatherOccupationOrdinal, AvgParentalIncome, ParentalIncomeDisparity, stored, store, m, {}, s);
    ScaleAddedDone(f.n, stored, f.data, a, {} + {MotherOccupationOrdinal, FatherOccupationOrdinal, AvgParentalIncome, ParentalIncomeDisparity});
  }

  /** Each column the section adds can be fitted. */
  lemma OccupationReady(d: map<Col, seq<Cell>>, v: Frame)
    requires HasOccupationInputs(v)
    ensures Ready(d + OccupationFeatures(v), MotherOccupationOrdinal)
    ensures Ready(d + OccupationFeatures(v), FatherOccupationOrdinal)
    ensures Ready(d + OccupationFeatures(v), AvgParentalIncome)
    ensures Ready(d + OccupationFeatures(v), ParentalIncomeDisparity)
  {
    OccupationScalable(v);
  }

  /** The columns `#curricularUnits` adds (preprocess.py:777-794), all
      read from the unscaled inputs. */
  method AddCurricular(f: Frame, ghost v: Frame) returns (g: Frame)
    requires HasCurricularInputs(f) && HasCurricularInputs(v) && Agree(f, v, CurricularInputs)
    ensures g.Valid()
    ensures g == Frame(f.n, f.data + CurricularFeatures(v))
  {
    var g1 := DeriveRates(f, v);
    CurricularInputsUntouched();
    MergeKeeps(f, {}, RateFeatures(v), CurricularInputs);
    AgreeTrans(g1, f, v, CurricularInputs);
    g := DeriveActivity(g1, v);
    MergeAssoc(f.data, RateFeatures(v), ActivityFeatures(v));
    CurricularScalable(v);
    SizedMerge(f.data, CurricularFeatures(v), f.n);
  }

  /** `#curricularUnits` of annPreProc (preprocess.py:777-813): the rates
      and the inactivity flag are added from the unscaled inputs, then the
      twelve inputs and four of the new columns are scaled one after
      another. */
  method AnnCurricular(f: Frame, ghost v: Frame, ghost stored: map<Col, Scaler>, store: ScalerStore) returns (g: Frame)
    requires HasCurricularInputs(f) && HasCurricularInputs(v) && Agree(f, v, CurricularInputs) && f.n >= 1
    requires f.n == 1 ==> store.scalers == stored
    modifies store
    ensures g.Valid()
    ensures g == Frame(f.n, (f.data + Scale(f.n, stored, CurricularFeatures(v))) + Scale(f.n, stored, Restrict(f.data, CurricularInputs)))
    ensures f.n == 1 ==> store.scalers == old(store.scalers)
    ensures f.n > 1 ==> store.scalers == (old(store.scalers) + Fits(CurricularFeatures(v))) + Fits(Restrict(f.data, CurricularInputs))
  {
    g := AddCurricular(f, v);
    ghost var a := CurricularFeatures(v);
    ghost var m := g.data;
    ghost var s := old(store.scalers);
    ScaleNoneYet(f.n, stored, m, s);
    CurricularReady(f.data, v);
    CurricularOrder();
    g := ScaleFour(g, CurricularUnits1stSemCredited, CurricularUnits1stSemEnrolled, CurricularUnits1stSemEvaluations, CurricularUnits1stSemApproved, stored, store, m, {}, s);
    g := ScaleFour(g, CurricularUnits1stSemGrade, CurricularUnits1stSemWithoutEvaluations, CurricularUnits2ndSemCredited, CurricularUnits2ndSemEnrolled, stored, store, m, {} + {CurricularUnits1stSemCredited, CurricularUnits1stSemEnrolled, CurricularUnits1stSemEvaluations, CurricularUnits1stSemApproved}, s);
    g := ScaleFour(g, CurricularUnits2ndSemEvaluations, CurricularUnits2ndSemApproved, CurricularUnits2ndSemGrade, CurricularUnits2ndSemWithoutEvaluations, stored, store, m, {} + {CurricularUnits1stSemCredited, CurricularUnits1stSemEnrolled, CurricularUnits1stSemEvaluations, CurricularUnits1stSemApproved} + {CurricularUnits1stSemGrade, CurricularUnits1stSemWithoutEvaluations, CurricularUnits2ndSemCredited, CurricularUnits2ndSemEnrolled}, s);
    g := ScaleFour(g, PerformanceIndex1stSem, PerformanceIndex2ndSem, CreditLoadReduction1stSem, CreditLoadReduction2ndSem, stored, store, m, {} + {CurricularUnits1stSemCredited, CurricularUnits1stSemEnrolled, CurricularUnits1stSemEvaluations, CurricularUnits1stSemApproved} + {CurricularUnits1stSemGrade, CurricularUnits1stSemWithoutEvaluations, CurricularUnits2ndSemCredited, CurricularUnits2ndSemEnrolled} + {CurricularUnits2ndSemEvaluations, CurricularUnits2ndSemApproved, CurricularUnits2ndSemGrade, CurricularUnits2ndSemWithoutEvaluations}, s);
    CurricularDisjoint();
    CurricularScaledCovered();
    CurricularInputsScaled();
    CurricularAddedScaled();
    ScaleSplit(f.n, stored, f.data, a, {} + {CurricularUnits1stSemCredited, CurricularUnits1stSemEnrolled, CurricularUnits1stSemEvaluations, CurricularUnits1stSemApproved} + {CurricularUnits1stSemGrade, CurricularUnits1stSemWithoutEvaluations, CurricularUnits2ndSemCredited, CurricularUnits2ndSemEnrolled} + {CurricularUnits2ndSemEvaluations, CurricularUnits2ndSemApproved, CurricularUnits2ndSemGrade, CurricularUnits2ndSemWithoutEvaluations} + {PerformanceIndex1stSem, PerformanceIndex2ndSem, CreditLoadReduction1stSem, CreditLoadReduction2ndSem}, CurricularInputs, s);
  }

  /** Every column the curricular section scales can be fitted. */
  lemma CurricularReady(d: map<Col, seq<Cell>>, v: Frame)
    requires forall k :: k in CurricularInputs ==> k in d && NumericColumn(d[k])
    requires HasCurricularInputs(v)
    ensures Ready(d + CurricularFeatures(v), CurricularUnits1stSemCredited)
    ensures Ready(d + CurricularFeatures(v), CurricularUnits1stSemEnrolled)
    ensures Ready(d + CurricularFeatures(v), CurricularUnits1stSemEvaluations)
    ensures Ready(d + CurricularFeatures(v), CurricularUnits1stSemApproved)
    ensures Ready(d + CurricularFeatures(v), CurricularUnits1stSemGrade)
    ensures Ready(d + CurricularFeatures(v), CurricularUnits1stSemWithoutEvaluations)
    ensures Ready(d + CurricularFeatures(v), CurricularUnits2ndSemCredited)
    ensures Ready(d + CurricularFeatures(v), CurricularUnits2ndSemEnrolled)
    ensures Ready(d + CurricularFeatures(v), CurricularUnits2ndSemEvaluations)
    ensures Ready(d + CurricularFeatures(v), CurricularUnits2ndSemApproved)
    ensures Ready(d + CurricularFeatures(v), CurricularUnits2ndSemGrade)
    ensures Ready(d + CurricularFeatures(v), CurricularUnits2ndSemWithoutEvaluations)
    ensures Ready(d + CurricularFeatures(v), PerformanceIndex1stSem)
    ensures Ready(d + CurricularFeatures(v), PerformanceIndex2ndSem)
    ensures Ready(d + CurricularFeatures(v), CreditLoadReduction1stSem)
    ensures Ready(d + CurricularFeatures(v), CreditLoadReduction2ndSem)
  {
    CurricularInputsUntouched();
    CurricularScalable(v);
  }

  /** The curricular columns are scaled in the order above, each once. */
  lemma CurricularOrder()
    ensures CurricularUnits1stSemGrade !in {} + {CurricularUnits1stSemCredited, CurricularUnits1stSemEnrolled, CurricularUnits1stSemEvaluations, CurricularUnits1stSemApproved}
    ensures CurricularUnits1stSemWithoutEvaluations !in {} + {CurricularUnits1stSemCredited, CurricularUnits1stSemEnrolled, CurricularUnits1stSemEvaluations, CurricularUnits1stSemApproved}
    ensures CurricularUnits2ndSemCredited !in {} + {CurricularUnits1stSemCredited, CurricularUnits1stSemEnrolled, CurricularUnits1stSemEvaluations, CurricularUnits1stSemApproved}
    ensures CurricularUnits2ndSemEnrolled !in {} + {CurricularUnits1stSemCredited, CurricularUnits1stSemEnrolled, CurricularUnits1stSemEvaluations, CurricularUnits1stSemApproved}
    ensures CurricularUnits2ndSemEvaluations !in {} + {CurricularUnits1stSemCredited, CurricularUnits1stSemEnrolled, CurricularUnits1stSemEvaluations, CurricularUnits1stSemApproved} + {CurricularUnits1stSemGrade, CurricularUnits1stSemWithoutEvaluations, CurricularUnits2ndSemCredited, CurricularUnits2ndSemEnrolled}
    ensures CurricularUnits2ndSemApproved !in {} + {CurricularUnits1stSemCredited, CurricularUnits1stSemEnrolled, CurricularUnits1stSemEvaluations, CurricularUnits1stSemApproved} + {CurricularUnits1stSemGrade, CurricularUnits1stSemWithoutEvaluations, CurricularUnits2ndSemCredited, CurricularUnits2ndSemEnrolled}
    ensures CurricularUnits2ndSemGrade !in {} + {CurricularUnits1stSemCredited, CurricularUnits1stSemEnrolled, CurricularUnits1stSemEvaluations, CurricularUnits1stSemApproved} + {CurricularUnits1stSemGrade, CurricularUnits1stSemWithoutEvaluations, CurricularUnits2ndSemCredited, CurricularUnits2ndSemEnrolled}
    ensures CurricularUnits2ndSemWithoutEvaluations !in {} + {CurricularUnits1stSemCredited, CurricularUnits1stSemEnrolled, CurricularUnits1stSemEvaluations, CurricularUnits1stSemApproved} + {CurricularUnits1stSemGrade, CurricularUnits1stSemWithoutEvaluations, CurricularUnits2ndSemCredited, CurricularUnits2ndSemEnrolled}
    ensures PerformanceIndex1stSem !in {} + {CurricularUnits1stSemCredited, CurricularUnits1stSemEnrolled, CurricularUnits1stSemEvaluations, CurricularUnits1stSemApproved} + {CurricularUnits1stSemGrade, CurricularUnits1stSemWithoutEvaluations, CurricularUnits2ndSemCredited, CurricularUnits2ndSemEnrolled} + {CurricularUnits2ndSemEvaluations, CurricularUnits2ndSemApproved, CurricularUnits2ndSemGrade, CurricularUnits2ndSemWithoutEvaluations}
    ensures PerformanceIndex2ndSem !in {} + {CurricularUnits1stSemCredited, CurricularUnits1stSemEnrolled, CurricularUnits1stSemEvaluations, CurricularUnits1stSemApproved} + {CurricularUnits1stSemGrade, CurricularUnits1stSemWithoutEvaluations, CurricularUnits2ndSemCredited, CurricularUnits2ndSemEnrolled} + {CurricularUnits2ndSemEvaluations, CurricularUnits2ndSemApproved, CurricularUnits2ndSemGrade, CurricularUnits2ndSemWithoutEvaluations}
    ensures CreditLoadReduction1stSem !in {} + {CurricularUnits1stSemCredited, CurricularUnits1stSemEnrolled, CurricularUnits1stSemEvaluations, CurricularUnits1stSemApproved} + {CurricularUnits1stSemGrade, CurricularUnits1stSemWithoutEvaluations, CurricularUnits2ndSemCredited, CurricularUnits2ndSemEnrolled} + {CurricularUnits2ndSemEvaluations, CurricularUnits2ndSemApproved, CurricularUnits2ndSemGrade, CurricularUnits2ndSemWithoutEvaluations}
    ensures CreditLoadReduction2ndSem !in {} + {CurricularUnits1stSemCredited, CurricularUnits1stSemEnrolled, CurricularUnits1stSemEvaluations, CurricularUnits1stSemApproved} + {CurricularUnits1stSemGrade, CurricularUnits1stSemWithoutEvaluations, CurricularUnits2ndSemCredited, CurricularUnits2ndSemEnrolled} + {CurricularUnits2ndSemEvaluations, CurricularUnits2ndSemApproved, CurricularUnits2ndSemGrade, CurricularUnits2ndSemWithoutEvaluations}
  {
  }

  /** The twelve inputs are not among the columns the section adds. */
  lemma CurricularDisjoint()
    ensures CurricularInputs !! RateLabels + ActivityLabels
  {
  }

  /** The section scales nothing but its inputs and the columns it adds. */
  lemma CurricularScaledCovered()
    ensures forall k :: k in {} + {CurricularUnits1stSemCredited, CurricularUnits1stSemEnrolled, CurricularUnits1stSemEvaluations, CurricularUnits1stSemApproved} + {CurricularUnits1stSemGrade, CurricularUnits1stSemWithoutEvaluations, CurricularUnits2ndSemCredited, CurricularUnits2ndSemEnrolled} + {CurricularUnits2ndSemEvaluations, CurricularUnits2ndSemApproved, CurricularUnits2ndSemGrade, CurricularUnits2ndSemWithoutEvaluations} + {PerformanceIndex1stSem, PerformanceIndex2ndSem, CreditLoadReduction1stSem, CreditLoadReduction2ndSem} ==> k in CurricularInputs || k in RateLabels + ActivityLabels
  {
  }

  /** The section scales each of its twelve inputs. */
  lemma CurricularInputsScaled()
    ensures forall k :: k in CurricularInputs ==> k in {} + {CurricularUnits1stSemCredited, CurricularUnits1stSemEnrolled, CurricularUnits1stSemEvaluations, CurricularUnits1stSemApproved} + {CurricularUnits1stSemGrade, CurricularUnits1stSemWithoutEvaluations, CurricularUnits2ndSemCredited, CurricularUnits2ndSemEnrolled} + {CurricularUnits2ndSemEvaluations, CurricularUnits2ndSemApproved, CurricularUnits2ndSemGrade, CurricularUnits2ndSemWithoutEvaluations} + {PerformanceIndex1stSem, PerformanceIndex2ndSem, CreditLoadReduction1stSem, CreditLoadReduction2ndSem}
  {
  }

  /** The section scales each column it adds that annPreProc scales. */
  lemma CurricularAddedScaled()
    ensures forall k :: k in RateLabels + ActivityLabels && Scaled(k) ==> k in {} + {CurricularUnits1stSemCredited, CurricularUnits1stSemEnrolled, CurricularUnits1stSemEvaluations, CurricularUnits1stSemApproved} + {CurricularUnits1stSemGrade, CurricularUnits1stSemWithoutEvaluations, CurricularUnits2ndSemCredited, CurricularUnits2ndSemEnrolled} + {CurricularUnits2ndSemEvaluations, CurricularUnits2ndSemApproved, CurricularUnits2ndSemGrade, CurricularUnits2ndSemWithoutEvaluations} + {PerformanceIndex1stSem, PerformanceIndex2ndSem, CreditLoadReduction1stSem, CreditLoadReduction2ndSem}
  {
  }

  /** The first half of the economic section (preprocess.py:816-821): the
      stress index is added and scaled before the economy flag and the year
      are added. */
  method AddEcon(f: Frame, ghost stored: map<Col, Scaler>, store: ScalerStore) returns (g: Frame)
    requires HasEconInputs(f) && f.n >= 1
    requires f.n == 1 ==> store.scalers == stored
    modifies store
    ensures g.n == f.n && Partway(g, stored, store.scalers, f.data + EconFeatures(f), {} + {EconomicStressIndex}, old(store.scalers))
  {
    ghost var e := EconFeatures(f);
    ghost var s := old(store.scalers);
    g := SetColumn(f, EconomicStressIndex, Map3(StressIndex, f.data[UnemploymentRate], f.data[InflationRate], f.data[Gdp]));
    ghost var m1 := g.data;
    EconStressReady(f);
    ScaleNoneYet(f.n, stored, m1, s);
    g := ScaleNext(g, EconomicStressIndex, stored, store, m1, {}, s);
    g := AddEconFlags(g, f, stored, store.scalers, s);
  }

  /** The economy flag and the year (preprocess.py:818-821), both read from
      inputs not scaled yet, added while only the stress index is scaled. */
  method AddEconFlags(g: Frame, ghost f: Frame, ghost stored: map<Col, Scaler>, ghost scalers: map<Col, Scaler>,
                      ghost s: map<Col, Scaler>) returns (h: Frame)
    requires HasEconInputs(f)
    requires Partway(g, stored, scalers, f.data[EconomicStressIndex := EconFeatures(f)[EconomicStressIndex]], {} + {EconomicStressIndex}, s)
    ensures h.n == g.n && Partway(h, stored, scalers, f.data + EconFeatures(f), {} + {EconomicStressIndex}, s)
  {
    ghost var e := EconFeatures(f);
    ghost var m1 := f.data[EconomicStressIndex := e[EconomicStressIndex]];
    EconFlagsOrder();
    UnscaledSoFar(g.n, stored, m1, {} + {EconomicStressIndex}, UnemploymentRate);
    UnscaledSoFar(g.n, stored, m1, {} + {EconomicStressIndex}, Gdp);
    h := SetColumn(g, IsEconomyGood, Map2(EconomyGoodFlag, g.data[Gdp], g.data[UnemploymentRate]));
    SetAfterScale(g.n, stored, m1, {} + {EconomicStressIndex}, IsEconomyGood, e[IsEconomyGood]);
    ghost var m2 := m1[IsEconomyGood := e[IsEconomyGood]];
    UnscaledSoFar(g.n, stored, m2, {} + {EconomicStressIndex}, UnemploymentRate);
    UnscaledSoFar(g.n, stored, m2, {} + {EconomicStressIndex}, InflationRate);
    UnscaledSoFar(g.n, stored, m2, {} + {EconomicStressIndex}, Gdp);
    h := SetColumn(h, Year, Map3(YearOf, h.data[UnemploymentRate], h.data[InflationRate], h.data[Gdp]));
    SetAfterScale(g.n, stored, m2, {} + {EconomicStressIndex}, Year, e[Year]);
    Updates3(f.data, EconomicStressIndex, IsEconomyGood, Year, e[EconomicStressIndex], e[IsEconomyGood], e[Year]);
  }

  /** The stress index can be fitted. */
  lemma EconStressReady(f: Frame)
    requires HasEconInputs(f)
    ensures Ready(f.data[EconomicStressIndex := EconFeatures(f)[EconomicStressIndex]], EconomicStressIndex)
  {
    EconScalable(f);
  }

  /** `#econ`, `#year` and the three economic inputs of annPreProc
      (preprocess.py:816-831): the stress index is added and scaled, the
      economy flag and the year are added from the unscaled inputs, then the
      year and the three inputs are scaled one after another. */
  method AnnEcon(f: Frame, ghost v: Frame, ghost stored: map<Col, Scaler>, store: ScalerStore) returns (g: Frame)
    requires HasEconInputs(f) && HasEconInputs(v) && Agree(f, v, EconInputs) && f.n >= 1
    requires f.n == 1 ==> store.scalers == stored
    modifies store
    ensures g.Valid()
    ensures g == Frame(f.n, (f.data + Scale(f.n, stored, EconFeatures(v))) + Scale(f.n, stored, Restrict(f.data, EconInputs)))
    ensures f.n == 1 ==> store.scalers == old(store.scalers)
    ensures f.n > 1 ==> store.scalers == (old(store.scalers) + Fits(EconFeatures(v))) + Fits(Restrict(f.data, EconInputs))
  {
    EconSectionRead(f, v);
    ghost var s := old(store.scalers);
    g := AddEcon(f, stored, store);
    EconReady(f);
    EconFlagsOrder();
    EconDone();
    g := ScaleFour(g, Year, UnemploymentRate, InflationRate, Gdp, stored, store, f.data + EconFeatures(f), {} + {EconomicStressIndex}, s);
    ScaleSplit(f.n, stored, f.data, EconFeatures(f), {} + {EconomicStressIndex} + {Year, UnemploymentRate, InflationRate, Gdp}, EconInputs, s);
  }

  /** The year and the three inputs can be fitted. */
  lemma EconReady(f: Frame)
    requires HasEconInputs(f)
    ensures Ready(f.data + EconFeatures(f), Year)
    ensures Ready(f.data + EconFeatures(f), UnemploymentRate)
    ensures Ready(f.data + EconFeatures(f), InflationRate)
    ensures Ready(f.data + EconFeatures(f), Gdp)
  {
    EconScalable(f);
  }

  /** The flag, the year and the three inputs are read or scaled while
      only the stress index is scaled. */
  lemma EconFlagsOrder()
    ensures IsEconomyGood !in {} + {EconomicStressIndex} && Year !in {} + {EconomicStressIndex}
    ensures UnemploymentRate !in {} + {EconomicStressIndex} && InflationRate !in {} + {EconomicStressIndex} && Gdp !in {} + {EconomicStressIndex}
  {
  }

  /** The economic section scales its three inputs and the scaled columns
      it adds, and nothing else. */
  lemma EconDone()
    ensures EconInputs !! EconLabels
    ensures forall k :: k in {} + {EconomicStressIndex} + {Year, UnemploymentRate, InflationRate, Gdp} ==> k in EconInputs || k in EconLabels
    ensures forall k :: k in EconInputs ==> k in {} + {EconomicStressIndex} + {Year, UnemploymentRate, InflationRate, Gdp}
    ensures forall k :: k in EconLabels && Scaled(k) ==> k in {} + {EconomicStressIndex} + {Year, UnemploymentRate, InflationRate, Gdp}
  {
  }
}
