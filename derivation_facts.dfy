/** Facts about the feature derivation that the pipeline methods rely on:
    which columns the sections read, add and leave alone, and how their
    column changes compose. */
module DerivationFacts {
  import opened Wrappers
  import opened Cells
  import opened Columns
  import opened Frames
  import opened Features
  import opened Labels
  import opened Derivation

  lemma QualificationSteps(m: map<Col, seq<Cell>>, pq: seq<Cell>, mq: seq<Cell>, fq: seq<Cell>, avg: seq<Cell>, dis: seq<Cell>)
    ensures (m[PreviousQualificationOrdinal := pq] - {PreviousQualification})
      [MotherQualificationOrdinal := mq][FatherQualificationOrdinal := fq]
      [AvgParentalEducation := avg][ParentalEduDisparity := dis] - {MotherQualification} - {FatherQualification}
      == (m - {PreviousQualification, MotherQualification, FatherQualification}) + map[
        PreviousQualificationOrdinal := pq, MotherQualificationOrdinal := mq, FatherQualificationOrdinal := fq,
        AvgParentalEducation := avg, ParentalEduDisparity := dis]
  {
  }

  lemma OccupationSteps(m: map<Col, seq<Cell>>, mo: seq<Cell>, fo: seq<Cell>, avg: seq<Cell>, dis: seq<Cell>)
    ensures m[MotherOccupationOrdinal := mo][FatherOccupationOrdinal := fo]
      [AvgParentalIncome := avg][ParentalIncomeDisparity := dis] - {MotherOccupation} - {FatherOccupation}
      == (m - {MotherOccupation, FatherOccupation}) + map[
        MotherOccupationOrdinal := mo, FatherOccupationOrdinal := fo,
        AvgParentalIncome := avg, ParentalIncomeDisparity := dis]
  {
  }

  lemma RateSteps(m: map<Col, seq<Cell>>, ar1: seq<Cell>, ar2: seq<Cell>, pi1: seq<Cell>, pi2: seq<Cell>,
                   clr1: seq<Cell>, clr2: seq<Cell>)
    ensures m[ApprovedRate1stSem := ar1][ApprovedRate2ndSem := ar2][PerformanceIndex1stSem := pi1][PerformanceIndex2ndSem := pi2]
      [CreditLoadReduction1stSem := clr1][CreditLoadReduction2ndSem := clr2]
      == m + map[
        ApprovedRate1stSem := ar1, ApprovedRate2ndSem := ar2, PerformanceIndex1stSem := pi1, PerformanceIndex2ndSem := pi2,
        CreditLoadReduction1stSem := clr1, CreditLoadReduction2ndSem := clr2]
  {
  }

  /** Each section reads only its input columns. */
  lemma QualificationSectionRead(a: Frame, b: Frame)
    requires HasQualificationInputs(a) && HasQualificationInputs(b) && Agree(a, b, QualificationInputs)
    ensures QualificationFeatures(a) == QualificationFeatures(b)
  {
  }

  lemma OccupationSectionRead(a: Frame, b: Frame)
    requires HasOccupationInputs(a) && HasOccupationInputs(b) && Agree(a, b, OccupationInputs)
    ensures OccupationFeatures(a) == OccupationFeatures(b)
  {
  }

  lemma CurricularSectionsRead(a: Frame, b: Frame)
    requires HasCurricularInputs(a) && HasCurricularInputs(b) && Agree(a, b, CurricularInputs)
    ensures RateFeatures(a) == RateFeatures(b)
    ensures ActivityFeatures(a) == ActivityFeatures(b)
  {
  }

  lemma EconSectionRead(a: Frame, b: Frame)
    requires HasEconInputs(a) && HasEconInputs(b) && Agree(a, b, EconInputs)
    ensures EconFeatures(a) == EconFeatures(b)
  {
  }

  /** Dropping and adding columns outside `cols` keeps the columns `cols`
      and their cells. */
  lemma MergeKeeps(f: Frame, d: set<Col>, q: map<Col, seq<Cell>>, cols: set<Col>)
    requires Has(f, cols) && cols !! d && cols !! q.Keys
    ensures var g := Frame(f.n, (f.data - d) + q); Has(g, cols) || !g.Valid()
    ensures var g := Frame(f.n, (f.data - d) + q); g.Valid() ==> Agree(g, f, cols)
    ensures var g := Frame(f.n, (f.data - d) + q); g.Valid() && HasNumeric(f, cols) ==> HasNumeric(g, cols)
  {
  }

  lemma AgreeTrans(a: Frame, b: Frame, c: Frame, cols: set<Col>)
    requires Has(a, cols) && Has(b, cols) && Has(c, cols) && Agree(a, b, cols) && Agree(b, c, cols)
    ensures Agree(a, c, cols)
  {
  }

  lemma SectionSteps(m: map<Col, seq<Cell>>, q: map<Col, seq<Cell>>, o: map<Col, seq<Cell>>,
                      r: map<Col, seq<Cell>>, a: map<Col, seq<Cell>>, e: map<Col, seq<Cell>>)
    requires MotherOccupation !in q && FatherOccupation !in q
    ensures (((((m - {PreviousQualification, MotherQualification, FatherQualification}) + q)
      - {MotherOccupation, FatherOccupation}) + o) + r + a) + e
      == (m - {PreviousQualification, MotherQualification, FatherQualification, MotherOccupation, FatherOccupation}) + (q + o + r + a + e)
  {
    var codes := {PreviousQualification, MotherQualification, FatherQualification};
    var occupations := {MotherOccupation, FatherOccupation};
    DropThenMerge(m, codes, q, occupations);
    assert codes + occupations == {PreviousQualification, MotherQualification, FatherQualification, MotherOccupation, FatherOccupation};
    var rest := m - (codes + occupations);
    MergeAssoc(rest, q, o);
    MergeAssoc(rest, q + o, r);
    MergeAssoc(rest, q + o + r, a);
    MergeAssoc(rest, q + o + r + a, e);
  }

  lemma SectionsRead(a: Frame, b: Frame)
    requires HasQualificationInputs(a) && HasOccupationInputs(a) && HasCurricularInputs(a) && HasEconInputs(a)
    requires HasQualificationInputs(b) && HasOccupationInputs(b) && HasCurricularInputs(b) && HasEconInputs(b)
    requires Agree(a, b, QualificationInputs) && Agree(a, b, OccupationInputs)
    requires Agree(a, b, CurricularInputs) && Agree(a, b, EconInputs)
    ensures Sections(a) == Sections(b)
  {
    QualificationSectionRead(a, b);
    OccupationSectionRead(a, b);
    CurricularSectionsRead(a, b);
    EconSectionRead(a, b);
  }

  /** After the shift, every section still has its inputs, with the cells
      of the renamed input. */
  lemma ShiftKeepsSections(v: Frame, order: map<Col, seq<Cell>>)
    requires FeatureReady(v) && order.Keys == {ApplicationOrderShifted} && |order[ApplicationOrderShifted]| == v.n
    ensures var f := Frame(v.n, (v.data - {ApplicationOrder}) + order);
      f.Valid() && HasQualificationInputs(f) && HasOccupationInputs(f) && HasCurricularInputs(f) && HasEconInputs(f) &&
      Agree(f, v, QualificationInputs) && Agree(f, v, OccupationInputs) &&
      Agree(f, v, CurricularInputs) && Agree(f, v, EconInputs)
  {
    ShiftTouchesNoInputs();
    MergeKeeps(v, {ApplicationOrder}, order, QualificationInputs);
    MergeKeeps(v, {ApplicationOrder}, order, OccupationInputs);
    MergeKeeps(v, {ApplicationOrder}, order, CurricularInputs);
    MergeKeeps(v, {ApplicationOrder}, order, EconInputs);
  }

  /** The column changes of rfPreProc, one after another, amount to
      removing the consumed columns once and adding all derived ones. */
  lemma DerivationSteps(m: map<Col, seq<Cell>>, a: map<Col, seq<Cell>>, s: map<Col, seq<Cell>>, t: map<Col, seq<Cell>>)
    requires a.Keys == {ApplicationOrderShifted} && Target !in s && t.Keys <= {TargetInt}
    ensures (((((m - {ApplicationOrder}) + a) - {PreviousQualification, MotherQualification, FatherQualification, MotherOccupation, FatherOccupation}) + s) + t) - {Target}
      == (m - Consumed) + (a + s + t)
  {
    var codes := {PreviousQualification, MotherQualification, FatherQualification, MotherOccupation, FatherOccupation};
    assert a.Keys !! codes;
    DropThenMerge(m, {ApplicationOrder}, a, codes);
    var rest := m - ({ApplicationOrder} + codes);
    MergeAssoc(rest, a, s);
    MergeAssoc(rest, a + s, t);
    assert (a + s + t).Keys !! {Target};
    DropThenMerge(rest, {}, a + s + t, {Target});
    assert rest - {} == rest;
    assert {ApplicationOrder} + codes + {Target} == Consumed;
    DropTwice(m, {ApplicationOrder} + codes, {Target});
  }

  /** The frame the steps of rfPreProc build is DeriveFeatures of its input. */
  lemma DeriveFeaturesSteps(v: Frame, order: map<Col, seq<Cell>>, s: map<Col, seq<Cell>>, t: map<Col, seq<Cell>>)
    requires FeatureReady(v) && order == map[ApplicationOrderShifted := Map1(Shifted, v.data[ApplicationOrder])]
    requires s == Sections(v) && t == TargetFeatures(v)
    ensures Frame(v.n, (((((v.data - {ApplicationOrder}) + order) - {PreviousQualification, MotherQualification, FatherQualification, MotherOccupation, FatherOccupation}) + s) + t) - {Target})
      == DeriveFeatures(v)
  {
    DerivationSteps(v.data, order, s, t);
  }

  /** After the sections, the frame is well formed and the outcome column
      still holds the input's cells. */
  lemma SectionsKeepOutcome(f: Frame, s: map<Col, seq<Cell>>)
    requires f.Valid() && Sized(s, f.n) && Target !in s
    ensures var g := Frame(f.n, (f.data - {PreviousQualification, MotherQualification, FatherQualification, MotherOccupation, FatherOccupation}) + s);
      g.Valid() && (Target in f.data ==> Target in g.data && g.data[Target] == f.data[Target])
  {
    MergeValid(f, {PreviousQualification, MotherQualification, FatherQualification, MotherOccupation, FatherOccupation}, s);
    OutcomeUntouched();
    if Target in f.data {
      MergeLookup(f.data, {PreviousQualification, MotherQualification, FatherQualification, MotherOccupation, FatherOccupation}, s, Target);
    }
  }

  lemma MergeValid(f: Frame, d: set<Col>, q: map<Col, seq<Cell>>)
    requires f.Valid() && Sized(q, f.n)
    ensures Frame(f.n, (f.data - d) + q).Valid()
  {
  }
}
