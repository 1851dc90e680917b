/** Column labels of the data frames the pipelines work on, and the rename
    table `conversion_dict` (preprocess.py:43-81) that turns the dataset's
    original headers into the camelCase labels used everywhere else.

    A label is modelled by a constructor rather than by its text: each
    canonical label ("maritalStatus", ..., "target") and each derived label
    ("applicationOrderShifted", ..., "targetInt") is the constructor of the
    same name with an upper-case first letter; the columns `pd.get_dummies`
    creates ("<source>_<code>") are `Indicator(source, code)`; every other
    label, among them the original headers such as "Marital status", is
    `Header(text)`. A text equal to a canonical label is always represented
    by its constructor, never by `Header`. */
module Columns {
  import opened Wrappers
  import opened Cells

  datatype Col =
      // the 37 values of conversion_dict, in its order
    | MaritalStatus
    | ApplicationMode
    | ApplicationOrder
    | Course
    | DaytimeEveningAttendance
    | PreviousQualification
    | PreviousQualificationGrade
    | Nationality
    | MotherQualification
    | FatherQualification
    | MotherOccupation
    | FatherOccupation
    | AdmissionGrade
    | Displaced
    | EducationalSpecialNeeds
    | Debtor
    | TuitionFeesUpToDate
    | Gender
    | ScholarshipHolder
    | AgeAtEnrollment
    | International
    | CurricularUnits1stSemCredited
    | CurricularUnits1stSemEnrolled
    | CurricularUnits1stSemEvaluations
    | CurricularUnits1stSemApproved
    | CurricularUnits1stSemGrade
    | CurricularUnits1stSemWithoutEvaluations
    | CurricularUnits2ndSemCredited
    | CurricularUnits2ndSemEnrolled
    | CurricularUnits2ndSemEvaluations
    | CurricularUnits2ndSemApproved
    | CurricularUnits2ndSemGrade
    | CurricularUnits2ndSemWithoutEvaluations
    | UnemploymentRate
    | InflationRate
    | Gdp
    | Target
      // the columns the pipelines derive, in the order they are assigned
    | ApplicationOrderShifted
    | PreviousQualificationOrdinal
    | MotherQualificationOrdinal
    | FatherQualificationOrdinal
    | AvgParentalEducation
    | ParentalEduDisparity
    | MotherOccupationOrdinal
    | FatherOccupationOrdinal
    | AvgParentalIncome
    | ParentalIncomeDisparity
    | ApprovedRate1stSem
    | ApprovedRate2ndSem
    | PerformanceIndex1stSem
    | PerformanceIndex2ndSem
    | CreditLoadReduction1stSem
    | CreditLoadReduction2ndSem
    | EvalRate1stSem
    | EvalRate2ndSem
    | NoAcademicActivity
    | EconomicStressIndex
    | IsEconomyGood
    | Year
    | TargetInt
      // a one-hot indicator column created by get_dummies for one observed code
    | Indicator(source: Col, code: Cell)
      // any label that is not one of the above
    | Header(text: string)

  /** The keys of conversion_dict: the dataset's original headers, in source order. */
  const OriginalHeaders: seq<string> := [
    "Marital status",
    "Application mode",
    "Application order",
    "Course",
    "Daytime/evening attendance",
    "Previous qualification",
    "Previous qualification (grade)",
    "Nacionality",
    "Mothers qualification",
    "Fathers qualification",
    "Mothers occupation",
    "Fathers occupation",
    "Admission grade",
    "Displaced",
    "Educational special needs",
    "Debtor",
    "Tuition fees up to date",
    "Gender",
    "Scholarship holder",
    "Age at enrollment",
    "International",
    "Curricular units 1st sem (credited)",
    "Curricular units 1st sem (enrolled)",
    "Curricular units 1st sem (evaluations)",
    "Curricular units 1st sem (approved)",
    "Curricular units 1st sem (grade)",
    "Curricular units 1st sem (without evaluations)",
    "Curricular units 2nd sem (credited)",
    "Curricular units 2nd sem (enrolled)",
    "Curricular units 2nd sem (evaluations)",
    "Curricular units 2nd sem (approved)",
    "Curricular units 2nd sem (grade)",
    "Curricular units 2nd sem (without evaluations)",
    "Unemployment rate",
    "Inflation rate",
    "GDP",
    "Target"
  ]

  /** The values of conversion_dict: `CanonicalLabels[k]` is the label of `OriginalHeaders[k]`. */
  const CanonicalLabels: seq<Col> := [
    MaritalStatus,
    ApplicationMode,
    ApplicationOrder,
    Course,
    DaytimeEveningAttendance,
    PreviousQualification,
    PreviousQualificationGrade,
    Nationality,
    MotherQualification,
    FatherQualification,
    MotherOccupation,
    FatherOccupation,
    AdmissionGrade,
    Displaced,
    EducationalSpecialNeeds,
    Debtor,
    TuitionFeesUpToDate,
    Gender,
    ScholarshipHolder,
    AgeAtEnrollment,
    International,
    CurricularUnits1stSemCredited,
    CurricularUnits1stSemEnrolled,
    CurricularUnits1stSemEvaluations,
    CurricularUnits1stSemApproved,
    CurricularUnits1stSemGrade,
    CurricularUnits1stSemWithoutEvaluations,
    CurricularUnits2ndSemCredited,
    CurricularUnits2ndSemEnrolled,
    CurricularUnits2ndSemEvaluations,
    CurricularUnits2ndSemApproved,
    CurricularUnits2ndSemGrade,
    CurricularUnits2ndSemWithoutEvaluations,
    UnemploymentRate,
    InflationRate,
    Gdp,
    Target
  ]

  /** Position of a canonical label among the values of conversion_dict
      (-1 for every other label); used to show those values are distinct. */
  function EntryIndex(c: Col): int {
    match c
    case MaritalStatus => 0
    case ApplicationMode => 1
    case ApplicationOrder => 2
    case Course => 3
    case DaytimeEveningAttendance => 4
    case PreviousQualification => 5
    case PreviousQualificationGrade => 6
    case Nationality => 7
    case MotherQualification => 8
    case FatherQualification => 9
    case MotherOccupation => 10
    case FatherOccupation => 11
    case AdmissionGrade => 12
    case Displaced => 13
    case EducationalSpecialNeeds => 14
    case Debtor => 15
    case TuitionFeesUpToDate => 16
    case Gender => 17
    case ScholarshipHolder => 18
    case AgeAtEnrollment => 19
    case International => 20
    case CurricularUnits1stSemCredited => 21
    case CurricularUnits1stSemEnrolled => 22
    case CurricularUnits1stSemEvaluations => 23
    case CurricularUnits1stSemApproved => 24
    case CurricularUnits1stSemGrade => 25
    case CurricularUnits1stSemWithoutEvaluations => 26
    case CurricularUnits2ndSemCredited => 27
    case CurricularUnits2ndSemEnrolled => 28
    case CurricularUnits2ndSemEvaluations => 29
    case CurricularUnits2ndSemApproved => 30
    case CurricularUnits2ndSemGrade => 31
    case CurricularUnits2ndSemWithoutEvaluations => 32
    case UnemploymentRate => 33
    case InflationRate => 34
    case Gdp => 35
    case Target => 36
    case _ => -1
  }

  /** Looks a header up in parallel lists of headers and labels and returns
      the label of its first occurrence (a dict lookup, when the headers are
      distinct). */
  function Find(headers: seq<string>, labels: seq<Col>, header: string): (r: Option<Col>)
    requires |headers| == |labels|
    ensures r.Some? <==> exists k :: 0 <= k < |headers| && headers[k] == header
    ensures r.Some? ==> exists k :: 0 <= k < |headers| && headers[k] == header && labels[k] == r.value
  {
    if headers == [] then None
    else if headers[0] == header then Some(labels[0])
    else Find(headers[1..], labels[1..], header)
  }

  /** conversion_dict has 37 entries and each of its values sits at its own
      position: EntryIndex recovers the position of every value. */
  lemma LabelsIndexed()
    ensures |OriginalHeaders| == |CanonicalLabels| == 37
    ensures forall k :: 0 <= k < |CanonicalLabels| ==> EntryIndex(CanonicalLabels[k]) == k
    ensures forall k :: 0 <= k < |CanonicalLabels| ==> !CanonicalLabels[k].Header?
  {
    LowerLabelsIndexed();
    UpperLabelsIndexed();
  }

  lemma LowerLabelsIndexed()
    ensures forall k :: 0 <= k < 19 ==> EntryIndex(CanonicalLabels[k]) == k
  {
  }

  lemma UpperLabelsIndexed()
    ensures forall k :: 19 <= k < 37 ==> EntryIndex(CanonicalLabels[k]) == k
  {
  }

  /** The values of conversion_dict are pairwise distinct. */
  lemma ConversionValuesDistinct()
    ensures forall i, j ::
      (0 <= i < |CanonicalLabels| && 0 <= j < |CanonicalLabels| &&
       CanonicalLabels[i] == CanonicalLabels[j]) ==> i == j
  {
    LabelsIndexed();
  }

  /** `conversion_dict.get(header)`: the canonical label of an original header.
      A header is found exactly when it is a key; the label found is a value
      of the table, and the key listed at that value's own position is the
      header, so the label determines the header. */
  function ConversionDict(header: string): (r: Option<Col>)
    ensures r.Some? <==> header in OriginalHeaders
    ensures r.Some? ==> 0 <= EntryIndex(r.value) < |OriginalHeaders|
    ensures r.Some? ==> !r.value.Header?
    ensures r.Some? ==> OriginalHeaders[EntryIndex(r.value)] == header
    ensures r.Some? ==> CanonicalLabels[EntryIndex(r.value)] == r.value
  {
    LabelsIndexed();
    Find(OriginalHeaders, CanonicalLabels, header)
  }

  /** The rename never merges two original headers into one label. */
  lemma ConversionInjective(a: string, b: string)
    requires ConversionDict(a).Some? && ConversionDict(a) == ConversionDict(b)
    ensures a == b
  {
  }

  /** The label a column carries after `rename(columns=conversion_dict)`: an
      original header becomes its canonical label, every other label stays. */
  function RenameCol(c: Col): (r: Col)
    ensures r != c ==> c.Header? && ConversionDict(c.text) == Some(r)
    ensures r.Header? ==> r == c
  {
    if c.Header? then ConversionDict(c.text).GetOr(c) else c
  }

  /** Renaming twice changes nothing more: no canonical label is a key of
      conversion_dict. */
  lemma RenameIdempotent(c: Col)
    ensures RenameCol(RenameCol(c)) == RenameCol(c)
  {
  }

  /** A set of labels can be renamed without two columns ending up with the
      same label: no original header is present together with the canonical
      label it is renamed to. (pandas would produce a duplicate label.) */
  predicate RenameDefined(labels: set<Col>) {
    forall c | c in labels && c.Header? && ConversionDict(c.text).Some? ::
      ConversionDict(c.text).value !in labels
  }

  /** Under RenameDefined, distinct columns keep distinct labels. */
  lemma RenameInjective(labels: set<Col>, c1: Col, c2: Col)
    requires RenameDefined(labels)
    requires c1 in labels && c2 in labels && c1 != c2
    ensures RenameCol(c1) != RenameCol(c2)
  {
    var r1, r2 := RenameCol(c1), RenameCol(c2);
    if r1 != c1 && r2 != c2 {
      if r1 == r2 {
        ConversionInjective(c1.text, c2.text);
      }
    } else if r1 != c1 {
      assert r1 == ConversionDict(c1.text).value && r1 !in labels;
    } else if r2 != c2 {
      assert r2 == ConversionDict(c2.text).value && r2 !in labels;
    }
  }
}
