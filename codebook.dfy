/**
 * The code book of the student-outcome data set: the integer codes each
 * categorical field takes, with their human-readable labels, the two ordinal
 * bucketings of qualifications and occupations, the table that recognises an
 * academic year from its three macro-economic indicators, and the encoding of
 * the outcome label.
 *
 * Tables longer than thirty entries are written as the union of two map
 * displays; the union has exactly the entries of the single dictionary.
 */
module CodeBook {
  import opened Wrappers

  /** Labels for marital status (preprocess.py:84-91). */
  const MaritalStatusLabels: map<int, string> := map[
    1 := "single",
    2 := "married",
    3 := "widower",
    4 := "divorced",
    5 := "facto union",
    6 := "legally separated"
  ]

  /** Labels for application mode (preprocess.py:94-113). */
  const ApplicationModeLabels: map<int, string> := map[
    1 := "1st phase - general contingent",
    2 := "Ordinance No. 612/93",
    5 := "1st phase - special contingent (Azores Island)",
    7 := "Holders of other higher courses",
    10 := "Ordinance No. 854-B/99",
    15 := "International student (bachelor)",
    16 := "1st phase - special contingent (Madeira Island)",
    17 := "2nd phase - general contingent",
    18 := "3rd phase - general contingent",
    26 := "Ordinance No. 533-A/99, item b2) (Different Plan)",
    27 := "Ordinance No. 533-A/99, item b3 (Other Institution)",
    39 := "Over 23 years old",
    42 := "Transfer",
    43 := "Change of course",
    44 := "Technological specialization diploma holders",
    51 := "Change of institution/course",
    53 := "Short cycle diploma holders",
    57 := "Change of institution/course (International)"
  ]

  /** Labels for degree course (preprocess.py:118-136). */
  const CourseLabels: map<int, string> := map[
    33 := "Biofuel Production Technologies",
    171 := "Animation and Multimedia Design",
    8014 := "Social Service (evening attendance)",
    9003 := "Agronomy",
    9070 := "Communication Design",
    9085 := "Veterinary Nursing",
    9119 := "Informatics Engineering",
    9130 := "Equinculture",
    9147 := "Management",
    9238 := "Social Service",
    9254 := "Tourism",
    9500 := "Nursing",
    9556 := "Oral Hygiene",
    9670 := "Advertising and Marketing Management",
    9773 := "Journalism and Communication",
    9853 := "Basic Education",
    9991 := "Management (evening attendance)"
  ]

  /** Labels for daytime/evening attendance (preprocess.py:139). */
  const DaytimeEveningAttendanceLabels: map<int, string> := map[
    1 := "daytime",
    0 := "evening"
  ]

  /** Labels for previous qualification (preprocess.py:142-160). */
  const PreviousQualificationLabels: map<int, string> := map[
    1 := "Secondary education",
    2 := "Higher education - bachelor's degree",
    3 := "Higher education - degree",
    4 := "Higher education - master's",
    5 := "Higher education - doctorate",
    6 := "Frequency of higher education",
    9 := "12th year of schooling - not completed",
    10 := "11th year of schooling - not completed",
    12 := "Other - 11th year of schooling",
    14 := "10th year of schooling",
    15 := "10th year of schooling - not completed",
    19 := "Basic education 3rd cycle (9th/10th/11th year) or equiv.",
    38 := "Basic education 2nd cycle (6th/7th/8th year) or equiv.",
    39 := "Technological specialization course",
    40 := "Higher education - degree (1st cycle)",
    42 := "Professional higher technical course",
    43 := "Higher education - master (2nd cycle)"
  ]

  /** Labels for nationality (preprocess.py:165-187). */
  const NationalityLabels: map<int, string> := map[
    1 := "Portuguese",
    2 := "German",
    6 := "Spanish",
    11 := "Italian",
    13 := "Dutch",
    14 := "English",
    17 := "Lithuanian",
    21 := "Angolan",
    22 := "Cape Verdean",
    24 := "Guinean",
    25 := "Mozambican",
    26 := "Santomean",
    32 := "Turkish",
    41 := "Brazilian",
    62 := "Romanian",
    100 := "Moldova (Republic of)",
    101 := "Mexican",
    103 := "Ukrainian",
    105 := "Russian",
    108 := "Cuban",
    109 := "Colombian"
  ]

  /** Labels for mother's qualification (preprocess.py:190-220). */
  const MotherQualificationLabels: map<int, string> := map[
    1 := "Secondary Education - 12th Year of Schooling or Eq.",
    2 := "Higher Education - Bachelor's Degree",
    3 := "Higher Education - Degree",
    4 := "Higher Education - Master's",
    5 := "Higher Education - Doctorate",
    6 := "Frequency of Higher Education",
    9 := "12th Year of Schooling - Not Completed",
    10 := "11th Year of Schooling - Not Completed",
    11 := "7th Year (Old)",
    12 := "Other - 11th Year of Schooling",
    14 := "10th Year of Schooling",
    18 := "General commerce course",
    19 := "Basic Education 3rd Cycle (9th/10th/11th Year) or Equiv.",
    22 := "Technical-professional course",
    26 := "7th year of schooling",
    27 := "2nd cycle of the general high school course",
    29 := "9th Year of Schooling - Not Completed",
    30 := "8th year of schooling",
    34 := "Unknown",
    35 := "Can't read or write",
    36 := "Can read without having a 4th year of schooling",
    37 := "Basic education 1st cycle (4th/5th year) or equiv.",
    38 := "Basic Education 2nd Cycle (6th/7th/8th Year) or Equiv.",
    39 := "Technological specialization course",
    40 := "Higher education - degree (1st cycle)",
    41 := "Specialized higher studies course",
    42 := "Professional higher technical course",
    43 := "Higher Education - Master (2nd cycle)",
    44 := "Higher Education - Doctorate (3rd cycle)"
  ]

  /** Labels for father's qualification (preprocess.py:223-258). */
  const FatherQualificationLabels: map<int, string> := map[
    1 := "Secondary Education - 12th Year of Schooling or Eq.",
    2 := "Higher Education - Bachelor's Degree",
    3 := "Higher Education - Degree",
    4 := "Higher Education - Master's",
    5 := "Higher Education - Doctorate",
    6 := "Frequency of Higher Education",
    9 := "12th Year of Schooling - Not Completed",
    10 := "11th Year of Schooling - Not Completed",
    11 := "7th Year (Old)",
    12 := "Other - 11th Year of Schooling",
    13 := "2nd year complementary high school course",
    14 := "10th Year of Schooling",
    18 := "General commerce course",
    19 := "Basic Education 3rd Cycle (9th/10th/11th Year) or Equiv.",
    20 := "Complementary High School Course",
    22 := "Technical-professional course",
    25 := "Complementary High School Course - not concluded"
  ] + map[
    26 := "7th year of schooling",
    27 := "2nd cycle of the general high school course",
    29 := "9th Year of Schooling - Not Completed",
    30 := "8th year of schooling",
    31 := "General Course of Administration and Commerce",
    33 := "Supplementary Accounting and Administration",
    34 := "Unknown",
    35 := "Can't read or write",
    36 := "Can read without having a 4th year of schooling",
    37 := "Basic education 1st cycle (4th/5th year) or equiv.",
    38 := "Basic Education 2nd Cycle (6th/7th/8th Year) or Equiv.",
    39 := "Technological specialization course",
    40 := "Higher education - degree (1st cycle)",
    41 := "Specialized higher studies course",
    42 := "Professional higher technical course",
    43 := "Higher Education - Master (2nd cycle)",
    44 := "Higher Education - Doctorate (3rd cycle)"
  ]

  /** Labels for union of every qualification code (preprocess.py:261-297). */
  const CombineQualification: map<int, string> := map[
    1 := "Secondary Education - 12th Year of Schooling or Eq.",
    2 := "Higher Education - Bachelor's Degree",
    3 := "Higher Education - Degree",
    4 := "Higher Education - Master's",
    5 := "Higher Education - Doctorate",
    6 := "Frequency of Higher Education",
    9 := "12th Year of Schooling - Not Completed",
    10 := "11th Year of Schooling - Not Completed",
    11 := "7th Year (Old)",
    12 := "Other - 11th Year of Schooling",
    13 := "2nd year complementary high school course",
    14 := "10th Year of Schooling",
    15 := "10th Year of Schooling - Not Completed",
    18 := "General commerce course",
    19 := "Basic Education 3rd Cycle (9th/10th/11th Year) or Equiv.",
    20 := "Complementary High School Course",
    22 := "Technical-professional course",
    25 := "Complementary High School Course - not concluded"
  ] + map[
    26 := "7th year of schooling",
    27 := "2nd cycle of the general high school course",
    29 := "9th Year of Schooling - Not Completed",
    30 := "8th year of schooling",
    31 := "General Course of Administration and Commerce",
    33 := "Supplementary Accounting and Administration",
    34 := "Unknown",
    35 := "Can't read or write",
    36 := "Can read without having a 4th year of schooling",
    37 := "Basic education 1st cycle (4th/5th year) or equiv.",
    38 := "Basic Education 2nd Cycle (6th/7th/8th Year) or Equiv.",
    39 := "Technological specialization course",
    40 := "Higher education - degree (1st cycle)",
    41 := "Specialized higher studies course",
    42 := "Professional higher technical course",
    43 := "Higher Education - Master (2nd cycle)",
    44 := "Higher Education - Doctorate (3rd cycle)"
  ]

  /** Labels for qualification tier names (preprocess.py:309-315). */
  const QualificationOrdinalName: map<int, string> := map[
    0 := "None. No documented education",
    1 := "Basic. Basic/primary schooling",
    2 := "Secondary. Interrupted or completed",
    3 := "Post-Secondary. Technological or sub-degree",
    4 := "Higher Ed. Degree and beyond"
  ]

  /** Labels for mother's occupation (preprocess.py:318-351). */
  const MotherOccupationLabels: map<int, string> := map[
    0 := "Student",
    1 := "Representatives of the Legislative Power and Executive Bodies, Directors, Directors and Executive Managers",
    2 := "Specialists in Intellectual and Scientific Activities",
    3 := "Intermediate Level Technicians and Professions",
    4 := "Administrative staff",
    5 := "Personal Services, Security and Safety Workers and Sellers",
    6 := "Farmers and Skilled Workers in Agriculture, Fisheries and Forestry",
    7 := "Skilled Workers in Industry, Construction and Craftsmen",
    8 := "Installation and Machine Operators and Assembly Workers",
    9 := "Unskilled Workers",
    10 := "Armed Forces Professions",
    90 := "Other Situation",
    99 := "(blank)",
    122 := "Health professionals",
    123 := "teachers",
    125 := "Specialists in information and communication technologies (ICT)"
  ] + map[
    131 := "Intermediate level science and engineering technicians and professions",
    132 := "Technicians and professionals, of intermediate level of health",
    134 := "Intermediate level technicians from legal, social, sports, cultural and similar services",
    141 := "Office workers, secretaries in general and data processing operators",
    143 := "Data, accounting, statistical, financial services and registry-related operators",
    144 := "Other administrative support staff",
    151 := "personal service workers",
    152 := "sellers",
    153 := "Personal care workers and the like",
    171 := "Skilled construction workers and the like, except electricians",
    173 := "Skilled workers in printing, precision instrument manufacturing, jewelers, artisans and the like",
    175 := "Workers in food processing, woodworking, clothing and other industries and crafts",
    191 := "cleaning workers",
    192 := "Unskilled workers in agriculture, animal production, fisheries and forestry",
    193 := "Unskilled workers in extractive industry, construction, manufacturing and transport",
    194 := "Meal preparation assistants"
  ]

  /** Labels for father's occupation (preprocess.py:354-401). */
  const FatherOccupationLabels: map<int, string> := map[
    0 := "Student",
    1 := "Representatives of the Legislative Power and Executive Bodies, Directors, Directors and Executive Managers",
    2 := "Specialists in Intellectual and Scientific Activities",
    3 := "Intermediate Level Technicians and Professions",
    4 := "Administrative staff",
    5 := "Personal Services, Security and Safety Workers and Sellers",
    6 := "Farmers and Skilled Workers in Agriculture, Fisheries and Forestry",
    7 := "Skilled Workers in Industry, Construction and Craftsmen",
    8 := "Installation and Machine Operators and Assembly Workers",
    9 := "Unskilled Workers",
    10 := "Armed Forces Professions",
    90 := "Other Situation",
    99 := "(blank)",
    101 := "Armed Forces Officers",
    102 := "Armed Forces Sergeants",
    103 := "Other Armed Forces personnel",
    112 := "Directors of administrative and commercial services",
    114 := "Hotel, catering, trade and other services directors",
    121 := "Specialists in the physical sciences, mathematics, engineering and related techniques",
    122 := "Health professionals",
    123 := "teachers",
    124 := "Specialists in finance, accounting, administrative organization, public and commercial relations",
    131 := "Intermediate level science and engineering technicians and professions"
  ] + map[
    132 := "Technicians and professionals, of intermediate level of health",
    134 := "Intermediate level technicians from legal, social, sports, cultural and similar services",
    135 := "Information and communication technology technicians",
    141 := "Office workers, secretaries in general and data processing operators",
    143 := "Data, accounting, statistical, financial services and registry-related operators",
    144 := "Other administrative support staff",
    151 := "personal service workers",
    152 := "sellers",
    153 := "Personal care workers and the like",
    154 := "Protection and security services personnel",
    161 := "Market-oriented farmers and skilled agricultural and animal production workers",
    163 := "Farmers, livestock keepers, fishermen, hunters and gatherers, subsistence",
    171 := "Skilled construction workers and the like, except electricians",
    172 := "Skilled workers in metallurgy, metalworking and similar",
    174 := "Skilled workers in electricity and electronics",
    175 := "Workers in food processing, woodworking, clothing and other industries and crafts",
    181 := "Fixed plant and machine operators",
    182 := "assembly workers",
    183 := "Vehicle drivers and mobile equipment operators",
    192 := "Unskilled workers in agriculture, animal production, fisheries and forestry",
    193 := "Unskilled workers in extractive industry, construction, manufacturing and transport",
    194 := "Meal preparation assistants",
    195 := "Street vendors (except food) and street service providers"
  ]

  /** Labels for union of every occupation code (preprocess.py:404-454). */
  const CombineOccupation: map<int, string> := CombineOccupationLower + CombineOccupationUpper

  /** Codes 0 to 132 of CombineOccupation. */
  const CombineOccupationLower: map<int, string> := map[
    0 := "Student",
    1 := "Representatives of the Legislative Power and Executive Bodies, Directors, Directors and Executive Managers",
    2 := "Specialists in Intellectual and Scientific Activities",
    3 := "Intermediate Level Technicians and Professions",
    4 := "Administrative staff",
    5 := "Personal Services, Security and Safety Workers and Sellers",
    6 := "Farmers and Skilled Workers in Agriculture, Fisheries and Forestry",
    7 := "Skilled Workers in Industry, Construction and Craftsmen",
    8 := "Installation and Machine Operators and Assembly Workers",
    9 := "Unskilled Workers",
    10 := "Armed Forces Professions",
    90 := "Other Situation",
    99 := "(blank)",
    101 := "Armed Forces Officers",
    102 := "Armed Forces Sergeants",
    103 := "Other Armed Forces personnel",
    112 := "Directors of administrative and commercial services",
    114 := "Hotel, catering, trade and other services directors",
    121 := "Specialists in the physical sciences, mathematics, engineering and related techniques",
    122 := "Health professionals",
    123 := "teachers",
    124 := "Specialists in finance, accounting, administrative organization, public and commercial relations",
    125 := "Specialists in information and communication technologies (ICT)",
    131 := "Intermediate level science and engineering technicians and professions",
    132 := "Technicians and professionals, of intermediate level of health"
  ]

  /** Codes 134 to 195 of CombineOccupation. */
  const CombineOccupationUpper: map<int, string> := map[
    134 := "Intermediate level technicians from legal, social, sports, cultural and similar services",
    135 := "Information and communication technology technicians",
    141 := "Office workers, secretaries in general and data processing operators",
    143 := "Data, accounting, statistical, financial services and registry-related operators",
    144 := "Other administrative support staff",
    151 := "personal service workers",
    152 := "sellers",
    153 := "Personal care workers and the like",
    154 := "Protection and security services personnel",
    161 := "Market-oriented farmers and skilled agricultural and animal production workers",
    163 := "Farmers, livestock keepers, fishermen, hunters and gatherers, subsistence",
    171 := "Skilled construction workers and the like, except electricians",
    172 := "Skilled workers in metallurgy, metalworking and similar",
    173 := "Skilled workers in printing, precision instrument manufacturing, jewelers, artisans and the like",
    174 := "Skilled workers in electricity and electronics",
    175 := "Workers in food processing, woodworking, clothing and other industries and crafts",
    181 := "Fixed plant and machine operators",
    182 := "assembly workers",
    183 := "Vehicle drivers and mobile equipment operators",
    191 := "cleaning workers",
    192 := "Unskilled workers in agriculture, animal production, fisheries and forestry",
    193 := "Unskilled workers in extractive industry, construction, manufacturing and transport",
    194 := "Meal preparation assistants",
    195 := "Street vendors (except food) and street service providers"
  ]

  /** Labels for occupation tier names (preprocess.py:467-474). */
  const OccupationOrdinalName: map<int, string> := map[
    0 := "None/Unknown",
    1 := "Low income",
    2 := "Lower-Middle income",
    3 := "Middle income",
    4 := "Upper-Middle income",
    5 := "High income"
  ]

  /** Labels for displaced (preprocess.py:479). */
  const DisplacedLabels: map<int, string> := map[
    1 := "yes",
    0 := "no"
  ]

  /** Labels for special educational needs (preprocess.py:482). */
  const EducationalSpecialNeedsLabels: map<int, string> := map[
    1 := "yes",
    0 := "no"
  ]

  /** Labels for debtor (preprocess.py:485). */
  const DebtorLabels: map<int, string> := map[
    1 := "yes",
    0 := "no"
  ]

  /** Labels for tuition fees up to date (preprocess.py:488). */
  const TuitionFeesUpToDateLabels: map<int, string> := map[
    1 := "yes",
    0 := "no"
  ]

  /** Labels for gender (preprocess.py:491). */
  const GenderLabels: map<int, string> := map[
    1 := "male",
    0 := "female"
  ]

  /** Labels for scholarship holder (preprocess.py:494). */
  const ScholarshipHolderLabels: map<int, string> := map[
    1 := "yes",
    0 := "no"
  ]

  /** Labels for international student (preprocess.py:499). */
  const InternationalLabels: map<int, string> := map[
    1 := "yes",
    0 := "no"
  ]

  /**
   * `qualificationOrdinal` (preprocess.py:300-306): the dict built from one
   * list of codes per tier, looked up as Python's `dict.get` does. Tiers:
   * 0 none, 1 basic, 2 secondary, 3 post-secondary, 4 higher.
   */
  function QualificationOrdinal(code: int): (t: Option<int>)
    ensures t.Some? ==> 0 <= t.value <= 4
  {
    match code
    case 34 | 35 => Some(0)
    case 11 | 12 | 26 | 27 | 29 | 30 | 31 | 37 | 38 | 36 => Some(1)
    case 9 | 10 | 14 | 15 | 13 | 18 | 20 | 22 | 25 | 19 | 33 | 41 => Some(2)
    case 39 | 42 => Some(3)
    case 1 | 2 | 3 | 40 | 4 | 43 | 5 | 44 | 6 => Some(4)
    case _ => None
  }

  /**
   * `occupationOrdinal` (preprocess.py:457-464), likewise: income tier
   * 0 none/unknown, 1 low, 2 lower-middle, 3 middle, 4 upper-middle, 5 high.
   */
  function OccupationOrdinal(code: int): (t: Option<int>)
    ensures t.Some? ==> 0 <= t.value <= 5
  {
    match code
    case 0 | 90 | 99 => Some(0)
    case 9 | 191 | 192 | 193 | 194 | 195 | 163 => Some(1)
    case 6 | 7 | 171 | 172 | 173 | 174 | 175 | 8 | 181 | 182 | 183 | 152 | 153 | 154 | 151 => Some(2)
    case 3 | 131 | 132 | 134 | 135 | 4 | 141 | 143 | 144 | 5 | 10 | 101 | 102 | 103 | 161 => Some(3)
    case 2 | 121 | 122 | 123 | 124 | 125 => Some(4)
    case 1 | 112 | 114 => Some(5)
    case _ => None
  }

  /**
   * (unemployment rate, inflation rate, GDP growth) of each academic year
   * (preprocess.py:522-533). Python matches these keys by exact float
   * equality; here they are the decimal literals as reals.
   */
  const EconToYear: map<(real, real, real), int> := map[
    (10.8, 1.4, 1.74) := 2010,
    (13.9, -0.3, 0.79) := 2011,
    (9.4, -0.8, -3.12) := 2012,
    (16.2, 0.3, -0.92) := 2013,
    (15.5, 2.8, -4.06) := 2014,
    (8.9, 1.4, 3.51) := 2015,
    (12.7, 3.7, -1.70) := 2016,
    (11.1, 0.6, 2.02) := 2017,
    (7.6, 2.6, 0.32) := 2018,
    (12.4, 0.5, 1.79) := 2019
  ]

  /** Outcome label to class code (preprocess.py:536-540). */
  const TargetMap: map<string, int> := map["Dropout" := 0, "Enrolled" := 1, "Graduate" := 2]

  /** Class code back to outcome label, built by inverting TargetMap (preprocess.py:541). */
  const TargetMapReverse: map<int, string> :=
    map code | code in TargetMap.Values :: var outcome :| outcome in TargetMap && TargetMap[outcome] == code; outcome

  /** A code has a qualification tier exactly when the combined qualification table lists it. */
  lemma QualificationCodesBucketed(code: int)
    ensures QualificationOrdinal(code).Some? <==> code in CombineQualification
  {
    if code in CombineQualification {
      CombinedQualificationsBucketed(code);
    }
  }

  lemma CombinedQualificationsBucketed(code: int)
    requires code in CombineQualification
    ensures QualificationOrdinal(code).Some?
  {
  }

  /** A code has an income tier exactly when the combined occupation table lists it. */
  lemma OccupationCodesBucketed(code: int)
    ensures OccupationOrdinal(code).Some? <==> code in CombineOccupation
  {
    if code in CombineOccupation {
      if code in CombineOccupationLower {
        LowerOccupationsBucketed(code);
      } else {
        UpperOccupationsBucketed(code);
      }
    }
  }

  lemma LowerOccupationsBucketed(code: int)
    requires code in CombineOccupationLower
    ensures OccupationOrdinal(code).Some?
  {
  }

  lemma UpperOccupationsBucketed(code: int)
    requires code in CombineOccupationUpper
    ensures OccupationOrdinal(code).Some?
  {
  }

  /** Every tier the two bucketings hand out has a name. */
  lemma TiersNamed(code: int)
    ensures QualificationOrdinal(code).Some? ==> QualificationOrdinal(code).value in QualificationOrdinalName
    ensures OccupationOrdinal(code).Some? ==> OccupationOrdinal(code).value in OccupationOrdinalName
  {
  }

  /** The mother's and father's qualification codes are codes of the combined table. */
  lemma ParentQualificationCodesCombined()
    ensures MotherQualificationLabels.Keys <= CombineQualification.Keys
    ensures FatherQualificationLabels.Keys <= CombineQualification.Keys
  {
  }

  /**
   * The previous-qualification codes are codes of the combined table (its
   * labels are capitalised differently).
   */
  lemma PreviousQualificationCodesCombined()
    ensures PreviousQualificationLabels.Keys <= CombineQualification.Keys
  {
  }

  /** The mother's and father's occupation codes are codes of the combined table. */
  lemma ParentOccupationCodesCombined()
    ensures MotherOccupationLabels.Keys <= CombineOccupation.Keys
    ensures FatherOccupationLabels.Keys <= CombineOccupation.Keys
  {
    MotherOccupationCodesCombined();
    FatherOccupationCodesCombined();
  }

  lemma MotherOccupationCodesCombined()
    ensures MotherOccupationLabels.Keys <= CombineOccupation.Keys
  {
  }

  lemma FatherOccupationCodesCombined()
    ensures FatherOccupationLabels.Keys <= CombineOccupation.Keys
  {
  }

  /** A code listed for any qualification or occupation field never misses its tier lookup. */
  lemma ListedCodesHaveTiers(code: int)
    ensures code in PreviousQualificationLabels ==> QualificationOrdinal(code).Some?
    ensures code in MotherQualificationLabels ==> QualificationOrdinal(code).Some?
    ensures code in FatherQualificationLabels ==> QualificationOrdinal(code).Some?
    ensures code in MotherOccupationLabels ==> OccupationOrdinal(code).Some?
    ensures code in FatherOccupationLabels ==> OccupationOrdinal(code).Some?
  {
    QualificationCodesBucketed(code);
    OccupationCodesBucketed(code);
    ParentQualificationCodesCombined();
    PreviousQualificationCodesCombined();
    ParentOccupationCodesCombined();
  }

  /** The ten epochs are told apart by their indicators and name the years 2010 to 2019, one each. */
  lemma EconEpochs()
    ensures forall year :: year in EconToYear.Values <==> 2010 <= year <= 2019
    ensures forall a, b :: a in EconToYear && b in EconToYear && a != b ==> EconToYear[a] != EconToYear[b]
  {
    assert EconToYear[(10.8, 1.4, 1.74)] == 2010 && EconToYear[(13.9, -0.3, 0.79)] == 2011;
    assert EconToYear[(9.4, -0.8, -3.12)] == 2012 && EconToYear[(16.2, 0.3, -0.92)] == 2013;
    assert EconToYear[(15.5, 2.8, -4.06)] == 2014 && EconToYear[(8.9, 1.4, 3.51)] == 2015;
    assert EconToYear[(12.7, 3.7, -1.70)] == 2016 && EconToYear[(11.1, 0.6, 2.02)] == 2017;
    assert EconToYear[(7.6, 2.6, 0.32)] == 2018 && EconToYear[(12.4, 0.5, 1.79)] == 2019;
  }

  /** TargetMapReverse and TargetMap are inverse bijections between the three outcomes and 0, 1, 2. */
  lemma TargetRoundTrip()
    ensures TargetMap.Keys == {"Dropout", "Enrolled", "Graduate"}
    ensures TargetMapReverse.Keys == {0, 1, 2}
    ensures forall outcome :: outcome in TargetMap ==> TargetMapReverse[TargetMap[outcome]] == outcome
    ensures forall code :: code in TargetMapReverse ==> TargetMap[TargetMapReverse[code]] == code
  {
    assert TargetMap["Dropout"] == 0 && TargetMap["Enrolled"] == 1 && TargetMap["Graduate"] == 2;
  }
}
