/** annPreProc (preprocess.py:701-840) on the renamed input, step after
    step: each method runs the steps up to and including one section of the
    source, and states the stage it reaches as the columns dropped, scaled
    and derived so far and the indicator columns of the nominal columns
    encoded so far. */
module AnnRun {
  import opened Wrappers
  import opened Cells
  import opened Columns
  import opened Frames
  import opened Scaling
  import opened AnnScaling
  import opened AnnAlgebra
  import opened AnnStages
  import opened Labels
  import opened Derivation
  import opened AnnSpec
  import opened AnnPipeline

  /** The columns annPreProc reads. */
  const AnnInputs: set<Col> := {
    MaritalStatus, ApplicationMode, ApplicationOrder, Course, DaytimeEveningAttendance, PreviousQualification,
    Nationality, MotherQualification, FatherQualification, MotherOccupation, FatherOccupation, Gender, ScholarshipHolder
  } + CurricularInputs + EconInputs

  /** The input columns annPreProc does arithmetic on or scales. */
  const NumericInputs: set<Col> := {
    ApplicationOrder, PreviousQualificationGrade, AdmissionGrade, AgeAtEnrollment
  } + CurricularInputs + EconInputs

  /** AnnReady, in the form the steps below consume it. */
  predicate Readable(v: Frame) {
    v.Valid() && AnnInputs <= v.data.Keys &&
    (forall c :: c in NumericInputs && c in v.data ==> NumericColumn(v.data[c])) &&
    (v.n > 1 ==> Target in v.data)
  }

  lemma ReadableOrder(v: Frame)
    requires Readable(v)
    ensures HasOrder(v)
  {
    assert ApplicationOrder in AnnInputs && ApplicationOrder in NumericInputs;
  }

  lemma ReadableFeatures(v: Frame)
    requires Readable(v)
    ensures FeatureReady(v)
  {
    ReadableOrder(v);
    assert QualificationInputs <= AnnInputs && OccupationInputs <= AnnInputs;
  }

  /** The columns `#curricularUnits` adds. */
  lemma CurricularLabels()
    ensures RateLabels + ActivityLabels == {
      ApprovedRate1stSem, ApprovedRate2ndSem, PerformanceIndex1stSem, PerformanceIndex2ndSem,
      CreditLoadReduction1stSem, CreditLoadReduction2ndSem, EvalRate1stSem, EvalRate2ndSem, NoAcademicActivity
    }
  {
  }

  lemma MaritalStatusUnused(d: set<Col>, x: set<Col>, a: map<Col, seq<Cell>>)
    requires d == {} && x == {} && a.Keys == {}
    ensures MaritalStatus == NominalAt(0)
    ensures MaritalStatus !in d
    ensures MaritalStatus !in a
    ensures d + {MaritalStatus} == {MaritalStatus}
  {
  }

  /** What `#maritalStatus` needs of the stage before it. */
  lemma MaritalStatusFresh(v: Frame, d: set<Col>, x: set<Col>, a: map<Col, seq<Cell>>)
    requires Readable(v)
    requires d == {} && x == {} && a.Keys == {}
    ensures MaritalStatus in v.data
    ensures MaritalStatus == NominalAt(0)
    ensures MaritalStatus !in d
    ensures MaritalStatus !in a
    ensures d + {MaritalStatus} == {MaritalStatus}
  {
    ReadableFeatures(v);
    MaritalStatusUnused(d, x, a);
  }

  /** annPreProc up to and including `#maritalStatus` (preprocess.py:705). */
  method ThroughMaritalStatus(v: Frame, store: ScalerStore) returns (g: Frame, ghost d: set<Col>, ghost x: set<Col>, ghost a: map<Col, seq<Cell>>)
    requires Readable(v)
    ensures AtStage(g, v, store.scalers, store.scalers, d, x, a, OneHot(v, 1))
    ensures d == {MaritalStatus} && x == {} && a == map[] && a.Keys == {}
  {
    d, x, a := {}, {}, map[];
    StageStart(v, store.scalers);
    assert OneHot(v, 0) == map[];
    MaritalStatusFresh(v, d, x, a);
    g := DummiesStep(v, MaritalStatus, 0, 1, v, store.scalers, store.scalers, d, x, a);
    d := d + {MaritalStatus};
  }

  lemma ApplicationModeUnused(d: set<Col>, x: set<Col>, a: map<Col, seq<Cell>>)
    requires d == {MaritalStatus} && x == {} && a.Keys == {}
    ensures ApplicationMode == NominalAt(1)
    ensures ApplicationMode !in d
    ensures ApplicationMode !in a
    ensures d + {ApplicationMode} == {MaritalStatus, ApplicationMode}
  {
  }

  /** What `#applicationMode` needs of the stage before it. */
  lemma ApplicationModeFresh(v: Frame, d: set<Col>, x: set<Col>, a: map<Col, seq<Cell>>)
    requires Readable(v)
    requires d == {MaritalStatus} && x == {} && a.Keys == {}
    ensures ApplicationMode in v.data
    ensures ApplicationMode == NominalAt(1)
    ensures ApplicationMode !in d
    ensures ApplicationMode !in a
    ensures d + {ApplicationMode} == {MaritalStatus, ApplicationMode}
  {
    ReadableFeatures(v);
    ApplicationModeUnused(d, x, a);
  }

  /** annPreProc up to and including `#applicationMode` (preprocess.py:708). */
  method ThroughApplicationMode(v: Frame, store: ScalerStore) returns (g: Frame, ghost d: set<Col>, ghost x: set<Col>, ghost a: map<Col, seq<Cell>>)
    requires Readable(v)
    ensures AtStage(g, v, store.scalers, store.scalers, d, x, a, OneHot(v, 2))
    ensures d == {MaritalStatus, ApplicationMode} && x == {} && a == map[] && a.Keys == {}
  {
    g, d, x, a := ThroughMaritalStatus(v, store);
    ApplicationModeFresh(v, d, x, a);
    g := DummiesStep(g, ApplicationMode, 1, 2, v, store.scalers, store.scalers, d, x, a);
    d := d + {ApplicationMode};
  }

  lemma ApplicationOrderUnused(d: set<Col>, x: set<Col>, a: map<Col, seq<Cell>>)
    requires d == {MaritalStatus, ApplicationMode} && x == {} && a.Keys == {}
    ensures ApplicationOrder !in d
    ensures ApplicationOrder !in x
    ensures ApplicationOrder !in a
    ensures d + {ApplicationOrder} == {MaritalStatus, ApplicationMode, ApplicationOrder}
  {
  }

  lemma ApplicationOrderKeysNext(a: map<Col, seq<Cell>>, b: map<Col, seq<Cell>>)
    requires a.Keys == {} && b.Keys == {ApplicationOrderShifted}
    ensures (a + b).Keys == {ApplicationOrderShifted}
  {
  }

  /** What `#applicationOrder` needs of the stage before it. */
  lemma ApplicationOrderFresh(v: Frame, d: set<Col>, x: set<Col>, a: map<Col, seq<Cell>>)
    requires Readable(v)
    requires d == {MaritalStatus, ApplicationMode} && x == {} && a.Keys == {}
    ensures HasOrder(v)
    ensures ApplicationOrder !in d
    ensures ApplicationOrder !in x
    ensures ApplicationOrder !in a
    ensures d + {ApplicationOrder} == {MaritalStatus, ApplicationMode, ApplicationOrder}
    ensures (a + OrderFeature(v)).Keys == {ApplicationOrderShifted}
  {
    ReadableFeatures(v);
    ApplicationOrderUnused(d, x, a);
    ApplicationOrderKeysNext(a, OrderFeature(v));
  }

  /** annPreProc up to and including `#applicationOrder` (preprocess.py:711-713). */
  method ThroughApplicationOrder(v: Frame, store: ScalerStore) returns (g: Frame, ok: bool, ghost d: set<Col>, ghost x: set<Col>, ghost a: map<Col, seq<Cell>>)
    requires Readable(v)
    modifies store
    ensures ok <==> v.n >= 1
    ensures ok ==> AtStage(g, v, old(store.scalers), store.scalers, d, x, a, OneHot(v, 2))
    ensures ok ==> (d == {MaritalStatus, ApplicationMode, ApplicationOrder} && x == {} && a == map[] + OrderFeature(v)
      && a.Keys == {ApplicationOrderShifted})
    ensures v.n <= 1 ==> store.scalers == old(store.scalers)
  {
    g, d, x, a := ThroughApplicationMode(v, store);
    ApplicationOrderFresh(v, d, x, a);
    g, ok := StageOrder(g, v, store.scalers, store, d, x, a, OneHot(v, 2));
    d, a := d + {ApplicationOrder}, a + OrderFeature(v);
  }

  lemma CourseUnused(d: set<Col>, x: set<Col>, a: map<Col, seq<Cell>>)
    requires d == {MaritalStatus, ApplicationMode, ApplicationOrder} && x == {} && a.Keys == {ApplicationOrderShifted}
    ensures Course == NominalAt(2)
    ensures Course !in d
    ensures Course !in a
    ensures d + {Course} == {MaritalStatus, ApplicationMode, ApplicationOrder, Course}
  {
  }

  /** What `#course` needs of the stage before it. */
  lemma CourseFresh(v: Frame, d: set<Col>, x: set<Col>, a: map<Col, seq<Cell>>)
    requires Readable(v)
    requires d == {MaritalStatus, ApplicationMode, ApplicationOrder} && x == {} && a.Keys == {ApplicationOrderShifted}
    ensures Course in v.data
    ensures Course == NominalAt(2)
    ensures Course !in d
    ensures Course !in a
    ensures d + {Course} == {MaritalStatus, ApplicationMode, ApplicationOrder, Course}
  {
    ReadableFeatures(v);
    CourseUnused(d, x, a);
  }

  /** annPreProc up to and including `#course` (preprocess.py:716). */
  method ThroughCourse(v: Frame, store: ScalerStore) returns (g: Frame, ok: bool, ghost d: set<Col>, ghost x: set<Col>, ghost a: map<Col, seq<Cell>>)
    requires Readable(v)
    modifies store
    ensures ok <==> v.n >= 1
    ensures ok ==> AtStage(g, v, old(store.scalers), store.scalers, d, x, a, OneHot(v, 3))
    ensures ok ==> (d == {MaritalStatus, ApplicationMode, ApplicationOrder, Course} && x == {} && a == map[] +
      OrderFeature(v) && a.Keys == {ApplicationOrderShifted})
    ensures v.n <= 1 ==> store.scalers == old(store.scalers)
  {
    ghost var stored := store.scalers;
    g, ok, d, x, a := ThroughApplicationOrder(v, store);
    if !ok {
      return;
    }
    CourseFresh(v, d, x, a);
    g := DummiesStep(g, Course, 2, 3, v, stored, store.scalers, d, x, a);
    d := d + {Course};
  }

  lemma DaytimeEveningAttendanceUnused(d: set<Col>, x: set<Col>, a: map<Col, seq<Cell>>)
    requires d == {MaritalStatus, ApplicationMode, ApplicationOrder, Course} && x == {} && a.Keys ==
      {ApplicationOrderShifted}
    ensures DaytimeEveningAttendance == NominalAt(3)
    ensures DaytimeEveningAttendance !in d
    ensures DaytimeEveningAttendance !in a
    ensures d + {DaytimeEveningAttendance} == {MaritalStatus, ApplicationMode, ApplicationOrder, Course,
      DaytimeEveningAttendance}
  {
  }

  /** What `#daytimeEveningAttendance` needs of the stage before it. */
  lemma DaytimeEveningAttendanceFresh(v: Frame, d: set<Col>, x: set<Col>, a: map<Col, seq<Cell>>)
    requires Readable(v)
    requires d == {MaritalStatus, ApplicationMode, ApplicationOrder, Course} && x == {} && a.Keys ==
      {ApplicationOrderShifted}
    ensures DaytimeEveningAttendance in v.data
    ensures DaytimeEveningAttendance == NominalAt(3)
    ensures DaytimeEveningAttendance !in d
    ensures DaytimeEveningAttendance !in a
    ensures d + {DaytimeEveningAttendance} == {MaritalStatus, ApplicationMode, ApplicationOrder, Course,
      DaytimeEveningAttendance}
  {
    ReadableFeatures(v);
    DaytimeEveningAttendanceUnused(d, x, a);
  }

  /** annPreProc up to and including `#daytimeEveningAttendance` (preprocess.py:719). */
  method ThroughDaytimeEveningAttendance(v: Frame, store: ScalerStore) returns (g: Frame, ok: bool, ghost d: set<Col>, ghost x: set<Col>, ghost a: map<Col, seq<Cell>>)
    requires Readable(v)
    modifies store
    ensures ok <==> v.n >= 1
    ensures ok ==> AtStage(g, v, old(store.scalers), store.scalers, d, x, a, OneHot(v, 4))
    ensures ok ==> (d == {MaritalStatus, ApplicationMode, ApplicationOrder, Course, DaytimeEveningAttendance} && x ==
      {} && a == map[] + OrderFeature(v) && a.Keys == {ApplicationOrderShifted})
    ensures v.n <= 1 ==> store.scalers == old(store.scalers)
  {
    ghost var stored := store.scalers;
    g, ok, d, x, a := ThroughCourse(v, store);
    if !ok {
      return;
    }
    DaytimeEveningAttendanceFresh(v, d, x, a);
    g := DummiesStep(g, DaytimeEveningAttendance, 3, 4, v, stored, store.scalers, d, x, a);
    d := d + {DaytimeEveningAttendance};
  }

  lemma PreviousQualificationUnused(d: set<Col>, x: set<Col>, a: map<Col, seq<Cell>>)
    requires d == {MaritalStatus, ApplicationMode, ApplicationOrder, Course, DaytimeEveningAttendance} && x == {} &&
      a.Keys == {ApplicationOrderShifted}
    ensures PreviousQualification !in d
    ensures PreviousQualification !in x
    ensures PreviousQualification !in a
    ensures d + {PreviousQualification} == {MaritalStatus, ApplicationMode, ApplicationOrder, Course,
      DaytimeEveningAttendance, PreviousQualification}
  {
  }

  lemma PreviousQualificationKeysNext(a: map<Col, seq<Cell>>, b: map<Col, seq<Cell>>)
    requires a.Keys == {ApplicationOrderShifted} && b.Keys == {PreviousQualificationOrdinal}
    ensures (a + b).Keys == {ApplicationOrderShifted, PreviousQualificationOrdinal}
  {
  }

  /** What `#previousQualification` needs of the stage before it. */
  lemma PreviousQualificationFresh(v: Frame, d: set<Col>, x: set<Col>, a: map<Col, seq<Cell>>)
    requires Readable(v)
    requires d == {MaritalStatus, ApplicationMode, ApplicationOrder, Course, DaytimeEveningAttendance} && x == {} &&
      a.Keys == {ApplicationOrderShifted}
    ensures HasQualificationInputs(v)
    ensures PreviousQualification !in d
    ensures PreviousQualification !in x
    ensures PreviousQualification !in a
    ensures d + {PreviousQualification} == {MaritalStatus, ApplicationMode, ApplicationOrder, Course,
      DaytimeEveningAttendance, PreviousQualification}
    ensures (a + PreviousQualificationFeature(v)).Keys == {ApplicationOrderShifted, PreviousQualificationOrdinal}
  {
    ReadableFeatures(v);
    PreviousQualificationUnused(d, x, a);
    PreviousQualificationKeysNext(a, PreviousQualificationFeature(v));
  }

  /** annPreProc up to and including `#previousQualification` (preprocess.py:722-724). */
  method ThroughPreviousQualification(v: Frame, store: ScalerStore) returns (g: Frame, ok: bool, ghost d: set<Col>, ghost x: set<Col>, ghost a: map<Col, seq<Cell>>)
    requires Readable(v)
    modifies store
    ensures ok <==> v.n >= 1
    ensures ok ==> AtStage(g, v, old(store.scalers), store.scalers, d, x, a, OneHot(v, 4))
    ensures ok ==> (d == {MaritalStatus, ApplicationMode, ApplicationOrder, Course, DaytimeEveningAttendance,
      PreviousQualification} && x == {} && a == map[] + OrderFeature(v) + PreviousQualificationFeature(v) && a.Keys ==
      {ApplicationOrderShifted, PreviousQualificationOrdinal})
    ensures v.n <= 1 ==> store.scalers == old(store.scalers)
  {
    ghost var stored := store.scalers;
    g, ok, d, x, a := ThroughDaytimeEveningAttendance(v, store);
    if !ok {
      return;
    }
    PreviousQualificationFresh(v, d, x, a);
    g := StagePreviousQualification(g, v, stored, store, d, x, a, OneHot(v, 4));
    d, a := d + {PreviousQualification}, a + PreviousQualificationFeature(v);
  }

  lemma PreviousQualificationGradeUnused(d: set<Col>, x: set<Col>, a: map<Col, seq<Cell>>)
    requires d == {MaritalStatus, ApplicationMode, ApplicationOrder, Course, DaytimeEveningAttendance,
      PreviousQualification} && x == {} && a.Keys == {ApplicationOrderShifted, PreviousQualificationOrdinal}
    ensures Scaled(PreviousQualificationGrade)
    ensures PreviousQualificationGrade !in d
    ensures PreviousQualificationGrade !in x
    ensures PreviousQualificationGrade !in a
    ensures x + {PreviousQualificationGrade} == {PreviousQualificationGrade}
  {
  }

  /** What `#previousQualificationGrade` needs of the stage before it. */
  lemma PreviousQualificationGradeFresh(v: Frame, d: set<Col>, x: set<Col>, a: map<Col, seq<Cell>>)
    requires Readable(v)
    requires d == {MaritalStatus, ApplicationMode, ApplicationOrder, Course, DaytimeEveningAttendance,
      PreviousQualification} && x == {} && a.Keys == {ApplicationOrderShifted, PreviousQualificationOrdinal}
    ensures PreviousQualificationGrade in v.data ==> NumericColumn(v.data[PreviousQualificationGrade])
    ensures Scaled(PreviousQualificationGrade)
    ensures PreviousQualificationGrade !in d
    ensures PreviousQualificationGrade !in x
    ensures PreviousQualificationGrade !in a
    ensures x + {PreviousQualificationGrade} == {PreviousQualificationGrade}
  {
    ReadableFeatures(v);
    PreviousQualificationGradeUnused(d, x, a);
  }

  /** annPreProc up to and including `#previousQualificationGrade` (preprocess.py:727). */
  method ThroughPreviousQualificationGrade(v: Frame, store: ScalerStore) returns (g: Frame, ok: bool, ghost d: set<Col>, ghost x: set<Col>, ghost a: map<Col, seq<Cell>>)
    requires Readable(v)
    modifies store
    ensures ok <==> v.n == 1 || (v.n > 1 && PreviousQualificationGrade in v.data)
    ensures ok ==> AtStage(g, v, old(store.scalers), store.scalers, d, x, a, OneHot(v, 4))
    ensures ok ==> (d == {MaritalStatus, ApplicationMode, ApplicationOrder, Course, DaytimeEveningAttendance,
      PreviousQualification} && x == {PreviousQualificationGrade} && a == map[] + OrderFeature(v) +
      PreviousQualificationFeature(v) && a.Keys == {ApplicationOrderShifted, PreviousQualificationOrdinal})
    ensures v.n <= 1 ==> store.scalers == old(store.scalers)
  {
    ghost var stored := store.scalers;
    g, ok, d, x, a := ThroughPreviousQualification(v, store);
    if !ok {
      return;
    }
    PreviousQualificationGradeFresh(v, d, x, a);
    g, ok := ScaleInputStep(g, PreviousQualificationGrade, v, stored, store, d, x, a, OneHot(v, 4));
    x := x + {PreviousQualificationGrade};
  }

  lemma NationalityUnused(d: set<Col>, x: set<Col>, a: map<Col, seq<Cell>>)
    requires d == {MaritalStatus, ApplicationMode, ApplicationOrder, Course, DaytimeEveningAttendance,
      PreviousQualification} && x == {PreviousQualificationGrade} && a.Keys == {ApplicationOrderShifted,
      PreviousQualificationOrdinal}
    ensures Nationality == NominalAt(4)
    ensures Nationality !in d
    ensures Nationality !in a
    ensures d + {Nationality} == {MaritalStatus, ApplicationMode, ApplicationOrder, Course, DaytimeEveningAttendance,
      PreviousQualification, Nationality}
  {
  }

  /** What `#nationality` needs of the stage before it. */
  lemma NationalityFresh(v: Frame, d: set<Col>, x: set<Col>, a: map<Col, seq<Cell>>)
    requires Readable(v)
    requires d == {MaritalStatus, ApplicationMode, ApplicationOrder, Course, DaytimeEveningAttendance,
      PreviousQualification} && x == {PreviousQualificationGrade} && a.Keys == {ApplicationOrderShifted,
      PreviousQualificationOrdinal}
    ensures Nationality in v.data
    ensures Nationality == NominalAt(4)
    ensures Nationality !in d
    ensures Nationality !in a
    ensures d + {Nationality} == {MaritalStatus, ApplicationMode, ApplicationOrder, Course, DaytimeEveningAttendance,
      PreviousQualification, Nationality}
  {
    ReadableFeatures(v);
    NationalityUnused(d, x, a);
  }

  /** annPreProc up to and including `#nationality` (preprocess.py:730). */
  method ThroughNationality(v: Frame, store: ScalerStore) returns (g: Frame, ok: bool, ghost d: set<Col>, ghost x: set<Col>, ghost a: map<Col, seq<Cell>>)
    requires Readable(v)
    modifies store
    ensures ok <==> v.n == 1 || (v.n > 1 && PreviousQualificationGrade in v.data)
    ensures ok ==> AtStage(g, v, old(store.scalers), store.scalers, d, x, a, OneHot(v, 5))
    ensures ok ==> (d == {MaritalStatus, ApplicationMode, ApplicationOrder, Course, DaytimeEveningAttendance,
      PreviousQualification, Nationality} && x == {PreviousQualificationGrade} && a == map[] + OrderFeature(v) +
      PreviousQualificationFeature(v) && a.Keys == {ApplicationOrderShifted, PreviousQualificationOrdinal})
    ensures v.n <= 1 ==> store.scalers == old(store.scalers)
  {
    ghost var stored := store.scalers;
    g, ok, d, x, a := ThroughPreviousQualificationGrade(v, store);
    if !ok {
      return;
    }
    NationalityFresh(v, d, x, a);
    g := DummiesStep(g, Nationality, 4, 5, v, stored, store.scalers, d, x, a);
    d := d + {Nationality};
  }

  lemma ParentQualificationsUnused(d: set<Col>, x: set<Col>, a: map<Col, seq<Cell>>)
    requires d == {MaritalStatus, ApplicationMode, ApplicationOrder, Course, DaytimeEveningAttendance,
      PreviousQualification, Nationality} && x == {PreviousQualificationGrade} && a.Keys == {ApplicationOrderShifted,
      PreviousQualificationOrdinal}
    ensures MotherQualification !in d
    ensures MotherQualification !in x
    ensures MotherQualification !in a
    ensures FatherQualification !in d
    ensures FatherQualification !in x
    ensures FatherQualification !in a
    ensures d + {MotherQualification, FatherQualification} == {MaritalStatus, ApplicationMode, ApplicationOrder,
      Course, DaytimeEveningAttendance, PreviousQualification, Nationality, MotherQualification, FatherQualification}
  {
  }

  lemma ParentQualificationsKeysNext(a: map<Col, seq<Cell>>, b: map<Col, seq<Cell>>)
    requires a.Keys == {ApplicationOrderShifted, PreviousQualificationOrdinal} && b.Keys ==
      {MotherQualificationOrdinal, FatherQualificationOrdinal, AvgParentalEducation, ParentalEduDisparity}
    ensures (a + b).Keys == {ApplicationOrderShifted, PreviousQualificationOrdinal, MotherQualificationOrdinal,
      FatherQualificationOrdinal, AvgParentalEducation, ParentalEduDisparity}
  {
  }

  /** What `#parent qualification` needs of the stage before it. */
  lemma ParentQualificationsFresh(v: Frame, d: set<Col>, x: set<Col>, a: map<Col, seq<Cell>>)
    requires Readable(v)
    requires d == {MaritalStatus, ApplicationMode, ApplicationOrder, Course, DaytimeEveningAttendance,
      PreviousQualification, Nationality} && x == {PreviousQualificationGrade} && a.Keys == {ApplicationOrderShifted,
      PreviousQualificationOrdinal}
    ensures HasQualificationInputs(v)
    ensures MotherQualification !in d
    ensures MotherQualification !in x
    ensures MotherQualification !in a
    ensures FatherQualification !in d
    ensures FatherQualification !in x
    ensures FatherQualification !in a
    ensures d + {MotherQualification, FatherQualification} == {MaritalStatus, ApplicationMode, ApplicationOrder,
      Course, DaytimeEveningAttendance, PreviousQualification, Nationality, MotherQualification, FatherQualification}
    ensures (a + ParentQualificationFeatures(v)).Keys == {ApplicationOrderShifted, PreviousQualificationOrdinal,
      MotherQualificationOrdinal, FatherQualificationOrdinal, AvgParentalEducation, ParentalEduDisparity}
  {
    ReadableFeatures(v);
    ParentQualificationsUnused(d, x, a);
    ParentQualificationsKeysNext(a, ParentQualificationFeatures(v));
  }

  /** annPreProc up to and including `#parent qualification` (preprocess.py:733-742). */
  method ThroughParentQualifications(v: Frame, store: ScalerStore) returns (g: Frame, ok: bool, ghost d: set<Col>, ghost x: set<Col>, ghost a: map<Col, seq<Cell>>)
    requires Readable(v)
    modifies store
    ensures ok <==> v.n == 1 || (v.n > 1 && PreviousQualificationGrade in v.data)
    ensures ok ==> AtStage(g, v, old(store.scalers), store.scalers, d, x, a, OneHot(v, 5))
    ensures ok ==> (d == {MaritalStatus, ApplicationMode, ApplicationOrder, Course, DaytimeEveningAttendance,
      PreviousQualification, Nationality, MotherQualification, FatherQualification} && x ==
      {PreviousQualificationGrade} && a == map[] + OrderFeature(v) + PreviousQualificationFeature(v) +
      ParentQualificationFeatures(v) && a.Keys == {ApplicationOrderShifted, PreviousQualificationOrdinal,
      MotherQualificationOrdinal, FatherQualificationOrdinal, AvgParentalEducation, ParentalEduDisparity})
    ensures v.n <= 1 ==> store.scalers == old(store.scalers)
  {
    ghost var stored := store.scalers;
    g, ok, d, x, a := ThroughNationality(v, store);
    if !ok {
      return;
    }
    ParentQualificationsFresh(v, d, x, a);
    g := StageParentQualifications(g, v, stored, store, d, x, a, OneHot(v, 5));
    d, a := d + {MotherQualification, FatherQualification}, a + ParentQualificationFeatures(v);
  }

  lemma ParentOccupationsUnused(d: set<Col>, x: set<Col>, a: map<Col, seq<Cell>>)
    requires d == {MaritalStatus, ApplicationMode, ApplicationOrder, Course, DaytimeEveningAttendance,
      PreviousQualification, Nationality, MotherQualification, FatherQualification} && x ==
      {PreviousQualificationGrade} && a.Keys == {ApplicationOrderShifted, PreviousQualificationOrdinal,
      MotherQualificationOrdinal, FatherQualificationOrdinal, AvgParentalEducation, ParentalEduDisparity}
    ensures MotherOccupation !in d
    ensures MotherOccupation !in x
    ensures MotherOccupation !in a
    ensures FatherOccupation !in d
    ensures FatherOccupation !in x
    ensures FatherOccupation !in a
    ensures d + {MotherOccupation, FatherOccupation} == {MaritalStatus, ApplicationMode, ApplicationOrder, Course,
      DaytimeEveningAttendance, PreviousQualification, Nationality, MotherQualification, FatherQualification,
      MotherOccupation, FatherOccupation}
  {
  }

  lemma ParentOccupationsKeysNext(a: map<Col, seq<Cell>>, b: map<Col, seq<Cell>>)
    requires a.Keys == {ApplicationOrderShifted, PreviousQualificationOrdinal, MotherQualificationOrdinal,
      FatherQualificationOrdinal, AvgParentalEducation, ParentalEduDisparity} && b.Keys == OccupationLabels
    ensures (a + b).Keys == {ApplicationOrderShifted, PreviousQualificationOrdinal, MotherQualificationOrdinal,
      FatherQualificationOrdinal, AvgParentalEducation, ParentalEduDisparity, MotherOccupationOrdinal,
      FatherOccupationOrdinal, AvgParentalIncome, ParentalIncomeDisparity}
  {
  }

  /** What `#parent occupation` needs of the stage before it. */
  lemma ParentOccupationsFresh(v: Frame, d: set<Col>, x: set<Col>, a: map<Col, seq<Cell>>)
    requires Readable(v)
    requires d == {MaritalStatus, ApplicationMode, ApplicationOrder, Course, DaytimeEveningAttendance,
      PreviousQualification, Nationality, MotherQualification, FatherQualification} && x ==
      {PreviousQualificationGrade} && a.Keys == {ApplicationOrderShifted, PreviousQualificationOrdinal,
      MotherQualificationOrdinal, FatherQualificationOrdinal, AvgParentalEducation, ParentalEduDisparity}
    ensures HasOccupationInputs(v)
    ensures MotherOccupation !in d
    ensures MotherOccupation !in x
    ensures MotherOccupation !in a
    ensures FatherOccupation !in d
    ensures FatherOccupation !in x
    ensures FatherOccupation !in a
    ensures d + {MotherOccupation, FatherOccupation} == {MaritalStatus, ApplicationMode, ApplicationOrder, Course,
      DaytimeEveningAttendance, PreviousQualification, Nationality, MotherQualification, FatherQualification,
      MotherOccupation, FatherOccupation}
    ensures (a + OccupationFeatures(v)).Keys == {ApplicationOrderShifted, PreviousQualificationOrdinal,
      MotherQualificationOrdinal, FatherQualificationOrdinal, AvgParentalEducation, ParentalEduDisparity,
      MotherOccupationOrdinal, FatherOccupationOrdinal, AvgParentalIncome, ParentalIncomeDisparity}
  {
    ReadableFeatures(v);
    ParentOccupationsUnused(d, x, a);
    ParentOccupationsKeysNext(a, OccupationFeatures(v));
  }

  /** annPreProc up to and including `#parent occupation` (preprocess.py:745-754). */
  method ThroughParentOccupations(v: Frame, store: ScalerStore) returns (g: Frame, ok: bool, ghost d: set<Col>, ghost x: set<Col>, ghost a: map<Col, seq<Cell>>)
    requires Readable(v)
    modifies store
    ensures ok <==> v.n == 1 || (v.n > 1 && PreviousQualificationGrade in v.data)
    ensures ok ==> AtStage(g, v, old(store.scalers), store.scalers, d, x, a, OneHot(v, 5))
    ensures ok ==> (d == {MaritalStatus, ApplicationMode, ApplicationOrder, Course, DaytimeEveningAttendance,
      PreviousQualification, Nationality, MotherQualification, FatherQualification, MotherOccupation,
      FatherOccupation} && x == {PreviousQualificationGrade} && a == map[] + OrderFeature(v) +
      PreviousQualificationFeature(v) + ParentQualificationFeatures(v) + OccupationFeatures(v) && a.Keys ==
      {ApplicationOrderShifted, PreviousQualificationOrdinal, MotherQualificationOrdinal, FatherQualificationOrdinal,
      AvgParentalEducation, ParentalEduDisparity, MotherOccupationOrdinal, FatherOccupationOrdinal, AvgParentalIncome,
      ParentalIncomeDisparity})
    ensures v.n <= 1 ==> store.scalers == old(store.scalers)
  {
    ghost var stored := store.scalers;
    g, ok, d, x, a := ThroughParentQualifications(v, store);
    if !ok {
      return;
    }
    ParentOccupationsFresh(v, d, x, a);
    g := StageOccupations(g, v, stored, store, d, x, a, OneHot(v, 5));
    d, a := d + {MotherOccupation, FatherOccupation}, a + OccupationFeatures(v);
  }

  lemma AdmissionGradeUnused(d: set<Col>, x: set<Col>, a: map<Col, seq<Cell>>)
    requires d == {MaritalStatus, ApplicationMode, ApplicationOrder, Course, DaytimeEveningAttendance,
      PreviousQualification, Nationality, MotherQualification, FatherQualification, MotherOccupation,
      FatherOccupation} && x == {PreviousQualificationGrade} && a.Keys == {ApplicationOrderShifted,
      PreviousQualificationOrdinal, MotherQualificationOrdinal, FatherQualificationOrdinal, AvgParentalEducation,
      ParentalEduDisparity, MotherOccupationOrdinal, FatherOccupationOrdinal, AvgParentalIncome,
      ParentalIncomeDisparity}
    ensures Scaled(AdmissionGrade)
    ensures AdmissionGrade !in d
    ensures AdmissionGrade !in x
    ensures AdmissionGrade !in a
    ensures x + {AdmissionGrade} == {PreviousQualificationGrade, AdmissionGrade}
  {
  }

  /** What `#admissionGrade` needs of the stage before it. */
  lemma AdmissionGradeFresh(v: Frame, d: set<Col>, x: set<Col>, a: map<Col, seq<Cell>>)
    requires Readable(v)
    requires d == {MaritalStatus, ApplicationMode, ApplicationOrder, Course, DaytimeEveningAttendance,
      PreviousQualification, Nationality, MotherQualification, FatherQualification, MotherOccupation,
      FatherOccupation} && x == {PreviousQualificationGrade} && a.Keys == {ApplicationOrderShifted,
      PreviousQualificationOrdinal, MotherQualificationOrdinal, FatherQualificationOrdinal, AvgParentalEducation,
      ParentalEduDisparity, MotherOccupationOrdinal, FatherOccupationOrdinal, AvgParentalIncome,
      ParentalIncomeDisparity}
    ensures AdmissionGrade in v.data ==> NumericColumn(v.data[AdmissionGrade])
    ensures Scaled(AdmissionGrade)
    ensures AdmissionGrade !in d
    ensures AdmissionGrade !in x
    ensures AdmissionGrade !in a
    ensures x + {AdmissionGrade} == {PreviousQualificationGrade, AdmissionGrade}
  {
    ReadableFeatures(v);
    AdmissionGradeUnused(d, x, a);
  }

  /** annPreProc up to and including `#admissionGrade` (preprocess.py:757). */
  method ThroughAdmissionGrade(v: Frame, store: ScalerStore) returns (g: Frame, ok: bool, ghost d: set<Col>, ghost x: set<Col>, ghost a: map<Col, seq<Cell>>)
    requires Readable(v)
    modifies store
    ensures ok <==> v.n == 1 || (v.n > 1 && PreviousQualificationGrade in v.data && AdmissionGrade in v.data)
    ensures ok ==> AtStage(g, v, old(store.scalers), store.scalers, d, x, a, OneHot(v, 5))
    ensures ok ==> (d == {MaritalStatus, ApplicationMode, ApplicationOrder, Course, DaytimeEveningAttendance,
      PreviousQualification, Nationality, MotherQualification, FatherQualification, MotherOccupation,
      FatherOccupation} && x == {PreviousQualificationGrade, AdmissionGrade} && a == map[] + OrderFeature(v) +
      PreviousQualificationFeature(v) + ParentQualificationFeatures(v) + OccupationFeatures(v) && a.Keys ==
      {ApplicationOrderShifted, PreviousQualificationOrdinal, MotherQualificationOrdinal, FatherQualificationOrdinal,
      AvgParentalEducation, ParentalEduDisparity, MotherOccupationOrdinal, FatherOccupationOrdinal, AvgParentalIncome,
      ParentalIncomeDisparity})
    ensures v.n <= 1 ==> store.scalers == old(store.scalers)
  {
    ghost var stored := store.scalers;
    g, ok, d, x, a := ThroughParentOccupations(v, store);
    if !ok {
      return;
    }
    AdmissionGradeFresh(v, d, x, a);
    g, ok := ScaleInputStep(g, AdmissionGrade, v, stored, store, d, x, a, OneHot(v, 5));
    x := x + {AdmissionGrade};
  }

  lemma GenderUnused(d: set<Col>, x: set<Col>, a: map<Col, seq<Cell>>)
    requires d == {MaritalStatus, ApplicationMode, ApplicationOrder, Course, DaytimeEveningAttendance,
      PreviousQualification, Nationality, MotherQualification, FatherQualification, MotherOccupation,
      FatherOccupation} && x == {PreviousQualificationGrade, AdmissionGrade} && a.Keys == {ApplicationOrderShifted,
      PreviousQualificationOrdinal, MotherQualificationOrdinal, FatherQualificationOrdinal, AvgParentalEducation,
      ParentalEduDisparity, MotherOccupationOrdinal, FatherOccupationOrdinal, AvgParentalIncome,
      ParentalIncomeDisparity}
    ensures Gender == NominalAt(5)
    ensures Gender !in d
    ensures Gender !in a
    ensures d + {Gender} == {MaritalStatus, ApplicationMode, ApplicationOrder, Course, DaytimeEveningAttendance,
      PreviousQualification, Nationality, MotherQualification, FatherQualification, MotherOccupation,
      FatherOccupation, Gender}
  {
  }

  /** What `#gender` needs of the stage before it. */
  lemma GenderFresh(v: Frame, d: set<Col>, x: set<Col>, a: map<Col, seq<Cell>>)
    requires Readable(v)
    requires d == {MaritalStatus, ApplicationMode, ApplicationOrder, Course, DaytimeEveningAttendance,
      PreviousQualification, Nationality, MotherQualification, FatherQualification, MotherOccupation,
      FatherOccupation} && x == {PreviousQualificationGrade, AdmissionGrade} && a.Keys == {ApplicationOrderShifted,
      PreviousQualificationOrdinal, MotherQualificationOrdinal, FatherQualificationOrdinal, AvgParentalEducation,
      ParentalEduDisparity, MotherOccupationOrdinal, FatherOccupationOrdinal, AvgParentalIncome,
      ParentalIncomeDisparity}
    ensures Gender in v.data
    ensures Gender == NominalAt(5)
    ensures Gender !in d
    ensures Gender !in a
    ensures d + {Gender} == {MaritalStatus, ApplicationMode, ApplicationOrder, Course, DaytimeEveningAttendance,
      PreviousQualification, Nationality, MotherQualification, FatherQualification, MotherOccupation,
      FatherOccupation, Gender}
  {
    ReadableFeatures(v);
    GenderUnused(d, x, a);
  }

  /** annPreProc up to and including `#gender` (preprocess.py:766). */
  method ThroughGender(v: Frame, store: ScalerStore) returns (g: Frame, ok: bool, ghost d: set<Col>, ghost x: set<Col>, ghost a: map<Col, seq<Cell>>)
    requires Readable(v)
    modifies store
    ensures ok <==> v.n == 1 || (v.n > 1 && PreviousQualificationGrade in v.data && AdmissionGrade in v.data)
    ensures ok ==> AtStage(g, v, old(store.scalers), store.scalers, d, x, a, OneHot(v, 6))
    ensures ok ==> (d == {MaritalStatus, ApplicationMode, ApplicationOrder, Course, DaytimeEveningAttendance,
      PreviousQualification, Nationality, MotherQualification, FatherQualification, MotherOccupation,
      FatherOccupation, Gender} && x == {PreviousQualificationGrade, AdmissionGrade} && a == map[] + OrderFeature(v) +
      PreviousQualificationFeature(v) + ParentQualificationFeatures(v) + OccupationFeatures(v) && a.Keys ==
      {ApplicationOrderShifted, PreviousQualificationOrdinal, MotherQualificationOrdinal, FatherQualificationOrdinal,
      AvgParentalEducation, ParentalEduDisparity, MotherOccupationOrdinal, FatherOccupationOrdinal, AvgParentalIncome,
      ParentalIncomeDisparity})
    ensures v.n <= 1 ==> store.scalers == old(store.scalers)
  {
    ghost var stored := store.scalers;
    g, ok, d, x, a := ThroughAdmissionGrade(v, store);
    if !ok {
      return;
    }
    GenderFresh(v, d, x, a);
    g := DummiesStep(g, Gender, 5, 6, v, stored, store.scalers, d, x, a);
    d := d + {Gender};
  }

  lemma ScholarshipHolderUnused(d: set<Col>, x: set<Col>, a: map<Col, seq<Cell>>)
    requires d == {MaritalStatus, ApplicationMode, ApplicationOrder, Course, DaytimeEveningAttendance,
      PreviousQualification, Nationality, MotherQualification, FatherQualification, MotherOccupation,
      FatherOccupation, Gender} && x == {PreviousQualificationGrade, AdmissionGrade} && a.Keys ==
      {ApplicationOrderShifted, PreviousQualificationOrdinal, MotherQualificationOrdinal, FatherQualificationOrdinal,
      AvgParentalEducation, ParentalEduDisparity, MotherOccupationOrdinal, FatherOccupationOrdinal, AvgParentalIncome,
      ParentalIncomeDisparity}
    ensures ScholarshipHolder == NominalAt(6)
    ensures ScholarshipHolder !in d
    ensures ScholarshipHolder !in a
    ensures d + {ScholarshipHolder} == {MaritalStatus, ApplicationMode, ApplicationOrder, Course,
      DaytimeEveningAttendance, PreviousQualification, Nationality, MotherQualification, FatherQualification,
      MotherOccupation, FatherOccupation, Gender, ScholarshipHolder}
  {
  }

  /** What `#scholarshipHolder` needs of the stage before it. */
  lemma ScholarshipHolderFresh(v: Frame, d: set<Col>, x: set<Col>, a: map<Col, seq<Cell>>)
    requires Readable(v)
    requires d == {MaritalStatus, ApplicationMode, ApplicationOrder, Course, DaytimeEveningAttendance,
      PreviousQualification, Nationality, MotherQualification, FatherQualification, MotherOccupation,
      FatherOccupation, Gender} && x == {PreviousQualificationGrade, AdmissionGrade} && a.Keys ==
      {ApplicationOrderShifted, PreviousQualificationOrdinal, MotherQualificationOrdinal, FatherQualificationOrdinal,
      AvgParentalEducation, ParentalEduDisparity, MotherOccupationOrdinal, FatherOccupationOrdinal, AvgParentalIncome,
      ParentalIncomeDisparity}
    ensures ScholarshipHolder in v.data
    ensures ScholarshipHolder == NominalAt(6)
    ensures ScholarshipHolder !in d
    ensures ScholarshipHolder !in a
    ensures d + {ScholarshipHolder} == {MaritalStatus, ApplicationMode, ApplicationOrder, Course,
      DaytimeEveningAttendance, PreviousQualification, Nationality, MotherQualification, FatherQualification,
      MotherOccupation, FatherOccupation, Gender, ScholarshipHolder}
  {
    ReadableFeatures(v);
    ScholarshipHolderUnused(d, x, a);
  }

  /** annPreProc up to and including `#scholarshipHolder` (preprocess.py:769). */
  method ThroughScholarshipHolder(v: Frame, store: ScalerStore) returns (g: Frame, ok: bool, ghost d: set<Col>, ghost x: set<Col>, ghost a: map<Col, seq<Cell>>)
    requires Readable(v)
    modifies store
    ensures ok <==> v.n == 1 || (v.n > 1 && PreviousQualificationGrade in v.data && AdmissionGrade in v.data)
    ensures ok ==> AtStage(g, v, old(store.scalers), store.scalers, d, x, a, OneHot(v, 7))
    ensures ok ==> (d == {MaritalStatus, ApplicationMode, ApplicationOrder, Course, DaytimeEveningAttendance,
      PreviousQualification, Nationality, MotherQualification, FatherQualification, MotherOccupation,
      FatherOccupation, Gender, ScholarshipHolder} && x == {PreviousQualificationGrade, AdmissionGrade} && a == map[]
      + OrderFeature(v) + PreviousQualificationFeature(v) + ParentQualificationFeatures(v) + OccupationFeatures(v) &&
      a.Keys == {ApplicationOrderShifted, PreviousQualificationOrdinal, MotherQualificationOrdinal,
      FatherQualificationOrdinal, AvgParentalEducation, ParentalEduDisparity, MotherOccupationOrdinal,
      FatherOccupationOrdinal, AvgParentalIncome, ParentalIncomeDisparity})
    ensures v.n <= 1 ==> store.scalers == old(store.scalers)
  {
    ghost var stored := store.scalers;
    g, ok, d, x, a := ThroughGender(v, store);
    if !ok {
      return;
    }
    ScholarshipHolderFresh(v, d, x, a);
    g := DummiesStep(g, ScholarshipHolder, 6, 7, v, stored, store.scalers, d, x, a);
    d := d + {ScholarshipHolder};
  }

  lemma AgeAtEnrollmentUnused(d: set<Col>, x: set<Col>, a: map<Col, seq<Cell>>)
    requires d == {MaritalStatus, ApplicationMode, ApplicationOrder, Course, DaytimeEveningAttendance,
      PreviousQualification, Nationality, MotherQualification, FatherQualification, MotherOccupation,
      FatherOccupation, Gender, ScholarshipHolder} && x == {PreviousQualificationGrade, AdmissionGrade} && a.Keys ==
      {ApplicationOrderShifted, PreviousQualificationOrdinal, MotherQualificationOrdinal, FatherQualificationOrdinal,
      AvgParentalEducation, ParentalEduDisparity, MotherOccupationOrdinal, FatherOccupationOrdinal, AvgParentalIncome,
      ParentalIncomeDisparity}
    ensures Scaled(AgeAtEnrollment)
    ensures AgeAtEnrollment !in d
    ensures AgeAtEnrollment !in x
    ensures AgeAtEnrollment !in a
    ensures x + {AgeAtEnrollment} == {PreviousQualificationGrade, AdmissionGrade, AgeAtEnrollment}
  {
  }

  /** What `#ageAtEnrollment` needs of the stage before it. */
  lemma AgeAtEnrollmentFresh(v: Frame, d: set<Col>, x: set<Col>, a: map<Col, seq<Cell>>)
    requires Readable(v)
    requires d == {MaritalStatus, ApplicationMode, ApplicationOrder, Course, DaytimeEveningAttendance,
      PreviousQualification, Nationality, MotherQualification, FatherQualification, MotherOccupation,
      FatherOccupation, Gender, ScholarshipHolder} && x == {PreviousQualificationGrade, AdmissionGrade} && a.Keys ==
      {ApplicationOrderShifted, PreviousQualificationOrdinal, MotherQualificationOrdinal, FatherQualificationOrdinal,
      AvgParentalEducation, ParentalEduDisparity, MotherOccupationOrdinal, FatherOccupationOrdinal, AvgParentalIncome,
      ParentalIncomeDisparity}
    ensures AgeAtEnrollment in v.data ==> NumericColumn(v.data[AgeAtEnrollment])
    ensures Scaled(AgeAtEnrollment)
    ensures AgeAtEnrollment !in d
    ensures AgeAtEnrollment !in x
    ensures AgeAtEnrollment !in a
    ensures x + {AgeAtEnrollment} == {PreviousQualificationGrade, AdmissionGrade, AgeAtEnrollment}
  {
    ReadableFeatures(v);
    AgeAtEnrollmentUnused(d, x, a);
  }

  /** annPreProc up to and including `#ageAtEnrollment` (preprocess.py:772). */
  method ThroughAgeAtEnrollment(v: Frame, store: ScalerStore) returns (g: Frame, ok: bool, ghost d: set<Col>, ghost x: set<Col>, ghost a: map<Col, seq<Cell>>)
    requires Readable(v)
    modifies store
    ensures ok <==> AnnSucceeds(v)
    ensures ok ==> AtStage(g, v, old(store.scalers), store.scalers, d, x, a, OneHot(v, 7))
    ensures ok ==> (d == {MaritalStatus, ApplicationMode, ApplicationOrder, Course, DaytimeEveningAttendance,
      PreviousQualification, Nationality, MotherQualification, FatherQualification, MotherOccupation,
      FatherOccupation, Gender, ScholarshipHolder} && x == {PreviousQualificationGrade, AdmissionGrade,
      AgeAtEnrollment} && a == map[] + OrderFeature(v) + PreviousQualificationFeature(v) +
      ParentQualificationFeatures(v) + OccupationFeatures(v) && a.Keys == {ApplicationOrderShifted,
      PreviousQualificationOrdinal, MotherQualificationOrdinal, FatherQualificationOrdinal, AvgParentalEducation,
      ParentalEduDisparity, MotherOccupationOrdinal, FatherOccupationOrdinal, AvgParentalIncome,
      ParentalIncomeDisparity})
    ensures v.n <= 1 ==> store.scalers == old(store.scalers)
  {
    ghost var stored := store.scalers;
    g, ok, d, x, a := ThroughScholarshipHolder(v, store);
    if !ok {
      return;
    }
    AgeAtEnrollmentFresh(v, d, x, a);
    g, ok := ScaleInputStep(g, AgeAtEnrollment, v, stored, store, d, x, a, OneHot(v, 7));
    x := x + {AgeAtEnrollment};
  }

  lemma CurricularUnitsNotDropped(d: set<Col>)
    requires d == {MaritalStatus, ApplicationMode, ApplicationOrder, Course, DaytimeEveningAttendance,
      PreviousQualification, Nationality, MotherQualification, FatherQualification, MotherOccupation,
      FatherOccupation, Gender, ScholarshipHolder}
    ensures CurricularInputs !! d
  {
  }

  lemma CurricularUnitsNotScaled(x: set<Col>)
    requires x == {PreviousQualificationGrade, AdmissionGrade, AgeAtEnrollment}
    ensures CurricularInputs !! x
  {
  }

  lemma CurricularUnitsNotDerived(a: map<Col, seq<Cell>>)
    requires a.Keys == {ApplicationOrderShifted, PreviousQualificationOrdinal, MotherQualificationOrdinal,
      FatherQualificationOrdinal, AvgParentalEducation, ParentalEduDisparity, MotherOccupationOrdinal,
      FatherOccupationOrdinal, AvgParentalIncome, ParentalIncomeDisparity}
    ensures CurricularInputs !! a.Keys
  {
  }

  lemma CurricularUnitsScaledSoFar(x: set<Col>)
    requires x == {PreviousQualificationGrade, AdmissionGrade, AgeAtEnrollment}
    ensures x + CurricularInputs == {PreviousQualificationGrade, AdmissionGrade, AgeAtEnrollment,
      CurricularUnits1stSemCredited, CurricularUnits1stSemEnrolled, CurricularUnits1stSemEvaluations,
      CurricularUnits1stSemApproved, CurricularUnits1stSemGrade, CurricularUnits1stSemWithoutEvaluations,
      CurricularUnits2ndSemCredited, CurricularUnits2ndSemEnrolled, CurricularUnits2ndSemEvaluations,
      CurricularUnits2ndSemApproved, CurricularUnits2ndSemGrade, CurricularUnits2ndSemWithoutEvaluations}
  {
  }

  lemma CurricularUnitsKeysNext(a: map<Col, seq<Cell>>, b: map<Col, seq<Cell>>)
    requires a.Keys == {ApplicationOrderShifted, PreviousQualificationOrdinal, MotherQualificationOrdinal,
      FatherQualificationOrdinal, AvgParentalEducation, ParentalEduDisparity, MotherOccupationOrdinal,
      FatherOccupationOrdinal, AvgParentalIncome, ParentalIncomeDisparity} && b.Keys == {ApprovedRate1stSem,
      ApprovedRate2ndSem, PerformanceIndex1stSem, PerformanceIndex2ndSem, CreditLoadReduction1stSem,
      CreditLoadReduction2ndSem, EvalRate1stSem, EvalRate2ndSem, NoAcademicActivity}
    ensures (a + b).Keys == {ApplicationOrderShifted, PreviousQualificationOrdinal, MotherQualificationOrdinal,
      FatherQualificationOrdinal, AvgParentalEducation, ParentalEduDisparity, MotherOccupationOrdinal,
      FatherOccupationOrdinal, AvgParentalIncome, ParentalIncomeDisparity, ApprovedRate1stSem, ApprovedRate2ndSem,
      PerformanceIndex1stSem, PerformanceIndex2ndSem, CreditLoadReduction1stSem, CreditLoadReduction2ndSem,
      EvalRate1stSem, EvalRate2ndSem, NoAcademicActivity}
  {
  }

  /** What `#curricularUnits` needs of the stage before it. */
  lemma CurricularUnitsFresh(v: Frame, d: set<Col>, x: set<Col>, a: map<Col, seq<Cell>>)
    requires Readable(v)
    requires d == {MaritalStatus, ApplicationMode, ApplicationOrder, Course, DaytimeEveningAttendance,
      PreviousQualification, Nationality, MotherQualification, FatherQualification, MotherOccupation,
      FatherOccupation, Gender, ScholarshipHolder} && x == {PreviousQualificationGrade, AdmissionGrade,
      AgeAtEnrollment} && a.Keys == {ApplicationOrderShifted, PreviousQualificationOrdinal,
      MotherQualificationOrdinal, FatherQualificationOrdinal, AvgParentalEducation, ParentalEduDisparity,
      MotherOccupationOrdinal, FatherOccupationOrdinal, AvgParentalIncome, ParentalIncomeDisparity}
    ensures HasCurricularInputs(v)
    ensures CurricularInputs !! d
    ensures CurricularInputs !! x
    ensures CurricularInputs !! a.Keys
    ensures x + CurricularInputs == {PreviousQualificationGrade, AdmissionGrade, AgeAtEnrollment,
      CurricularUnits1stSemCredited, CurricularUnits1stSemEnrolled, CurricularUnits1stSemEvaluations,
      CurricularUnits1stSemApproved, CurricularUnits1stSemGrade, CurricularUnits1stSemWithoutEvaluations,
      CurricularUnits2ndSemCredited, CurricularUnits2ndSemEnrolled, CurricularUnits2ndSemEvaluations,
      CurricularUnits2ndSemApproved, CurricularUnits2ndSemGrade, CurricularUnits2ndSemWithoutEvaluations}
    ensures (a + CurricularFeatures(v)).Keys == {ApplicationOrderShifted, PreviousQualificationOrdinal,
      MotherQualificationOrdinal, FatherQualificationOrdinal, AvgParentalEducation, ParentalEduDisparity,
      MotherOccupationOrdinal, FatherOccupationOrdinal, AvgParentalIncome, ParentalIncomeDisparity,
      ApprovedRate1stSem, ApprovedRate2ndSem, PerformanceIndex1stSem, PerformanceIndex2ndSem,
      CreditLoadReduction1stSem, CreditLoadReduction2ndSem, EvalRate1stSem, EvalRate2ndSem, NoAcademicActivity}
  {
    ReadableFeatures(v);
    CurricularUnitsNotDropped(d);
    CurricularUnitsNotScaled(x);
    CurricularUnitsNotDerived(a);
    CurricularUnitsScaledSoFar(x);
    CurricularLabels();
    CurricularUnitsKeysNext(a, CurricularFeatures(v));
  }

  /** annPreProc up to and including `#curricularUnits` (preprocess.py:777-813). */
  method ThroughCurricularUnits(v: Frame, store: ScalerStore) returns (g: Frame, ok: bool, ghost d: set<Col>, ghost x: set<Col>, ghost a: map<Col, seq<Cell>>)
    requires Readable(v)
    modifies store
    ensures ok <==> AnnSucceeds(v)
    ensures ok ==> AtStage(g, v, old(store.scalers), store.scalers, d, x, a, OneHot(v, 7))
    ensures ok ==> (d == {MaritalStatus, ApplicationMode, ApplicationOrder, Course, DaytimeEveningAttendance,
      PreviousQualification, Nationality, MotherQualification, FatherQualification, MotherOccupation,
      FatherOccupation, Gender, ScholarshipHolder} && x == {PreviousQualificationGrade, AdmissionGrade,
      AgeAtEnrollment, CurricularUnits1stSemCredited, CurricularUnits1stSemEnrolled, CurricularUnits1stSemEvaluations,
      CurricularUnits1stSemApproved, CurricularUnits1stSemGrade, CurricularUnits1stSemWithoutEvaluations,
      CurricularUnits2ndSemCredited, CurricularUnits2ndSemEnrolled, CurricularUnits2ndSemEvaluations,
      CurricularUnits2ndSemApproved, CurricularUnits2ndSemGrade, CurricularUnits2ndSemWithoutEvaluations} && a ==
      map[] + OrderFeature(v) + PreviousQualificationFeature(v) + ParentQualificationFeatures(v) +
      OccupationFeatures(v) + CurricularFeatures(v) && a.Keys == {ApplicationOrderShifted,
      PreviousQualificationOrdinal, MotherQualificationOrdinal, FatherQualificationOrdinal, AvgParentalEducation,
      ParentalEduDisparity, MotherOccupationOrdinal, FatherOccupationOrdinal, AvgParentalIncome,
      ParentalIncomeDisparity, ApprovedRate1stSem, ApprovedRate2ndSem, PerformanceIndex1stSem, PerformanceIndex2ndSem,
      CreditLoadReduction1stSem, CreditLoadReduction2ndSem, EvalRate1stSem, EvalRate2ndSem, NoAcademicActivity})
    ensures v.n <= 1 ==> store.scalers == old(store.scalers)
  {
    ghost var stored := store.scalers;
    g, ok, d, x, a := ThroughAgeAtEnrollment(v, store);
    if !ok {
      return;
    }
    g := CurricularUnitsLink(g, v, stored, store, d, x, a);
    x, a := x + CurricularInputs, a + CurricularFeatures(v);
  }

  /** `#curricularUnits`, from the stage before it to the next one. */
  method CurricularUnitsLink(f: Frame, v: Frame, ghost stored: map<Col, Scaler>, store: ScalerStore,
    ghost d: set<Col>, ghost x: set<Col>, ghost a: map<Col, seq<Cell>>) returns (g: Frame)
    requires Readable(v) && AnnSucceeds(v)
    requires d == {MaritalStatus, ApplicationMode, ApplicationOrder, Course, DaytimeEveningAttendance,
      PreviousQualification, Nationality, MotherQualification, FatherQualification, MotherOccupation,
      FatherOccupation, Gender, ScholarshipHolder} && x == {PreviousQualificationGrade, AdmissionGrade,
      AgeAtEnrollment} && a.Keys == {ApplicationOrderShifted, PreviousQualificationOrdinal,
      MotherQualificationOrdinal, FatherQualificationOrdinal, AvgParentalEducation, ParentalEduDisparity,
      MotherOccupationOrdinal, FatherOccupationOrdinal, AvgParentalIncome, ParentalIncomeDisparity}
    requires AtStage(f, v, stored, store.scalers, d, x, a, OneHot(v, 7))
    modifies store
    ensures AtStage(g, v, stored, store.scalers, d, x + CurricularInputs, a + CurricularFeatures(v), OneHot(v, 7))
    ensures x + CurricularInputs == {PreviousQualificationGrade, AdmissionGrade, AgeAtEnrollment,
      CurricularUnits1stSemCredited, CurricularUnits1stSemEnrolled, CurricularUnits1stSemEvaluations,
      CurricularUnits1stSemApproved, CurricularUnits1stSemGrade, CurricularUnits1stSemWithoutEvaluations,
      CurricularUnits2ndSemCredited, CurricularUnits2ndSemEnrolled, CurricularUnits2ndSemEvaluations,
      CurricularUnits2ndSemApproved, CurricularUnits2ndSemGrade, CurricularUnits2ndSemWithoutEvaluations}
    ensures (a + CurricularFeatures(v)).Keys == {ApplicationOrderShifted, PreviousQualificationOrdinal,
      MotherQualificationOrdinal, FatherQualificationOrdinal, AvgParentalEducation, ParentalEduDisparity,
      MotherOccupationOrdinal, FatherOccupationOrdinal, AvgParentalIncome, ParentalIncomeDisparity,
      ApprovedRate1stSem, ApprovedRate2ndSem, PerformanceIndex1stSem, PerformanceIndex2ndSem,
      CreditLoadReduction1stSem, CreditLoadReduction2ndSem, EvalRate1stSem, EvalRate2ndSem, NoAcademicActivity}
  {
    CurricularUnitsFresh(v, d, x, a);
    g := StageCurricular(f, v, stored, store, d, x, a, OneHot(v, 7));
  }

  lemma EconNotDropped(d: set<Col>)
    requires d == {MaritalStatus, ApplicationMode, ApplicationOrder, Course, DaytimeEveningAttendance,
      PreviousQualification, Nationality, MotherQualification, FatherQualification, MotherOccupation,
      FatherOccupation, Gender, ScholarshipHolder}
    ensures EconInputs !! d
  {
  }

  lemma EconNotScaled(x: set<Col>)
    requires x == {PreviousQualificationGrade, AdmissionGrade, AgeAtEnrollment, CurricularUnits1stSemCredited,
      CurricularUnits1stSemEnrolled, CurricularUnits1stSemEvaluations, CurricularUnits1stSemApproved,
      CurricularUnits1stSemGrade, CurricularUnits1stSemWithoutEvaluations, CurricularUnits2ndSemCredited,
      CurricularUnits2ndSemEnrolled, CurricularUnits2ndSemEvaluations, CurricularUnits2ndSemApproved,
      CurricularUnits2ndSemGrade, CurricularUnits2ndSemWithoutEvaluations}
    ensures EconInputs !! x
  {
  }

  lemma EconNotDerived(a: map<Col, seq<Cell>>)
    requires a.Keys == {ApplicationOrderShifted, PreviousQualificationOrdinal, MotherQualificationOrdinal,
      FatherQualificationOrdinal, AvgParentalEducation, ParentalEduDisparity, MotherOccupationOrdinal,
      FatherOccupationOrdinal, AvgParentalIncome, ParentalIncomeDisparity, ApprovedRate1stSem, ApprovedRate2ndSem,
      PerformanceIndex1stSem, PerformanceIndex2ndSem, CreditLoadReduction1stSem, CreditLoadReduction2ndSem,
      EvalRate1stSem, EvalRate2ndSem, NoAcademicActivity}
    ensures EconInputs !! a.Keys
  {
  }

  lemma EconScaledSoFar(x: set<Col>)
    requires x == {PreviousQualificationGrade, AdmissionGrade, AgeAtEnrollment, CurricularUnits1stSemCredited,
      CurricularUnits1stSemEnrolled, CurricularUnits1stSemEvaluations, CurricularUnits1stSemApproved,
      CurricularUnits1stSemGrade, CurricularUnits1stSemWithoutEvaluations, CurricularUnits2ndSemCredited,
      CurricularUnits2ndSemEnrolled, CurricularUnits2ndSemEvaluations, CurricularUnits2ndSemApproved,
      CurricularUnits2ndSemGrade, CurricularUnits2ndSemWithoutEvaluations}
    ensures x + EconInputs == {PreviousQualificationGrade, AdmissionGrade, AgeAtEnrollment,
      CurricularUnits1stSemCredited, CurricularUnits1stSemEnrolled, CurricularUnits1stSemEvaluations,
      CurricularUnits1stSemApproved, CurricularUnits1stSemGrade, CurricularUnits1stSemWithoutEvaluations,
      CurricularUnits2ndSemCredited, CurricularUnits2ndSemEnrolled, CurricularUnits2ndSemEvaluations,
      CurricularUnits2ndSemApproved, CurricularUnits2ndSemGrade, CurricularUnits2ndSemWithoutEvaluations,
      UnemploymentRate, InflationRate, Gdp}
  {
  }

  lemma EconKeysNext(a: map<Col, seq<Cell>>, b: map<Col, seq<Cell>>)
    requires a.Keys == {ApplicationOrderShifted, PreviousQualificationOrdinal, MotherQualificationOrdinal,
      FatherQualificationOrdinal, AvgParentalEducation, ParentalEduDisparity, MotherOccupationOrdinal,
      FatherOccupationOrdinal, AvgParentalIncome, ParentalIncomeDisparity, ApprovedRate1stSem, ApprovedRate2ndSem,
      PerformanceIndex1stSem, PerformanceIndex2ndSem, CreditLoadReduction1stSem, CreditLoadReduction2ndSem,
      EvalRate1stSem, EvalRate2ndSem, NoAcademicActivity} && b.Keys == EconLabels
    ensures (a + b).Keys == {ApplicationOrderShifted, PreviousQualificationOrdinal, MotherQualificationOrdinal,
      FatherQualificationOrdinal, AvgParentalEducation, ParentalEduDisparity, MotherOccupationOrdinal,
      FatherOccupationOrdinal, AvgParentalIncome, ParentalIncomeDisparity, ApprovedRate1stSem, ApprovedRate2ndSem,
      PerformanceIndex1stSem, PerformanceIndex2ndSem, CreditLoadReduction1stSem, CreditLoadReduction2ndSem,
      EvalRate1stSem, EvalRate2ndSem, NoAcademicActivity, EconomicStressIndex, IsEconomyGood, Year}
  {
  }

  /** What `#econ`, `#year` and the three economic inputs needs of the stage before it. */
  lemma EconFresh(v: Frame, d: set<Col>, x: set<Col>, a: map<Col, seq<Cell>>)
    requires Readable(v)
    requires d == {MaritalStatus, ApplicationMode, ApplicationOrder, Course, DaytimeEveningAttendance,
      PreviousQualification, Nationality, MotherQualification, FatherQualification, MotherOccupation,
      FatherOccupation, Gender, ScholarshipHolder} && x == {PreviousQualificationGrade, AdmissionGrade,
      AgeAtEnrollment, CurricularUnits1stSemCredited, CurricularUnits1stSemEnrolled, CurricularUnits1stSemEvaluations,
      CurricularUnits1stSemApproved, CurricularUnits1stSemGrade, CurricularUnits1stSemWithoutEvaluations,
      CurricularUnits2ndSemCredited, CurricularUnits2ndSemEnrolled, CurricularUnits2ndSemEvaluations,
      CurricularUnits2ndSemApproved, CurricularUnits2ndSemGrade, CurricularUnits2ndSemWithoutEvaluations} && a.Keys ==
      {ApplicationOrderShifted, PreviousQualificationOrdinal, MotherQualificationOrdinal, FatherQualificationOrdinal,
      AvgParentalEducation, ParentalEduDisparity, MotherOccupationOrdinal, FatherOccupationOrdinal, AvgParentalIncome,
      ParentalIncomeDisparity, ApprovedRate1stSem, ApprovedRate2ndSem, PerformanceIndex1stSem, PerformanceIndex2ndSem,
      CreditLoadReduction1stSem, CreditLoadReduction2ndSem, EvalRate1stSem, EvalRate2ndSem, NoAcademicActivity}
    ensures HasEconInputs(v)
    ensures EconInputs !! d
    ensures EconInputs !! x
    ensures EconInputs !! a.Keys
    ensures x + EconInputs == {PreviousQualificationGrade, AdmissionGrade, AgeAtEnrollment,
      CurricularUnits1stSemCredited, CurricularUnits1stSemEnrolled, CurricularUnits1stSemEvaluations,
      CurricularUnits1stSemApproved, CurricularUnits1stSemGrade, CurricularUnits1stSemWithoutEvaluations,
      CurricularUnits2ndSemCredited, CurricularUnits2ndSemEnrolled, CurricularUnits2ndSemEvaluations,
      CurricularUnits2ndSemApproved, CurricularUnits2ndSemGrade, CurricularUnits2ndSemWithoutEvaluations,
      UnemploymentRate, InflationRate, Gdp}
    ensures (a + EconFeatures(v)).Keys == {ApplicationOrderShifted, PreviousQualificationOrdinal,
      MotherQualificationOrdinal, FatherQualificationOrdinal, AvgParentalEducation, ParentalEduDisparity,
      MotherOccupationOrdinal, FatherOccupationOrdinal, AvgParentalIncome, ParentalIncomeDisparity,
      ApprovedRate1stSem, ApprovedRate2ndSem, PerformanceIndex1stSem, PerformanceIndex2ndSem,
      CreditLoadReduction1stSem, CreditLoadReduction2ndSem, EvalRate1stSem, EvalRate2ndSem, NoAcademicActivity,
      EconomicStressIndex, IsEconomyGood, Year}
  {
    ReadableFeatures(v);
    EconNotDropped(d);
    EconNotScaled(x);
    EconNotDerived(a);
    EconScaledSoFar(x);
    EconKeysNext(a, EconFeatures(v));
  }

  /** annPreProc up to and including `#econ`, `#year` and the three economic inputs (preprocess.py:816-831). */
  method ThroughEcon(v: Frame, store: ScalerStore) returns (g: Frame, ok: bool, ghost d: set<Col>, ghost x: set<Col>, ghost a: map<Col, seq<Cell>>)
    requires Readable(v)
    modifies store
    ensures ok <==> AnnSucceeds(v)
    ensures ok ==> AtStage(g, v, old(store.scalers), store.scalers, d, x, a, OneHot(v, 7))
    ensures ok ==> (d == {MaritalStatus, ApplicationMode, ApplicationOrder, Course, DaytimeEveningAttendance,
      PreviousQualification, Nationality, MotherQualification, FatherQualification, MotherOccupation,
      FatherOccupation, Gender, ScholarshipHolder} && x == {PreviousQualificationGrade, AdmissionGrade,
      AgeAtEnrollment, CurricularUnits1stSemCredited, CurricularUnits1stSemEnrolled, CurricularUnits1stSemEvaluations,
      CurricularUnits1stSemApproved, CurricularUnits1stSemGrade, CurricularUnits1stSemWithoutEvaluations,
      CurricularUnits2ndSemCredited, CurricularUnits2ndSemEnrolled, CurricularUnits2ndSemEvaluations,
      CurricularUnits2ndSemApproved, CurricularUnits2ndSemGrade, CurricularUnits2ndSemWithoutEvaluations,
      UnemploymentRate, InflationRate, Gdp} && a == map[] + OrderFeature(v) + PreviousQualificationFeature(v) +
      ParentQualificationFeatures(v) + OccupationFeatures(v) + CurricularFeatures(v) + EconFeatures(v) && a.Keys ==
      {ApplicationOrderShifted, PreviousQualificationOrdinal, MotherQualificationOrdinal, FatherQualificationOrdinal,
      AvgParentalEducation, ParentalEduDisparity, MotherOccupationOrdinal, FatherOccupationOrdinal, AvgParentalIncome,
      ParentalIncomeDisparity, ApprovedRate1stSem, ApprovedRate2ndSem, PerformanceIndex1stSem, PerformanceIndex2ndSem,
      CreditLoadReduction1stSem, CreditLoadReduction2ndSem, EvalRate1stSem, EvalRate2ndSem, NoAcademicActivity,
      EconomicStressIndex, IsEconomyGood, Year})
    ensures v.n <= 1 ==> store.scalers == old(store.scalers)
  {
    ghost var stored := store.scalers;
    g, ok, d, x, a := ThroughCurricularUnits(v, store);
    if !ok {
      return;
    }
    g := EconLink(g, v, stored, store, d, x, a);
    x, a := x + EconInputs, a + EconFeatures(v);
  }

  /** `#econ`, `#year` and the three economic inputs, from the stage before it to the next one. */
  method EconLink(f: Frame, v: Frame, ghost stored: map<Col, Scaler>, store: ScalerStore,
    ghost d: set<Col>, ghost x: set<Col>, ghost a: map<Col, seq<Cell>>) returns (g: Frame)
    requires Readable(v) && AnnSucceeds(v)
    requires d == {MaritalStatus, ApplicationMode, ApplicationOrder, Course, DaytimeEveningAttendance,
      PreviousQualification, Nationality, MotherQualification, FatherQualification, MotherOccupation,
      FatherOccupation, Gender, ScholarshipHolder} && x == {PreviousQualificationGrade, AdmissionGrade,
      AgeAtEnrollment, CurricularUnits1stSemCredited, CurricularUnits1stSemEnrolled, CurricularUnits1stSemEvaluations,
      CurricularUnits1stSemApproved, CurricularUnits1stSemGrade, CurricularUnits1stSemWithoutEvaluations,
      CurricularUnits2ndSemCredited, CurricularUnits2ndSemEnrolled, CurricularUnits2ndSemEvaluations,
      CurricularUnits2ndSemApproved, CurricularUnits2ndSemGrade, CurricularUnits2ndSemWithoutEvaluations} && a.Keys ==
      {ApplicationOrderShifted, PreviousQualificationOrdinal, MotherQualificationOrdinal, FatherQualificationOrdinal,
      AvgParentalEducation, ParentalEduDisparity, MotherOccupationOrdinal, FatherOccupationOrdinal, AvgParentalIncome,
      ParentalIncomeDisparity, ApprovedRate1stSem, ApprovedRate2ndSem, PerformanceIndex1stSem, PerformanceIndex2ndSem,
      CreditLoadReduction1stSem, CreditLoadReduction2ndSem, EvalRate1stSem, EvalRate2ndSem, NoAcademicActivity}
    requires AtStage(f, v, stored, store.scalers, d, x, a, OneHot(v, 7))
    modifies store
    ensures AtStage(g, v, stored, store.scalers, d, x + EconInputs, a + EconFeatures(v), OneHot(v, 7))
    ensures x + EconInputs == {PreviousQualificationGrade, AdmissionGrade, AgeAtEnrollment,
      CurricularUnits1stSemCredited, CurricularUnits1stSemEnrolled, CurricularUnits1stSemEvaluations,
      CurricularUnits1stSemApproved, CurricularUnits1stSemGrade, CurricularUnits1stSemWithoutEvaluations,
      CurricularUnits2ndSemCredited, CurricularUnits2ndSemEnrolled, CurricularUnits2ndSemEvaluations,
      CurricularUnits2ndSemApproved, CurricularUnits2ndSemGrade, CurricularUnits2ndSemWithoutEvaluations,
      UnemploymentRate, InflationRate, Gdp}
    ensures (a + EconFeatures(v)).Keys == {ApplicationOrderShifted, PreviousQualificationOrdinal,
      MotherQualificationOrdinal, FatherQualificationOrdinal, AvgParentalEducation, ParentalEduDisparity,
      MotherOccupationOrdinal, FatherOccupationOrdinal, AvgParentalIncome, ParentalIncomeDisparity,
      ApprovedRate1stSem, ApprovedRate2ndSem, PerformanceIndex1stSem, PerformanceIndex2ndSem,
      CreditLoadReduction1stSem, CreditLoadReduction2ndSem, EvalRate1stSem, EvalRate2ndSem, NoAcademicActivity,
      EconomicStressIndex, IsEconomyGood, Year}
  {
    EconFresh(v, d, x, a);
    g := StageEcon(f, v, stored, store, d, x, a, OneHot(v, 7));
  }

  lemma TargetUnused(d: set<Col>, x: set<Col>, a: map<Col, seq<Cell>>)
    requires d == {MaritalStatus, ApplicationMode, ApplicationOrder, Course, DaytimeEveningAttendance,
      PreviousQualification, Nationality, MotherQualification, FatherQualification, MotherOccupation,
      FatherOccupation, Gender, ScholarshipHolder} && x == {PreviousQualificationGrade, AdmissionGrade,
      AgeAtEnrollment, CurricularUnits1stSemCredited, CurricularUnits1stSemEnrolled, CurricularUnits1stSemEvaluations,
      CurricularUnits1stSemApproved, CurricularUnits1stSemGrade, CurricularUnits1stSemWithoutEvaluations,
      CurricularUnits2ndSemCredited, CurricularUnits2ndSemEnrolled, CurricularUnits2ndSemEvaluations,
      CurricularUnits2ndSemApproved, CurricularUnits2ndSemGrade, CurricularUnits2ndSemWithoutEvaluations,
      UnemploymentRate, InflationRate, Gdp} && a.Keys == {ApplicationOrderShifted, PreviousQualificationOrdinal,
      MotherQualificationOrdinal, FatherQualificationOrdinal, AvgParentalEducation, ParentalEduDisparity,
      MotherOccupationOrdinal, FatherOccupationOrdinal, AvgParentalIncome, ParentalIncomeDisparity,
      ApprovedRate1stSem, ApprovedRate2ndSem, PerformanceIndex1stSem, PerformanceIndex2ndSem,
      CreditLoadReduction1stSem, CreditLoadReduction2ndSem, EvalRate1stSem, EvalRate2ndSem, NoAcademicActivity,
      EconomicStressIndex, IsEconomyGood, Year}
    ensures Target !in d
    ensures Target !in x
    ensures Target !in a
    ensures d + {Target} == {MaritalStatus, ApplicationMode, ApplicationOrder, Course, DaytimeEveningAttendance,
      PreviousQualification, Nationality, MotherQualification, FatherQualification, MotherOccupation,
      FatherOccupation, Gender, ScholarshipHolder, Target}
  {
  }

  lemma TargetKeysNext(a: map<Col, seq<Cell>>, b: map<Col, seq<Cell>>)
    requires a.Keys == {ApplicationOrderShifted, PreviousQualificationOrdinal, MotherQualificationOrdinal,
      FatherQualificationOrdinal, AvgParentalEducation, ParentalEduDisparity, MotherOccupationOrdinal,
      FatherOccupationOrdinal, AvgParentalIncome, ParentalIncomeDisparity, ApprovedRate1stSem, ApprovedRate2ndSem,
      PerformanceIndex1stSem, PerformanceIndex2ndSem, CreditLoadReduction1stSem, CreditLoadReduction2ndSem,
      EvalRate1stSem, EvalRate2ndSem, NoAcademicActivity, EconomicStressIndex, IsEconomyGood, Year}
    ensures (a + b).Keys == {ApplicationOrderShifted, PreviousQualificationOrdinal, MotherQualificationOrdinal,
      FatherQualificationOrdinal, AvgParentalEducation, ParentalEduDisparity, MotherOccupationOrdinal,
      FatherOccupationOrdinal, AvgParentalIncome, ParentalIncomeDisparity, ApprovedRate1stSem, ApprovedRate2ndSem,
      PerformanceIndex1stSem, PerformanceIndex2ndSem, CreditLoadReduction1stSem, CreditLoadReduction2ndSem,
      EvalRate1stSem, EvalRate2ndSem, NoAcademicActivity, EconomicStressIndex, IsEconomyGood, Year} + b.Keys
  {
  }

  /** What `#target` needs of the stage before it. */
  lemma TargetFresh(v: Frame, d: set<Col>, x: set<Col>, a: map<Col, seq<Cell>>)
    requires Readable(v)
    requires d == {MaritalStatus, ApplicationMode, ApplicationOrder, Course, DaytimeEveningAttendance,
      PreviousQualification, Nationality, MotherQualification, FatherQualification, MotherOccupation,
      FatherOccupation, Gender, ScholarshipHolder} && x == {PreviousQualificationGrade, AdmissionGrade,
      AgeAtEnrollment, CurricularUnits1stSemCredited, CurricularUnits1stSemEnrolled, CurricularUnits1stSemEvaluations,
      CurricularUnits1stSemApproved, CurricularUnits1stSemGrade, CurricularUnits1stSemWithoutEvaluations,
      CurricularUnits2ndSemCredited, CurricularUnits2ndSemEnrolled, CurricularUnits2ndSemEvaluations,
      CurricularUnits2ndSemApproved, CurricularUnits2ndSemGrade, CurricularUnits2ndSemWithoutEvaluations,
      UnemploymentRate, InflationRate, Gdp} && a.Keys == {ApplicationOrderShifted, PreviousQualificationOrdinal,
      MotherQualificationOrdinal, FatherQualificationOrdinal, AvgParentalEducation, ParentalEduDisparity,
      MotherOccupationOrdinal, FatherOccupationOrdinal, AvgParentalIncome, ParentalIncomeDisparity,
      ApprovedRate1stSem, ApprovedRate2ndSem, PerformanceIndex1stSem, PerformanceIndex2ndSem,
      CreditLoadReduction1stSem, CreditLoadReduction2ndSem, EvalRate1stSem, EvalRate2ndSem, NoAcademicActivity,
      EconomicStressIndex, IsEconomyGood, Year}
    ensures v.n > 1 ==> Target in v.data
    ensures Target !in d
    ensures Target !in x
    ensures Target !in a
    ensures d + {Target} == {MaritalStatus, ApplicationMode, ApplicationOrder, Course, DaytimeEveningAttendance,
      PreviousQualification, Nationality, MotherQualification, FatherQualification, MotherOccupation,
      FatherOccupation, Gender, ScholarshipHolder, Target}
    ensures (a + TargetFeatures(v)).Keys == {ApplicationOrderShifted, PreviousQualificationOrdinal,
      MotherQualificationOrdinal, FatherQualificationOrdinal, AvgParentalEducation, ParentalEduDisparity,
      MotherOccupationOrdinal, FatherOccupationOrdinal, AvgParentalIncome, ParentalIncomeDisparity,
      ApprovedRate1stSem, ApprovedRate2ndSem, PerformanceIndex1stSem, PerformanceIndex2ndSem,
      CreditLoadReduction1stSem, CreditLoadReduction2ndSem, EvalRate1stSem, EvalRate2ndSem, NoAcademicActivity,
      EconomicStressIndex, IsEconomyGood, Year} + TargetFeatures(v).Keys
  {
    ReadableFeatures(v);
    TargetUnused(d, x, a);
    TargetKeysNext(a, TargetFeatures(v));
  }

  /** annPreProc up to and including `#target` (preprocess.py:834-838). */
  method ThroughTarget(v: Frame, store: ScalerStore) returns (g: Frame, ok: bool, ghost d: set<Col>, ghost x: set<Col>, ghost a: map<Col, seq<Cell>>)
    requires Readable(v)
    modifies store
    ensures ok <==> AnnSucceeds(v)
    ensures ok ==> AtStage(g, v, old(store.scalers), store.scalers, d, x, a, OneHot(v, 7))
    ensures ok ==> (d == {MaritalStatus, ApplicationMode, ApplicationOrder, Course, DaytimeEveningAttendance,
      PreviousQualification, Nationality, MotherQualification, FatherQualification, MotherOccupation,
      FatherOccupation, Gender, ScholarshipHolder, Target} && x == {PreviousQualificationGrade, AdmissionGrade,
      AgeAtEnrollment, CurricularUnits1stSemCredited, CurricularUnits1stSemEnrolled, CurricularUnits1stSemEvaluations,
      CurricularUnits1stSemApproved, CurricularUnits1stSemGrade, CurricularUnits1stSemWithoutEvaluations,
      CurricularUnits2ndSemCredited, CurricularUnits2ndSemEnrolled, CurricularUnits2ndSemEvaluations,
      CurricularUnits2ndSemApproved, CurricularUnits2ndSemGrade, CurricularUnits2ndSemWithoutEvaluations,
      UnemploymentRate, InflationRate, Gdp} && a == map[] + OrderFeature(v) + PreviousQualificationFeature(v) +
      ParentQualificationFeatures(v) + OccupationFeatures(v) + CurricularFeatures(v) + EconFeatures(v) +
      TargetFeatures(v) && a.Keys == {ApplicationOrderShifted, PreviousQualificationOrdinal,
      MotherQualificationOrdinal, FatherQualificationOrdinal, AvgParentalEducation, ParentalEduDisparity,
      MotherOccupationOrdinal, FatherOccupationOrdinal, AvgParentalIncome, ParentalIncomeDisparity,
      ApprovedRate1stSem, ApprovedRate2ndSem, PerformanceIndex1stSem, PerformanceIndex2ndSem,
      CreditLoadReduction1stSem, CreditLoadReduction2ndSem, EvalRate1stSem, EvalRate2ndSem, NoAcademicActivity,
      EconomicStressIndex, IsEconomyGood, Year} + TargetFeatures(v).Keys)
    ensures v.n <= 1 ==> store.scalers == old(store.scalers)
  {
    ghost var stored := store.scalers;
    g, ok, d, x, a := ThroughEcon(v, store);
    if !ok {
      return;
    }
    g := TargetLink(g, v, stored, store, d, x, a);
    d, a := d + {Target}, a + TargetFeatures(v);
  }

  /** `#target`, from the stage before it to the next one. */
  method TargetLink(f: Frame, v: Frame, ghost stored: map<Col, Scaler>, store: ScalerStore,
    ghost d: set<Col>, ghost x: set<Col>, ghost a: map<Col, seq<Cell>>) returns (g: Frame)
    requires Readable(v) && AnnSucceeds(v)
    requires d == {MaritalStatus, ApplicationMode, ApplicationOrder, Course, DaytimeEveningAttendance,
      PreviousQualification, Nationality, MotherQualification, FatherQualification, MotherOccupation,
      FatherOccupation, Gender, ScholarshipHolder} && x == {PreviousQualificationGrade, AdmissionGrade,
      AgeAtEnrollment, CurricularUnits1stSemCredited, CurricularUnits1stSemEnrolled, CurricularUnits1stSemEvaluations,
      CurricularUnits1stSemApproved, CurricularUnits1stSemGrade, CurricularUnits1stSemWithoutEvaluations,
      CurricularUnits2ndSemCredited, CurricularUnits2ndSemEnrolled, CurricularUnits2ndSemEvaluations,
      CurricularUnits2ndSemApproved, CurricularUnits2ndSemGrade, CurricularUnits2ndSemWithoutEvaluations,
      UnemploymentRate, InflationRate, Gdp} && a.Keys == {ApplicationOrderShifted, PreviousQualificationOrdinal,
      MotherQualificationOrdinal, FatherQualificationOrdinal, AvgParentalEducation, ParentalEduDisparity,
      MotherOccupationOrdinal, FatherOccupationOrdinal, AvgParentalIncome, ParentalIncomeDisparity,
      ApprovedRate1stSem, ApprovedRate2ndSem, PerformanceIndex1stSem, PerformanceIndex2ndSem,
      CreditLoadReduction1stSem, CreditLoadReduction2ndSem, EvalRate1stSem, EvalRate2ndSem, NoAcademicActivity,
      EconomicStressIndex, IsEconomyGood, Year}
    requires AtStage(f, v, stored, store.scalers, d, x, a, OneHot(v, 7))
    modifies store
    ensures AtStage(g, v, stored, store.scalers, d + {Target}, x, a + TargetFeatures(v), OneHot(v, 7))
    ensures d + {Target} == {MaritalStatus, ApplicationMode, ApplicationOrder, Course, DaytimeEveningAttendance,
      PreviousQualification, Nationality, MotherQualification, FatherQualification, MotherOccupation,
      FatherOccupation, Gender, ScholarshipHolder, Target}
    ensures (a + TargetFeatures(v)).Keys == {ApplicationOrderShifted, PreviousQualificationOrdinal,
      MotherQualificationOrdinal, FatherQualificationOrdinal, AvgParentalEducation, ParentalEduDisparity,
      MotherOccupationOrdinal, FatherOccupationOrdinal, AvgParentalIncome, ParentalIncomeDisparity,
      ApprovedRate1stSem, ApprovedRate2ndSem, PerformanceIndex1stSem, PerformanceIndex2ndSem,
      CreditLoadReduction1stSem, CreditLoadReduction2ndSem, EvalRate1stSem, EvalRate2ndSem, NoAcademicActivity,
      EconomicStressIndex, IsEconomyGood, Year} + TargetFeatures(v).Keys
  {
    TargetFresh(v, d, x, a);
    g := StageTarget(f, v, stored, store.scalers, d, x, a, OneHot(v, 7));
  }

  /** The columns dropped by the end: the consumed ones and the nominal ones. */
  lemma DroppedAtEnd(d: set<Col>)
    requires d == {MaritalStatus, ApplicationMode, ApplicationOrder, Course, DaytimeEveningAttendance,
      PreviousQualification, Nationality, MotherQualification, FatherQualification, MotherOccupation,
      FatherOccupation, Gender, ScholarshipHolder, Target}
    ensures d == Consumed + NominalColumns
  {
  }

  /** By the end every column annPreProc scales has been scaled in place
      (`x`) or derived (`k`). */
  lemma ScaledAtEnd(x: set<Col>, k: set<Col>, t: set<Col>)
    requires x == {PreviousQualificationGrade, AdmissionGrade, AgeAtEnrollment, CurricularUnits1stSemCredited,
      CurricularUnits1stSemEnrolled, CurricularUnits1stSemEvaluations, CurricularUnits1stSemApproved,
      CurricularUnits1stSemGrade, CurricularUnits1stSemWithoutEvaluations, CurricularUnits2ndSemCredited,
      CurricularUnits2ndSemEnrolled, CurricularUnits2ndSemEvaluations, CurricularUnits2ndSemApproved,
      CurricularUnits2ndSemGrade, CurricularUnits2ndSemWithoutEvaluations, UnemploymentRate, InflationRate, Gdp}
    requires k == {ApplicationOrderShifted, PreviousQualificationOrdinal, MotherQualificationOrdinal,
      FatherQualificationOrdinal, AvgParentalEducation, ParentalEduDisparity, MotherOccupationOrdinal,
      FatherOccupationOrdinal, AvgParentalIncome, ParentalIncomeDisparity, ApprovedRate1stSem, ApprovedRate2ndSem,
      PerformanceIndex1stSem, PerformanceIndex2ndSem, CreditLoadReduction1stSem, CreditLoadReduction2ndSem,
      EvalRate1stSem, EvalRate2ndSem, NoAcademicActivity, EconomicStressIndex, IsEconomyGood, Year} + t
    ensures forall c :: Scaled(c) ==> c in x || c in k
  {
  }

  lemma ScaledOnly(x: set<Col>)
    requires x == {PreviousQualificationGrade, AdmissionGrade, AgeAtEnrollment, CurricularUnits1stSemCredited,
      CurricularUnits1stSemEnrolled, CurricularUnits1stSemEvaluations, CurricularUnits1stSemApproved,
      CurricularUnits1stSemGrade, CurricularUnits1stSemWithoutEvaluations, CurricularUnits2ndSemCredited,
      CurricularUnits2ndSemEnrolled, CurricularUnits2ndSemEvaluations, CurricularUnits2ndSemApproved,
      CurricularUnits2ndSemGrade, CurricularUnits2ndSemWithoutEvaluations, UnemploymentRate, InflationRate, Gdp}
    ensures forall c :: c in x ==> Scaled(c)
  {
  }

  lemma ScaledNotConsumed(x: set<Col>)
    requires x == {PreviousQualificationGrade, AdmissionGrade, AgeAtEnrollment, CurricularUnits1stSemCredited,
      CurricularUnits1stSemEnrolled, CurricularUnits1stSemEvaluations, CurricularUnits1stSemApproved,
      CurricularUnits1stSemGrade, CurricularUnits1stSemWithoutEvaluations, CurricularUnits2ndSemCredited,
      CurricularUnits2ndSemEnrolled, CurricularUnits2ndSemEvaluations, CurricularUnits2ndSemApproved,
      CurricularUnits2ndSemGrade, CurricularUnits2ndSemWithoutEvaluations, UnemploymentRate, InflationRate, Gdp}
    ensures x !! Consumed
  {
  }

  lemma ScaledNotNominal(x: set<Col>)
    requires x == {PreviousQualificationGrade, AdmissionGrade, AgeAtEnrollment, CurricularUnits1stSemCredited,
      CurricularUnits1stSemEnrolled, CurricularUnits1stSemEvaluations, CurricularUnits1stSemApproved,
      CurricularUnits1stSemGrade, CurricularUnits1stSemWithoutEvaluations, CurricularUnits2ndSemCredited,
      CurricularUnits2ndSemEnrolled, CurricularUnits2ndSemEvaluations, CurricularUnits2ndSemApproved,
      CurricularUnits2ndSemGrade, CurricularUnits2ndSemWithoutEvaluations, UnemploymentRate, InflationRate, Gdp}
    ensures x !! NominalColumns
  {
  }

  lemma ScaledNotDerived(x: set<Col>, k: set<Col>, t: set<Col>)
    requires x == {PreviousQualificationGrade, AdmissionGrade, AgeAtEnrollment, CurricularUnits1stSemCredited,
      CurricularUnits1stSemEnrolled, CurricularUnits1stSemEvaluations, CurricularUnits1stSemApproved,
      CurricularUnits1stSemGrade, CurricularUnits1stSemWithoutEvaluations, CurricularUnits2ndSemCredited,
      CurricularUnits2ndSemEnrolled, CurricularUnits2ndSemEvaluations, CurricularUnits2ndSemApproved,
      CurricularUnits2ndSemGrade, CurricularUnits2ndSemWithoutEvaluations, UnemploymentRate, InflationRate, Gdp}
    requires k == {ApplicationOrderShifted, PreviousQualificationOrdinal, MotherQualificationOrdinal,
      FatherQualificationOrdinal, AvgParentalEducation, ParentalEduDisparity, MotherOccupationOrdinal,
      FatherOccupationOrdinal, AvgParentalIncome, ParentalIncomeDisparity, ApprovedRate1stSem, ApprovedRate2ndSem,
      PerformanceIndex1stSem, PerformanceIndex2ndSem, CreditLoadReduction1stSem, CreditLoadReduction2ndSem,
      EvalRate1stSem, EvalRate2ndSem, NoAcademicActivity, EconomicStressIndex, IsEconomyGood, Year} + t && t <=
      {TargetInt}
    ensures x !! k
  {
  }

  lemma DerivedNotNominal(k: set<Col>, t: set<Col>)
    requires k == {ApplicationOrderShifted, PreviousQualificationOrdinal, MotherQualificationOrdinal,
      FatherQualificationOrdinal, AvgParentalEducation, ParentalEduDisparity, MotherOccupationOrdinal,
      FatherOccupationOrdinal, AvgParentalIncome, ParentalIncomeDisparity, ApprovedRate1stSem, ApprovedRate2ndSem,
      PerformanceIndex1stSem, PerformanceIndex2ndSem, CreditLoadReduction1stSem, CreditLoadReduction2ndSem,
      EvalRate1stSem, EvalRate2ndSem, NoAcademicActivity, EconomicStressIndex, IsEconomyGood, Year} + t && t <=
      {TargetInt}
    ensures k !! NominalColumns
  {
  }

  /** The stage annPreProc ends at, once the target codes `t` have joined
      the derived columns: the frame of the derivation without the nominal
      columns, scaled, with the indicator columns added. */
  lemma StageAtEnd(n: nat, stored: map<Col, Scaler>, m: map<Col, seq<Cell>>, d: set<Col>, x: set<Col>,
                   a: map<Col, seq<Cell>>, u: map<Col, seq<Cell>>, t: set<Col>)
    requires d == {MaritalStatus, ApplicationMode, ApplicationOrder, Course, DaytimeEveningAttendance,
      PreviousQualification, Nationality, MotherQualification, FatherQualification, MotherOccupation,
      FatherOccupation, Gender, ScholarshipHolder, Target}
    requires x == {PreviousQualificationGrade, AdmissionGrade, AgeAtEnrollment, CurricularUnits1stSemCredited,
      CurricularUnits1stSemEnrolled, CurricularUnits1stSemEvaluations, CurricularUnits1stSemApproved,
      CurricularUnits1stSemGrade, CurricularUnits1stSemWithoutEvaluations, CurricularUnits2ndSemCredited,
      CurricularUnits2ndSemEnrolled, CurricularUnits2ndSemEvaluations, CurricularUnits2ndSemApproved,
      CurricularUnits2ndSemGrade, CurricularUnits2ndSemWithoutEvaluations, UnemploymentRate, InflationRate, Gdp}
    requires a.Keys == {ApplicationOrderShifted, PreviousQualificationOrdinal, MotherQualificationOrdinal,
      FatherQualificationOrdinal, AvgParentalEducation, ParentalEduDisparity, MotherOccupationOrdinal,
      FatherOccupationOrdinal, AvgParentalIncome, ParentalIncomeDisparity, ApprovedRate1stSem, ApprovedRate2ndSem,
      PerformanceIndex1stSem, PerformanceIndex2ndSem, CreditLoadReduction1stSem, CreditLoadReduction2ndSem,
      EvalRate1stSem, EvalRate2ndSem, NoAcademicActivity, EconomicStressIndex, IsEconomyGood, Year} + t
    requires t <= {TargetInt}
    ensures Stage(n, stored, m, d, x, a, u) == Scale(n, stored, ((m - Consumed) + a) - NominalColumns) + u
    ensures Fits(Restrict(m, x) + a) == Fits((m - Consumed) + a)
  {
    DroppedAtEnd(d);
    ScaledOnly(x);
    ScaledAtEnd(x, a.Keys, t);
    ScaledNotConsumed(x);
    ScaledNotNominal(x);
    ScaledNotDerived(x, a.Keys, t);
    DerivedNotNominal(a.Keys, t);
    StageDone(n, stored, m, Consumed, NominalColumns, x, a, u);
  }

  /** The stage annPreProc ends at is the frame AnnFeatures states, and the
      store holds what AnnFits states. */
  lemma AnnDone(g: Frame, v: Frame, stored: map<Col, Scaler>, scalers: map<Col, Scaler>,
                d: set<Col>, x: set<Col>, a: map<Col, seq<Cell>>)
    requires AnnReady(v) && AtStage(g, v, stored, scalers, d, x, a, OneHot(v, 7))
    requires d == {MaritalStatus, ApplicationMode, ApplicationOrder, Course, DaytimeEveningAttendance,
      PreviousQualification, Nationality, MotherQualification, FatherQualification, MotherOccupation,
      FatherOccupation, Gender, ScholarshipHolder, Target}
    requires x == {PreviousQualificationGrade, AdmissionGrade, AgeAtEnrollment, CurricularUnits1stSemCredited,
      CurricularUnits1stSemEnrolled, CurricularUnits1stSemEvaluations, CurricularUnits1stSemApproved,
      CurricularUnits1stSemGrade, CurricularUnits1stSemWithoutEvaluations, CurricularUnits2ndSemCredited,
      CurricularUnits2ndSemEnrolled, CurricularUnits2ndSemEvaluations, CurricularUnits2ndSemApproved,
      CurricularUnits2ndSemGrade, CurricularUnits2ndSemWithoutEvaluations, UnemploymentRate, InflationRate, Gdp}
    requires a == map[] + OrderFeature(v) + PreviousQualificationFeature(v) + ParentQualificationFeatures(v) +
      OccupationFeatures(v) + CurricularFeatures(v) + EconFeatures(v) + TargetFeatures(v)
    requires a.Keys == {ApplicationOrderShifted, PreviousQualificationOrdinal, MotherQualificationOrdinal,
      FatherQualificationOrdinal, AvgParentalEducation, ParentalEduDisparity, MotherOccupationOrdinal,
      FatherOccupationOrdinal, AvgParentalIncome, ParentalIncomeDisparity, ApprovedRate1stSem, ApprovedRate2ndSem,
      PerformanceIndex1stSem, PerformanceIndex2ndSem, CreditLoadReduction1stSem, CreditLoadReduction2ndSem,
      EvalRate1stSem, EvalRate2ndSem, NoAcademicActivity, EconomicStressIndex, IsEconomyGood, Year} +
      TargetFeatures(v).Keys
    ensures g == AnnFeatures(v, stored)
    ensures v.n == 1 ==> scalers == stored
    ensures v.n > 1 ==> scalers == stored + AnnFits(v)
  {
    StageAtEnd(v.n, stored, v.data, d, x, a, OneHot(v, 7), TargetFeatures(v).Keys);
    AnnDerivesInOrder(v);
  }

  /** An input annPreProc is ready for can be read by each of its steps. */
  lemma ReadyReadable(v: Frame)
    requires AnnReady(v)
    ensures Readable(v)
  {
    forall c | c in NumericInputs && c in v.data
      ensures NumericColumn(v.data[c])
    {
      if c in CurricularInputs || c in EconInputs {
      }
    }
  }

  /** annPreProc after its rename, on the renamed frame `v`. `r` is `None`
      when the call raises (a frame of no rows, or one of several rows
      without a grade to scale); when it returns, its frame is the one
      AnnFeatures states and the store has gained the scalers AnnFits
      states, unless the frame has one row, whose scaling only reads the
      store. */
  method AnnRenamed(v: Frame, store: ScalerStore) returns (r: Option<Frame>)
    requires AnnReady(v)
    modifies store
    ensures r.Some? <==> AnnSucceeds(v)
    ensures r.Some? ==> r.value == AnnFeatures(v, old(store.scalers))
    ensures v.n <= 1 ==> store.scalers == old(store.scalers)
    ensures r.Some? && v.n > 1 ==> store.scalers == old(store.scalers) + AnnFits(v)
  {
    ReadyReadable(v);
    var g, ok;
    ghost var d, x, a;
    g, ok, d, x, a := ThroughTarget(v, store);
    if !ok {
      return None;
    }
    AnnDone(g, v, old(store.scalers), store.scalers, d, x, a);
    r := Some(g);
  }

  /** `annPreProc(df_ann)` (preprocess.py:701-840): the caller's frame is
      left renamed (`inputAfter`); every later change is made to copies. */
  method AnnPreProc(df: Frame, store: ScalerStore) returns (r: Option<Frame>, inputAfter: Frame)
    requires df.Valid() && RenameDefined(df.data.Keys) && AnnReady(Rename(df))
    modifies store
    ensures inputAfter == Rename(df)
    ensures r.Some? <==> AnnSucceeds(Rename(df))
    ensures r.Some? ==> r.value == AnnFeatures(Rename(df), old(store.scalers))
    ensures Rename(df).n <= 1 ==> store.scalers == old(store.scalers)
    ensures r.Some? && Rename(df).n > 1 ==> store.scalers == old(store.scalers) + AnnFits(Rename(df))
  {
    inputAfter := Rename(df);
    r := AnnRenamed(inputAfter, store);
  }
}
