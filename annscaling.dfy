/** The scaling annPreProc applies on top of the derived features: which
    columns it passes through addGetScaleCol (preprocess.py:712-831), and
    what a column becomes when it does. */
module AnnScaling {
  import opened Cells
  import opened Columns
  import opened Frames
  import opened Scaling

  /** The 34 columns annPreProc scales. */
  predicate Scaled(c: Col) {
    c.ApplicationOrderShifted? ||
    c.PreviousQualificationOrdinal? ||
    c.PreviousQualificationGrade? ||
    c.MotherQualificationOrdinal? ||
    c.FatherQualificationOrdinal? ||
    c.AvgParentalEducation? ||
    c.ParentalEduDisparity? ||
    c.MotherOccupationOrdinal? ||
    c.FatherOccupationOrdinal? ||
    c.AvgParentalIncome? ||
    c.ParentalIncomeDisparity? ||
    c.AdmissionGrade? ||
    c.AgeAtEnrollment? ||
    c.CurricularUnits1stSemCredited? ||
    c.CurricularUnits1stSemEnrolled? ||
    c.CurricularUnits1stSemEvaluations? ||
    c.CurricularUnits1stSemApproved? ||
    c.CurricularUnits1stSemGrade? ||
    c.CurricularUnits1stSemWithoutEvaluations? ||
    c.CurricularUnits2ndSemCredited? ||
    c.CurricularUnits2ndSemEnrolled? ||
    c.CurricularUnits2ndSemEvaluations? ||
    c.CurricularUnits2ndSemApproved? ||
    c.CurricularUnits2ndSemGrade? ||
    c.CurricularUnits2ndSemWithoutEvaluations? ||
    c.PerformanceIndex1stSem? ||
    c.PerformanceIndex2ndSem? ||
    c.CreditLoadReduction1stSem? ||
    c.CreditLoadReduction2ndSem? ||
    c.EconomicStressIndex? ||
    c.Year? ||
    c.UnemploymentRate? ||
    c.InflationRate? ||
    c.Gdp?
  }

  /** What addGetScaleCol leaves in column `c` of an `n`-row frame whose
      store held `stored` when the pipeline started: a one-row frame uses
      the stored scaler and is left alone when there is none; any other
      frame is scaled with a scaler fitted on the column itself. (A column
      holding text is never passed here; it is left as it is.) */
  function ScaleOne(n: nat, stored: map<Col, Scaler>, c: Col, cells: seq<Cell>): (r: seq<Cell>)
    ensures |r| == |cells|
  {
    if !NumericColumn(cells) then cells
    else if n == 1 then (if c in stored then TransformColumn(stored[c], cells) else cells)
    else TransformColumn(Fit(cells), cells)
  }

  /** The columns of `q` after annPreProc's scaling: those annPreProc scales
      scaled, the others unchanged. */
  function Scale(n: nat, stored: map<Col, Scaler>, q: map<Col, seq<Cell>>): (r: map<Col, seq<Cell>>)
    ensures r.Keys == q.Keys
    ensures forall c :: c in q && !Scaled(c) ==> r[c] == q[c]
    ensures forall c :: c in q ==> |r[c]| == |q[c]|
  {
    map c | c in q :: if Scaled(c) then ScaleOne(n, stored, c, q[c]) else q[c]
  }

  /** The scalers annPreProc fits on the columns of `q` it scales. */
  function Fits(q: map<Col, seq<Cell>>): (r: map<Col, Scaler>)
    ensures forall c :: c in r <==> c in q && Scaled(c)
  {
    map c | c in q && Scaled(c) :: Fit(q[c])
  }

  /** Scaling is column by column: scaling a merge is merging the scaled parts. */
  lemma ScaleMerge(n: nat, stored: map<Col, Scaler>, a: map<Col, seq<Cell>>, b: map<Col, seq<Cell>>)
    ensures Scale(n, stored, a + b) == Scale(n, stored, a) + Scale(n, stored, b)
  {
  }

  /** Fitting is column by column too. */
  lemma FitsMerge(a: map<Col, seq<Cell>>, b: map<Col, seq<Cell>>)
    ensures Fits(a + b) == Fits(a) + Fits(b)
  {
  }

  /** With several rows every present value of a scaled numeric column
      ends up in [0, 1]. */
  lemma ScaledUnitRange(n: nat, stored: map<Col, Scaler>, q: map<Col, seq<Cell>>, c: Col, i: int)
    requires n > 1 && c in q && Scaled(c) && NumericColumn(q[c])
    requires 0 <= i < |q[c]| && q[c][i].Num?
    ensures Scale(n, stored, q)[c][i].Num? && 0.0 <= Scale(n, stored, q)[c][i].x <= 1.0
  {
    FitTransformUnitRange(q[c], i);
  }

  /** A one-row frame is scaled with the stored scaler when there is one and
      is otherwise left as it is; the store decides, not the row. */
  lemma ScaledSingleRow(stored: map<Col, Scaler>, q: map<Col, seq<Cell>>, c: Col)
    requires c in q && Scaled(c) && NumericColumn(q[c])
    ensures c in stored ==> Scale(1, stored, q)[c] == TransformColumn(stored[c], q[c])
    ensures c !in stored ==> Scale(1, stored, q)[c] == q[c]
  {
  }
}
