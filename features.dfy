/** The per-row feature rules shared by the three pipelines
    (preprocess.py:587-672): each derived cell is a function of the cells of
    the same row, with pandas' missing-value behaviour written out. */
module Features {
  import opened Wrappers
  import opened Cells
  import opened CodeBook

  /** A real with no fractional part: the float 3.0 finds the int key 3 in a
      Python dict, the float 3.5 finds nothing. */
  predicate IsWhole(x: real) {
    x == x.Floor as real
  }

  /** `applicationOrder + 1` (preprocess.py:587); arithmetic on a missing
      value gives a missing value. */
  function Shifted(c: Cell): (r: Cell)
    requires !c.Text?
    ensures r.Num? <==> c.Num?
    ensures r.Num? ==> r.x - c.x == 1.0
    ensures !r.Num? ==> r.NaN?
  {
    if c.Num? then Num(c.x + 1.0) else NaN
  }

  /** `series.map(qualificationOrdinal)` on one cell (preprocess.py:595):
      a whole-number code the bucketing lists becomes its tier 0..4, anything else (an unknown or fractional code, a missing
      value, text) becomes missing. */
  function QualificationOrdinalOf(c: Cell): (r: Cell)
    ensures r.Num? <==> c.Num? && IsWhole(c.x) && QualificationOrdinal(c.x.Floor).Some?
    ensures r.Num? ==> IsWhole(r.x) && 0.0 <= r.x <= 4.0
    ensures !r.Num? ==> r.NaN?
  {
    if c.Num? && IsWhole(c.x) then
      match QualificationOrdinal(c.x.Floor)
      case Some(t) => Num(t as real)
      case None => NaN
    else NaN
  }

  /** `series.map(occupationOrdinal)` on one cell (preprocess.py:611): a
      whole-number code the bucketing lists becomes its income tier 0..5,
      anything else becomes missing. */
  function OccupationOrdinalOf(c: Cell): (r: Cell)
    ensures r.Num? <==> c.Num? && IsWhole(c.x) && OccupationOrdinal(c.x.Floor).Some?
    ensures r.Num? ==> IsWhole(r.x) && 0.0 <= r.x <= 5.0
    ensures !r.Num? ==> r.NaN?
  {
    if c.Num? && IsWhole(c.x) then
      match OccupationOrdinal(c.x.Floor)
      case Some(t) => Num(t as real)
      case None => NaN
    else NaN
  }

  /** The tier columns are present exactly for the whole-number codes of
      the combined code tables (preprocess.py:261-297, 404-454): every code
      the dataset documents is bucketed and nothing else is. */
  lemma OrdinalsCoverCombinedTables(c: Cell)
    ensures QualificationOrdinalOf(c).Num? <==> c.Num? && IsWhole(c.x) && c.x.Floor in CombineQualification
    ensures OccupationOrdinalOf(c).Num? <==> c.Num? && IsWhole(c.x) && c.x.Floor in CombineOccupation
  {
    if c.Num? {
      QualificationCodesBucketed(c.x.Floor);
      OccupationCodesBucketed(c.x.Floor);
    }
  }

  /** `df[[a, b]].mean(axis=1)` on one row (preprocess.py:605): the midpoint
      when both are present, the one present value when the other is
      missing, missing when both are. */
  function MeanSkipNaN(a: Cell, b: Cell): (r: Cell)
    requires !a.Text? && !b.Text?
    ensures r.NaN? <==> a.NaN? && b.NaN?
    ensures r.Num? && a.Num? && b.Num? ==> r.x - a.x == b.x - r.x
    ensures a.Num? && b.NaN? ==> r == a
    ensures a.NaN? && b.Num? ==> r == b
    ensures !r.Num? ==> r.NaN?
  {
    match (a, b)
    case (Num(x), Num(y)) => Num((x + y) / 2.0)
    case (Num(_), _) => a
    case (_, Num(_)) => b
    case _ => NaN
  }

  /** `abs(a - b)` on one row (preprocess.py:606): the distance between two
      present values, missing otherwise. */
  function AbsDiff(a: Cell, b: Cell): (r: Cell)
    requires !a.Text? && !b.Text?
    ensures r.Num? <==> a.Num? && b.Num?
    ensures r.Num? ==> r.x >= 0.0 && (r.x == a.x - b.x || r.x == b.x - a.x)
    ensures !r.Num? ==> r.NaN?
  {
    if a.Num? && b.Num? then Num(if a.x >= b.x then a.x - b.x else b.x - a.x) else NaN
  }

  /** `(num / den.replace(0, np.nan)).fillna(0)` on one row
      (preprocess.py:635): never missing; the quotient when both are present
      and the denominator is not zero, and 0 otherwise. */
  function SafeRatio(num: Cell, den: Cell): (r: Cell)
    requires !num.Text? && !den.Text?
    ensures r.Num?
    ensures num.Num? && den.Num? && den.x != 0.0 ==> r.x * den.x == num.x
    ensures !(num.Num? && den.Num? && den.x != 0.0) ==> r.x == 0.0
  {
    if num.Num? && den.Num? && den.x != 0.0 then Num(num.x / den.x) else Num(0.0)
  }

  /** `a + b` on one row, missing when either is missing. */
  function Sum(a: Cell, b: Cell): (r: Cell)
    requires !a.Text? && !b.Text?
    ensures r.Num? <==> a.Num? && b.Num?
    ensures r.Num? ==> r.x - b.x == a.x
  {
    if a.Num? && b.Num? then Num(a.x + b.x) else NaN
  }

  /** `evals / (evals + without)` guarded like SafeRatio (preprocess.py:641). */
  function EvalRate(evals: Cell, without: Cell): (r: Cell)
    requires !evals.Text? && !without.Text?
    ensures r.Num?
    ensures evals.Num? && without.Num? && evals.x + without.x != 0.0 ==> r.x * (evals.x + without.x) == evals.x
    ensures !(evals.Num? && without.Num? && evals.x + without.x != 0.0) ==> r.x == 0.0
  {
    SafeRatio(evals, Sum(evals, without))
  }

  /** `(a * b).fillna(0)` on one row (preprocess.py:637): never missing; the
      product when both are present, 0 otherwise. */
  function FilledProduct(a: Cell, b: Cell): (r: Cell)
    requires !a.Text? && !b.Text?
    ensures r.Num?
    ensures a.Num? && b.Num? && a.x != 0.0 ==> r.x / a.x == b.x
    ensures a == Num(0.0) || a.NaN? || b.NaN? ==> r.x == 0.0
  {
    if a.Num? && b.Num? then Num(a.x * b.x) else Num(0.0)
  }

  /** pandas `cell == 0` is false for a missing value and for text. */
  predicate IsZero(c: Cell) {
    c.Num? && c.x == 0.0
  }

  /** `inactive_mask.astype(int)` on one row (preprocess.py:644-652). */
  function InactiveFlag(enrolled1: Cell, enrolled2: Cell, evals1: Cell, evals2: Cell, grade1: Cell, grade2: Cell): (r: Cell)
    ensures r == Num(0.0) || r == Num(1.0)
    ensures r == Num(1.0) <==>
      enrolled1 == Num(0.0) && enrolled2 == Num(0.0) && evals1 == Num(0.0) &&
      evals2 == Num(0.0) && grade1 == Num(0.0) && grade2 == Num(0.0)
  {
    if IsZero(enrolled1) && IsZero(enrolled2) && IsZero(evals1) && IsZero(evals2) && IsZero(grade1) && IsZero(grade2)
    then Num(1.0) else Num(0.0)
  }

  /** `unemploymentRate + inflationRate - gdp` on one row (preprocess.py:655). */
  function StressIndex(u: Cell, i: Cell, g: Cell): (r: Cell)
    requires !u.Text? && !i.Text? && !g.Text?
    ensures r.Num? <==> u.Num? && i.Num? && g.Num?
    ensures r.Num? ==> r.x + g.x == u.x + i.x
    ensures !r.Num? ==> r.NaN?
  {
    if u.Num? && i.Num? && g.Num? then Num(u.x + i.x - g.x) else NaN
  }

  /** `((gdp > 1.5) & (unemploymentRate < 10)).astype(int)` on one row
      (preprocess.py:656); a comparison with a missing value is false. */
  function EconomyGoodFlag(g: Cell, u: Cell): (r: Cell)
    requires !g.Text? && !u.Text?
    ensures r == Num(0.0) || r == Num(1.0)
    ensures r == Num(1.0) <==> g.Num? && u.Num? && g.x > 1.5 && u.x < 10.0
  {
    if g.Num? && u.Num? && g.x > 1.5 && u.x < 10.0 then Num(1.0) else Num(0.0)
  }

  /** `econ_to_year.get((u, i, g))` on one row (preprocess.py:659): the year
      of an exact key match, missing otherwise. */
  function YearOf(u: Cell, i: Cell, g: Cell): (r: Cell)
    ensures r.Num? <==> u.Num? && i.Num? && g.Num? && (u.x, i.x, g.x) in EconToYear
    ensures r.Num? ==> IsWhole(r.x) && 2010.0 <= r.x <= 2019.0
    ensures !r.Num? ==> r.NaN?
  {
    if u.Num? && i.Num? && g.Num? && (u.x, i.x, g.x) in EconToYear then
      EconEpochs();
      assert EconToYear[(u.x, i.x, g.x)] in EconToYear.Values;
      Num(EconToYear[(u.x, i.x, g.x)] as real)
    else NaN
  }

  /** `target.map(targetMap).astype("Int64")` on one cell (preprocess.py:669):
      a known outcome label becomes its class code, which TargetMapReverse
      turns back into the label; anything else becomes missing. */
  function TargetCode(c: Cell): (r: Cell)
    ensures r.Num? <==> c.Text? && c.s in TargetMap
    ensures r.Num? ==> IsWhole(r.x) && r.x.Floor in TargetMapReverse && TargetMapReverse[r.x.Floor] == c.s
    ensures !r.Num? ==> r.NaN?
  {
    if c.Text? && c.s in TargetMap then
      TargetRoundTrip();
      Num(TargetMap[c.s] as real)
    else NaN
  }

  /** For non-negative counts the evaluation rate lies in [0, 1]
      (preprocess.py:641). */
  lemma EvalRateUnitInterval(evals: Cell, without: Cell)
    requires evals.Num? && without.Num? && evals.x >= 0.0 && without.x >= 0.0
    ensures 0.0 <= EvalRate(evals, without).x <= 1.0
  {
    var r := EvalRate(evals, without);
    var total := evals.x + without.x;
    if total != 0.0 {
      assert (1.0 - r.x) * total == without.x;
      NonNegativeFactor(r.x, total);
      NonNegativeFactor(1.0 - r.x, total);
    }
  }

  /** A factor of a non-negative product with a positive factor is non-negative. */
  lemma NonNegativeFactor(x: real, t: real)
    requires t > 0.0 && x * t >= 0.0
    ensures x >= 0.0
  {
  }

  /** With no enrolled units (zero or missing) the approval rate, the credit
      load reduction and hence the performance index are all 0
      (preprocess.py:635-640). */
  lemma NoEnrolmentNoPerformance(approved: Cell, credited: Cell, enrolled: Cell, grade: Cell)
    requires !approved.Text? && !credited.Text? && !grade.Text?
    requires enrolled == Num(0.0) || enrolled.NaN?
    ensures SafeRatio(approved, enrolled) == Num(0.0)
    ensures SafeRatio(credited, enrolled) == Num(0.0)
    ensures FilledProduct(SafeRatio(approved, enrolled), grade) == Num(0.0)
  {
  }

  /** Two tiers of the same bucketing differ by at most the top tier, and the
      disparity is symmetric in the parents (preprocess.py:606, 614). */
  lemma DisparityBounded(m: Cell, f: Cell)
    ensures AbsDiff(QualificationOrdinalOf(m), QualificationOrdinalOf(f)) ==
            AbsDiff(QualificationOrdinalOf(f), QualificationOrdinalOf(m))
    ensures AbsDiff(QualificationOrdinalOf(m), QualificationOrdinalOf(f)).Num? ==>
            AbsDiff(QualificationOrdinalOf(m), QualificationOrdinalOf(f)).x <= 4.0
    ensures AbsDiff(OccupationOrdinalOf(m), OccupationOrdinalOf(f)).Num? ==>
            AbsDiff(OccupationOrdinalOf(m), OccupationOrdinalOf(f)).x <= 5.0
  {
  }

  /** The parental average lies between the two tiers and hence within the
      tier range (preprocess.py:605, 613). */
  lemma AverageWithinTiers(m: Cell, f: Cell)
    ensures var avg := MeanSkipNaN(QualificationOrdinalOf(m), QualificationOrdinalOf(f));
      avg.Num? ==> 0.0 <= avg.x <= 4.0
    ensures var avg := MeanSkipNaN(OccupationOrdinalOf(m), OccupationOrdinalOf(f));
      avg.Num? ==> 0.0 <= avg.x <= 5.0
  {
  }

  /** The year identifies the epoch: two rows given the same year carry the
      same three indicators (preprocess.py:522-533). */
  lemma YearIdentifiesEpoch(u1: Cell, i1: Cell, g1: Cell, u2: Cell, i2: Cell, g2: Cell)
    requires YearOf(u1, i1, g1).Num? && YearOf(u1, i1, g1) == YearOf(u2, i2, g2)
    ensures u1 == u2 && i1 == i2 && g1 == g2
  {
    EconEpochs();
    var k1, k2 := (u1.x, i1.x, g1.x), (u2.x, i2.x, g2.x);
    assert EconToYear[k1] as real == EconToYear[k2] as real;
  }
}
