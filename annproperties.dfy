/** What the frame annPreProc returns (AnnFeatures) says about the columns
    of rfPreProc's frame it is built on: which columns it keeps, which it
    scales and to what range, and how its indicator columns encode the
    nominal ones. */
module AnnProperties {
  import opened Cells
  import opened Columns
  import opened Frames
  import opened Scaling
  import opened AnnScaling
  import opened Derivation
  import opened AnnSpec

  /** The position of a nominal column in the order annPreProc encodes them. */
  function NominalIndex(c: Col): (i: nat)
    requires c in NominalColumns
    ensures i < 7 && NominalAt(i) == c
  {
    if c == MaritalStatus then 0
    else if c == ApplicationMode then 1
    else if c == Course then 2
    else if c == DaytimeEveningAttendance then 3
    else if c == Nationality then 4
    else if c == Gender then 5
    else 6
  }

  /** The seven nominal columns are distinct. */
  lemma NominalAtInjective(i: nat, j: nat)
    requires i < 7 && j < 7 && i != j
    ensures NominalAt(i) != NominalAt(j)
  {
  }

  /** The indicator columns of the first `k` nominal columns hold none of a
      later nominal column. */
  lemma {:induction false} OneHotAbsent(v: Frame, k: nat, i: nat, w: Cell)
    requires k <= i < 7
    ensures Indicator(NominalAt(i), w) !in OneHot(v, k)
  {
    if k > 0 {
      OneHotAbsent(v, k - 1, i, w);
      NominalAtInjective(k - 1, i);
    }
  }

  /** Among the indicator columns of the first `k` nominal columns, those of
      the `i`-th are the ones get_dummies made from it. */
  lemma {:induction false} OneHotLookup(v: Frame, k: nat, i: nat, w: Cell)
    requires i < k <= 7 && NominalAt(i) in v.data
    ensures var c := NominalAt(i); var key := Indicator(c, w);
      (key in OneHot(v, k) <==> key in Dummies(c, v.data[c])) &&
      (key in OneHot(v, k) ==> OneHot(v, k)[key] == Dummies(c, v.data[c])[key])
  {
    var key := Indicator(NominalAt(i), w);
    if k - 1 == i {
      OneHotAbsent(v, i, i, w);
    } else {
      OneHotLookup(v, k - 1, i, w);
      NominalAtInjective(k - 1, i);
    }
  }

  /** The frame annPreProc returns, over the columns `m` of rfPreProc's frame
      and the indicator columns `o`: the columns of `m` other than the
      nominal ones, scaled, with the indicator columns `o` merged in. */
  function Finished(n: nat, stored: map<Col, Scaler>, m: map<Col, seq<Cell>>, o: map<Col, seq<Cell>>): map<Col, seq<Cell>> {
    Scale(n, stored, m - NominalColumns) + o
  }

  lemma FinishedKeys(n: nat, stored: map<Col, Scaler>, m: map<Col, seq<Cell>>, o: map<Col, seq<Cell>>)
    ensures Finished(n, stored, m, o).Keys == (m.Keys - NominalColumns) + o.Keys
  {
  }

  /** No nominal column is left when the indicator columns carry indicator
      labels only. */
  lemma FinishedNoNominal(n: nat, stored: map<Col, Scaler>, m: map<Col, seq<Cell>>, o: map<Col, seq<Cell>>)
    requires forall k :: k in o ==> k.Indicator?
    ensures forall c :: c in NominalColumns ==> c !in Finished(n, stored, m, o)
  {
  }

  /** A column of `m` that is neither nominal nor an indicator label is
      scaled or kept, as Scaled says. */
  lemma FinishedLookup(n: nat, stored: map<Col, Scaler>, m: map<Col, seq<Cell>>, o: map<Col, seq<Cell>>, c: Col)
    requires c in m && c !in NominalColumns && c !in o
    ensures c in Finished(n, stored, m, o)
    ensures Finished(n, stored, m, o)[c] == if Scaled(c) then ScaleOne(n, stored, c, m[c]) else m[c]
  {
  }

  /** An indicator column holds what the encoding made. */
  lemma FinishedIndicator(n: nat, stored: map<Col, Scaler>, m: map<Col, seq<Cell>>, o: map<Col, seq<Cell>>, k: Col)
    requires k in o
    ensures k in Finished(n, stored, m, o) && Finished(n, stored, m, o)[k] == o[k]
  {
  }

  /** With a row count other than one, no column is scaled with a stored scaler. */
  lemma ScaleIgnoresStore(n: nat, s1: map<Col, Scaler>, s2: map<Col, Scaler>, q: map<Col, seq<Cell>>)
    requires n != 1
    ensures Scale(n, s1, q) == Scale(n, s2, q)
  {
    forall c | c in q
      ensures Scale(n, s1, q)[c] == Scale(n, s2, q)[c]
    {
    }
  }

  /** A scaled column is neither nominal nor an indicator. */
  lemma ScaledPlain(c: Col)
    requires Scaled(c)
    ensures c !in NominalColumns && !c.Indicator?
  {
  }

  /** AnnFeatures is the last layer over rfPreProc's frame and the indicators. */
  lemma AnnFinished(v: Frame, stored: map<Col, Scaler>)
    requires AnnReady(v)
    ensures AnnFeatures(v, stored).data == Finished(v.n, stored, DeriveFeatures(v).data, OneHotColumns(v))
  {
  }

  /** The frame annPreProc returns has the columns of rfPreProc's frame
      without the nominal ones, and the indicator columns. */
  lemma AnnColumns(v: Frame, stored: map<Col, Scaler>)
    requires AnnReady(v)
    ensures AnnFeatures(v, stored).data.Keys == (DeriveFeatures(v).data.Keys - NominalColumns) + OneHotColumns(v).Keys
    ensures forall c :: c in NominalColumns ==> c !in AnnFeatures(v, stored).data
  {
    AnnFinished(v, stored);
    FinishedKeys(v.n, stored, DeriveFeatures(v).data, OneHotColumns(v));
    FinishedNoNominal(v.n, stored, DeriveFeatures(v).data, OneHotColumns(v));
  }

  /** A column of rfPreProc's frame that annPreProc neither encodes nor
      scales (and that is not an indicator label) holds the same cells. */
  lemma AnnKeepsUnscaled(v: Frame, stored: map<Col, Scaler>, c: Col)
    requires AnnReady(v) && c in DeriveFeatures(v).data
    requires c !in NominalColumns && !Scaled(c) && !c.Indicator?
    ensures var r := AnnFeatures(v, stored).data; c in r && r[c] == DeriveFeatures(v).data[c]
  {
    AnnFinished(v, stored);
    FinishedLookup(v.n, stored, DeriveFeatures(v).data, OneHotColumns(v), c);
  }

  /** A column annPreProc scales holds the scaled cells of rfPreProc's
      column, so each derived column is computed before it is scaled. */
  lemma AnnScalesDerived(v: Frame, stored: map<Col, Scaler>, c: Col)
    requires AnnReady(v) && c in DeriveFeatures(v).data && Scaled(c)
    ensures var r := AnnFeatures(v, stored).data;
      c in r && r[c] == ScaleOne(v.n, stored, c, DeriveFeatures(v).data[c])
  {
    ScaledPlain(c);
    AnnFinished(v, stored);
    FinishedLookup(v.n, stored, DeriveFeatures(v).data, OneHotColumns(v), c);
  }

  /** With several rows, every present value of a scaled column that holds
      no text ends up in [0, 1]. */
  lemma AnnUnitRange(v: Frame, stored: map<Col, Scaler>, c: Col, i: int)
    requires AnnReady(v) && v.n > 1 && c in DeriveFeatures(v).data && Scaled(c)
    requires NumericColumn(DeriveFeatures(v).data[c])
    requires 0 <= i < |DeriveFeatures(v).data[c]| && DeriveFeatures(v).data[c][i].Num?
    ensures var r := AnnFeatures(v, stored).data;
      c in r && i < |r[c]| && r[c][i].Num? && 0.0 <= r[c][i].x <= 1.0
  {
    AnnScalesDerived(v, stored, c);
    FitTransformUnitRange(DeriveFeatures(v).data[c], i);
  }

  /** With several rows the store plays no part: every scaler is fitted on
      the frame itself. */
  lemma AnnIgnoresStore(v: Frame, s1: map<Col, Scaler>, s2: map<Col, Scaler>)
    requires AnnReady(v) && v.n != 1
    ensures AnnFeatures(v, s1) == AnnFeatures(v, s2)
  {
    ScaleIgnoresStore(v.n, s1, s2, DeriveFeatures(v).data - NominalColumns);
  }

  /** A one-row frame is scaled with the stored scaler of the column, and a
      column without one is left as rfPreProc computes it. */
  lemma AnnSingleRow(v: Frame, stored: map<Col, Scaler>, c: Col)
    requires AnnReady(v) && v.n == 1 && c in DeriveFeatures(v).data && Scaled(c)
    requires NumericColumn(DeriveFeatures(v).data[c])
    ensures var r := AnnFeatures(v, stored).data; var d := DeriveFeatures(v).data;
      c in r && (c in stored ==> r[c] == TransformColumn(stored[c], d[c])) && (c !in stored ==> r[c] == d[c])
  {
    AnnScalesDerived(v, stored, c);
  }

  /** Each nominal column is replaced by one indicator column per value
      observed in it, marking the rows that hold that value. */
  lemma AnnIndicators(v: Frame, stored: map<Col, Scaler>, c: Col, w: Cell)
    requires AnnReady(v) && c in NominalColumns && w in Observed(v.data[c])
    ensures var r := AnnFeatures(v, stored).data;
      Indicator(c, w) in r && r[Indicator(c, w)] == Indicate(v.data[c], w)
  {
    var key := Indicator(c, w);
    OneHotLookup(v, 7, NominalIndex(c), w);
    assert key in IndicatorLabels(c, v.data[c]);
    AnnFinished(v, stored);
    FinishedIndicator(v.n, stored, DeriveFeatures(v).data, OneHotColumns(v), key);
  }

  /** In every row exactly the indicator of the row's value is 1, and none is
      when the value is missing. */
  lemma AnnOneHotRow(v: Frame, stored: map<Col, Scaler>, c: Col, i: int)
    requires AnnReady(v) && c in NominalColumns && c in v.data && 0 <= i < v.n
    ensures var r := AnnFeatures(v, stored).data; var cells := v.data[c];
      forall w :: w in Observed(cells) ==>
        Indicator(c, w) in r && |r[Indicator(c, w)]| == v.n && (r[Indicator(c, w)][i] == Num(1.0) <==> w == cells[i])
    ensures var r := AnnFeatures(v, stored).data; var cells := v.data[c];
      !cells[i].NaN? ==> Indicator(c, cells[i]) in r && |r[Indicator(c, cells[i])]| == v.n && r[Indicator(c, cells[i])][i] == Num(1.0)
  {
    var cells := v.data[c];
    forall w | w in Observed(cells)
      ensures var r := AnnFeatures(v, stored).data; Indicator(c, w) in r && r[Indicator(c, w)] == Indicate(cells, w)
    {
      AnnIndicators(v, stored, c, w);
    }
    if !cells[i].NaN? {
      assert cells[i] in Observed(cells);
    }
  }
}
