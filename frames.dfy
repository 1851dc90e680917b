/** Data frames as the pipelines see them: a row count and, for each column
    label, the column's cells from the first row to the last. pandas keeps
    the columns in an order; the order is not modelled (every model the
    frames are fed to selects its columns by label). */
module Frames {
  import opened Cells
  import opened Columns
  import opened Wrappers

  datatype Frame = Frame(n: nat, data: map<Col, seq<Cell>>) {

    /** Every column has one cell per row. */
    predicate Valid() {
      forall c :: c in data ==> |data[c]| == n
    }
  }

  /** `df[c] = cells`: adds the column, or overwrites it when present. */
  function SetColumn(df: Frame, c: Col, cells: seq<Cell>): (r: Frame)
    requires |cells| == df.n
    ensures df.Valid() ==> r.Valid()
  {
    Frame(df.n, df.data[c := cells])
  }

  /** `df.drop(c, axis=1)`, which raises KeyError when the column is absent. */
  function DropColumn(df: Frame, c: Col): (r: Frame)
    requires c in df.data
    ensures df.Valid() ==> r.Valid()
  {
    Frame(df.n, df.data - {c})
  }

  /** The column a label comes from under the rename: the label itself when
      the frame has it, otherwise the original header it is the renaming of. */
  function RenameSource(labels: set<Col>, c: Col): Col {
    if c in labels then c
    else if 0 <= EntryIndex(c) < |OriginalHeaders| then Header(OriginalHeaders[EntryIndex(c)])
    else c
  }

  /** Under RenameDefined, RenameSource undoes the rename of every label of the frame. */
  lemma RenameSourceInverts(labels: set<Col>, c: Col)
    requires RenameDefined(labels) && c in labels
    ensures RenameSource(labels, RenameCol(c)) == c
  {
    if RenameCol(c) != c {
      assert c.Header? && ConversionDict(c.text) == Some(RenameCol(c));
    }
  }

  /** `df.rename(columns=conversion_dict)`: every original header is replaced
      by its canonical label and every column keeps its cells. */
  function Rename(df: Frame): (r: Frame)
    requires RenameDefined(df.data.Keys)
    ensures r.n == df.n
    ensures forall c :: c in r.data <==> exists k :: k in df.data && RenameCol(k) == c
    ensures forall k :: k in df.data ==> RenameCol(k) in r.data && r.data[RenameCol(k)] == df.data[k]
    ensures df.Valid() ==> r.Valid()
  {
    var labels := set k | k in df.data :: RenameCol(k);
    var r := Frame(df.n, map c | c in labels :: df.data[RenameSource(df.data.Keys, c)]);
    assert forall k :: k in df.data ==> RenameCol(k) in labels && RenameSource(df.data.Keys, RenameCol(k)) == k by {
      forall k | k in df.data
        ensures RenameCol(k) in labels && RenameSource(df.data.Keys, RenameCol(k)) == k
      {
        RenameSourceInverts(df.data.Keys, k);
      }
    }
    r
  }

  /** The values a column takes, missing values excluded: the codes
      `pd.get_dummies` makes indicator columns for. */
  function Observed(cells: seq<Cell>): set<Cell> {
    set i | 0 <= i < |cells| && !cells[i].NaN? :: cells[i]
  }

  /** The 0/1 column marking the rows that hold `v`. */
  function Indicate(cells: seq<Cell>, v: Cell): (r: seq<Cell>)
    ensures |r| == |cells|
    ensures forall i :: 0 <= i < |cells| ==> r[i] == if cells[i] == v then Num(1.0) else Num(0.0)
  {
    seq(|cells|, i requires 0 <= i < |cells| => if cells[i] == v then Num(1.0) else Num(0.0))
  }

  /** The labels of the indicator columns for the observed values of `c`. */
  function IndicatorLabels(c: Col, cells: seq<Cell>): set<Col> {
    set v | v in Observed(cells) :: Indicator(c, v)
  }

  /** `pd.get_dummies(df, columns=[c], drop_first=False, dtype=int)`: column
      `c` is removed and replaced by one 0/1 column per value observed in it
      (missing values get none); every other column is kept. */
  function GetDummies(df: Frame, c: Col): (r: Frame)
    requires df.Valid() && c in df.data
    ensures r.n == df.n && r.Valid()
    ensures c !in r.data
    ensures forall k :: k in df.data && k != c ==> k in r.data
    ensures forall k :: k in r.data && k !in IndicatorLabels(c, df.data[c]) ==> k in df.data && r.data[k] == df.data[k]
    ensures forall v :: v in Observed(df.data[c]) ==>
      Indicator(c, v) in r.data && r.data[Indicator(c, v)] == Indicate(df.data[c], v)
  {
    Frame(df.n, (df.data - {c}) + Dummies(c, df.data[c]))
  }

  /** The indicator columns `pd.get_dummies` adds for column `c`. */
  function Dummies(c: Col, cells: seq<Cell>): (r: map<Col, seq<Cell>>)
    ensures r.Keys == IndicatorLabels(c, cells)
    ensures forall k :: k in r ==> k.Indicator? && k.source == c && |r[k]| == |cells|
  {
    map k | k in IndicatorLabels(c, cells) :: Indicate(cells, k.code)
  }

  /** The columns of `m` whose labels are in `cols`. */
  function Restrict(m: map<Col, seq<Cell>>, cols: set<Col>): (r: map<Col, seq<Cell>>)
    ensures r.Keys == m.Keys * cols
    ensures forall k :: k in r ==> r[k] == m[k]
  {
    map k | k in m && k in cols :: m[k]
  }

  /** Dropping keys after a merge that does not bring them back is dropping
      them before it. */
  lemma DropThenMerge<K, V>(m: map<K, V>, a: set<K>, q: map<K, V>, b: set<K>)
    requires q.Keys !! b
    ensures ((m - a) + q) - b == (m - (a + b)) + q
  {
  }

  /** Dropping two key sets one after the other is dropping their union. */
  lemma DropTwice<K, V>(m: map<K, V>, a: set<K>, b: set<K>)
    ensures (m - a) - b == m - (a + b)
  {
  }

  /** A key neither dropped nor merged keeps its value. */
  lemma MergeLookup<K, V>(m: map<K, V>, d: set<K>, q: map<K, V>, k: K)
    requires k in m && k !in d && k !in q
    ensures k in (m - d) + q && ((m - d) + q)[k] == m[k]
  {
  }

  /** Merges of maps with disjoint keys can be swapped. */
  lemma MergeSwap<K, V>(x: map<K, V>, y: map<K, V>, z: map<K, V>)
    requires y.Keys !! z.Keys
    ensures (x + y) + z == (x + z) + y
  {
  }

  /** Map merges are associative. */
  lemma MergeAssoc<K, V>(x: map<K, V>, y: map<K, V>, z: map<K, V>)
    ensures (x + y) + z == x + (y + z)
  {
  }

  /** A cell-wise function applied down one column. */
  function Map1(f: Cell --> Cell, a: seq<Cell>): (r: seq<Cell>)
    requires forall i :: 0 <= i < |a| ==> f.requires(a[i])
    ensures |r| == |a| && forall i :: 0 <= i < |a| ==> r[i] == f(a[i])
  {
    seq(|a|, i requires 0 <= i < |a| => f(a[i]))
  }

  /** A cell-wise function applied row by row to two aligned columns. */
  function Map2(f: (Cell, Cell) --> Cell, a: seq<Cell>, b: seq<Cell>): (r: seq<Cell>)
    requires |a| == |b|
    requires forall i :: 0 <= i < |a| ==> f.requires(a[i], b[i])
    ensures |r| == |a| && forall i :: 0 <= i < |a| ==> r[i] == f(a[i], b[i])
  {
    seq(|a|, i requires 0 <= i < |a| => f(a[i], b[i]))
  }

  /** A cell-wise function applied row by row to three aligned columns. */
  function Map3(f: (Cell, Cell, Cell) --> Cell, a: seq<Cell>, b: seq<Cell>, c: seq<Cell>): (r: seq<Cell>)
    requires |a| == |b| == |c|
    requires forall i :: 0 <= i < |a| ==> f.requires(a[i], b[i], c[i])
    ensures |r| == |a| && forall i :: 0 <= i < |a| ==> r[i] == f(a[i], b[i], c[i])
  {
    seq(|a|, i requires 0 <= i < |a| => f(a[i], b[i], c[i]))
  }

  /** In every row, the indicators of `c` hold exactly one 1 (in the column of
      the row's value) when the row's value is present, and none when it is
      missing. */
  lemma {:induction false} OneHotRow(df: Frame, c: Col, i: int)
    requires df.Valid() && c in df.data && 0 <= i < df.n
    ensures var r := GetDummies(df, c); var v := df.data[c][i];
      forall w :: w in Observed(df.data[c]) ==>
        (r.data[Indicator(c, w)][i] == Num(1.0) <==> w == v)
    ensures var r := GetDummies(df, c); var v := df.data[c][i];
      !v.NaN? ==> Indicator(c, v) in r.data && r.data[Indicator(c, v)][i] == Num(1.0)
  {
    var cells := df.data[c];
    if !cells[i].NaN? {
      assert cells[i] in Observed(cells);
    }
  }
}
