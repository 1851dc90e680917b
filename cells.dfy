/** The content of one cell of a data frame. A number (pandas stores counts,
    codes and grades as int64 or float64) is `Num` over the reals; pandas'
    missing value (NaN, None, pd.NA) is `NaN`; a label such as the outcome
    "Graduate" is `Text`. */
module Cells {

  datatype Cell = Num(x: real) | NaN | Text(s: string)

  /** A column pandas arithmetic accepts: no text (text raises TypeError). */
  predicate NumericColumn(cells: seq<Cell>) {
    forall i :: 0 <= i < |cells| ==> !cells[i].Text?
  }
}
