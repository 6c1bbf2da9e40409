/** Cell values and the text a table cell shows for them.

    A row handed to the table renderer is a Python dict from column label to
    value; a cell is filled with `row.get(col, '')` interpolated into an
    f-string, that is with Python's `str` of the value. */
module Cells {

  import opened Wrappers
  import opened Text

  /** The values the projections put in a row: text, an integer id, or a
      NULL column read back as Python's `None`. */
  datatype CellValue = Str(s: string) | Int(n: int) | Null

  type Row = map<string, CellValue>

  /** Python's `str(v)`. A NULL column is shown as the word "None". */
  function Show(v: CellValue): (r: string)
    ensures v.Str? ==> r == v.s
    ensures v.Int? ==> ParseInt(r) == Some(v.n)
    ensures r == "" <==> v == Str("")
    ensures !v.Str? ==> Plain(r)
    ensures v.Null? ==> r == "None"
  {
    match v
    case Str(s) => s
    case Int(n) => IntToStringRoundTrip(n); IntToString(n)
    case Null => "None"
  }

  /** The text of the cell for column `col` of `row`: `row.get(col, '')`.
      Only a missing key yields an empty cell from something other than an
      empty string; a key present with a NULL value shows "None". */
  function CellText(row: Row, col: string): (r: string)
    ensures col in row ==> r == Show(row[col])
    ensures r == "" <==> col !in row || row[col] == Str("")
  {
    if col in row then Show(row[col]) else ""
  }

  /** The texts of one body row, one per column, in column order. */
  function RowTexts(row: Row, columns: seq<string>): (r: seq<string>)
    ensures |r| == |columns|
    ensures forall j :: 0 <= j < |columns| ==> r[j] == CellText(row, columns[j])
  {
    seq(|columns|, j requires 0 <= j < |columns| => CellText(row, columns[j]))
  }

  /** A NULL value is not the same as a missing key: the first shows the
      word "None", the second an empty cell. */
  lemma NullIsNotBlank(row: Row, col: string)
    requires col in row && row[col] == Null
    ensures CellText(row, col) == "None"
    ensures CellText(row - {col}, col) == ""
  {
  }
}
