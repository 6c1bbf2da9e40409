/** The structured layer of a rendered table: what the HTML says, before it
    is spelled out as characters. */
module Table {

  import Text
  import opened Cells

  /** The body of the table: one list of cell texts per record, or the
      single placeholder row spanning `colspan` columns. */
  datatype Body = Records(rows: seq<seq<string>>) | NoRecords(colspan: nat)

  datatype TableView = TableView(title: string, header: seq<string>, body: Body)

  /** The body for a list of rows of `width` columns: the placeholder when
      there are no rows. */
  function Listing(rows: seq<seq<string>>, width: nat): (b: Body)
    ensures b.NoRecords? <==> |rows| == 0
    ensures b.NoRecords? ==> b.colspan == width
    ensures b.Records? ==> b.rows == rows
  {
    if |rows| == 0 then NoRecords(width) else Records(rows)
  }

  /** The table `render_table(title, columns, data)` describes: the labels as
      header, then one row of cell texts per data row, each with one cell per
      column in column order, or the placeholder when there is no data. */
  function Layout(title: string, columns: seq<string>, data: seq<Row>): (v: TableView)
    ensures v.title == title && v.header == columns
    ensures v.body.NoRecords? <==> |data| == 0
    ensures v.body.NoRecords? ==> v.body.colspan == |columns|
    ensures v.body.Records? ==>
              |v.body.rows| == |data|
              && forall i :: 0 <= i < |data| ==>
                   |v.body.rows[i]| == |columns|
                   && forall j :: 0 <= j < |columns| ==> v.body.rows[i][j] == CellText(data[i], columns[j])
  {
    TableView(title, columns,
              Listing(seq(|data|, i requires 0 <= i < |data| => RowTexts(data[i], columns)), |columns|))
  }

  /** Every text the table shows is free of '<'. */
  predicate PlainView(v: TableView) {
    && Text.Plain(v.title)
    && (forall j :: 0 <= j < |v.header| ==> Text.Plain(v.header[j]))
    && (v.body.Records? ==>
          forall i, j :: 0 <= i < |v.body.rows| && 0 <= j < |v.body.rows[i]| ==> Text.Plain(v.body.rows[i][j]))
  }
}
