/** The HTML serialiser: `render_table` and `render_page` written out
    character for character, including the indentation of the Python
    code's triple-quoted templates. Cell values are interpolated as they are, with
    no HTML escaping.

    Concatenations are grouped to the right so that the text after each
    fixed piece is a subterm, which is how the parser peels it off. */
module Render {

  import opened Text
  import opened Cells
  import opened Table

  datatype CellTag = Th | Td {
    function Open(): string {
      if Th? then "<th>" else "<td>"
    }
    function Close(): string {
      if Th? then "</th>" else "</td>"
    }
  }

  // Fixed pieces of the render_table template, in order.
  const Indent: string := "\n    "
  const HeadingOpen: string := "<h1>"
  const HeadingClose: string := "</h1>"
  const TableStart: string := "\n    <table class='data-table'>\n      <thead>\n        <tr>"
  const AfterHeader: string := "</tr>\n      </thead>\n      <tbody>\n        "
  const TableEnd: string := "\n      </tbody>\n    </table>\n    "
  const BackLink: string := "<p><a href='/'>Back to Home</a></p>"
  const TableClose: string := TableEnd + (BackLink + Indent)

  // The placeholder row around its column count.
  const PlaceholderOpen: string := "<tr><td colspan=\""
  const PlaceholderClose: string := "\">No records available.</td></tr>"

  // Fixed pieces of the render_page template, in order.
  const PageTop: string := "\n    <!DOCTYPE html>\n    <html lang=\"en\">\n    <head>\n      <meta charset=\"UTF-8\">\n      <meta name=\"viewport\" content=\"width=device-width, initial-scale=1.0\">\n      "
  const TitleOpen: string := "<title>"
  const PageHead: string := PageTop + TitleOpen
  const Stylesheet: string := JoinLines(StyleLines)
  const StyleLines: seq<string> := [
    "      <style>",
    "          body {",
    "              font-family: 'Segoe UI', Tahoma, Geneva, Verdana, sans-serif;",
    "              background-color: #f4f4f4;",
    "              padding: 20px;",
    "          }",
    "          h1 {",
    "              color: #333;",
    "              text-align: center;",
    "          }",
    "          table.data-table {",
    "              width: 80%;",
    "              margin: 20px auto;",
    "              border-collapse: collapse;",
    "          }",
    "          table.data-table th, table.data-table td {",
    "              border: 1px solid #ccc;",
    "              padding: 10px;",
    "              text-align: left;",
    "          }",
    "          table.data-table th {",
    "              background-color: #007BFF;",
    "              color: #fff;",
    "          }",
    "          a {",
    "              display: block;",
    "              width: 150px;",
    "              margin: 20px auto;",
    "              text-align: center;",
    "              text-decoration: none;",
    "              padding: 10px;",
    "              background-color: #007BFF;",
    "              color: #fff;",
    "              border-radius: 5px;",
    "          }",
    "          a:hover {",
    "              background-color: #0056b3;",
    "          }",
    "      </style>"
  ]
  const TitleClose: string := "</title>"
  const PageMiddle: string := "\n" + Stylesheet + "\n    </head>\n    <body>\n      "
  const AfterPageTitle: string := TitleClose + PageMiddle
  const PageEnd: string := "\n    </body>\n    </html>\n    "

  /** `lines` joined by line breaks. */
  function JoinLines(lines: seq<string>): (r: string) {
    if |lines| == 0 then "" else if |lines| == 1 then lines[0] else lines[0] + "\n" + JoinLines(lines[1..])
  }

  /** `texts` as cells of kind `tag`, followed by `tail`. */
  function CellsOnto(texts: seq<string>, tag: CellTag, tail: string): (r: string) {
    if |texts| == 0 then tail
    else tag.Open() + (texts[0] + (tag.Close() + CellsOnto(texts[1..], tag, tail)))
  }

  /** `"".join([f"<th>{x}</th>" for x in texts])`, and likewise for `<td>`. */
  function CellsHtml(texts: seq<string>, tag: CellTag): (r: string) {
    CellsOnto(texts, tag, "")
  }

  /** One data row: `f"<tr>{row_html}</tr>"`. */
  function RowHtml(row: Row, columns: seq<string>): (r: string) {
    "<tr>" + (CellsHtml(RowTexts(row, columns), Td) + "</tr>")
  }

  /** The `rows` string once the loop over `data` has run. */
  function RowsHtml(data: seq<Row>, columns: seq<string>): (r: string) {
    if |data| == 0 then "" else RowHtml(data[0], columns) + RowsHtml(data[1..], columns)
  }

  /** The placeholder row spanning `width` columns. */
  function NoDataRow(width: nat): (r: string) {
    PlaceholderOpen + (NatToString(width) + PlaceholderClose)
  }

  /** The render_table template with its three holes filled. */
  function Frame(title: string, header: string, body: string): (r: string) {
    Indent + (HeadingOpen + (title + (HeadingClose + (TableStart + (header + (AfterHeader + (body + TableClose)))))))
  }

  /** `render_table(title, columns, data)`. The placeholder is chosen by
      testing the accumulated `rows` string for emptiness, as the Python
      code does, not by testing `data`; the result is the serialisation of the
      structured table `Layout` describes. */
  function RenderTable(title: string, columns: seq<string>, data: seq<Row>): (r: string)
    ensures r == Serialize(Layout(title, columns, data))
  {
    RowsHtmlIsRowsOf(data, columns);
    assert Layout(title, columns, data).body == Listing(DataTexts(data, columns), |columns|);
    var header := CellsHtml(columns, Th);
    var rows := RowsHtml(data, columns);
    var noDataRow := NoDataRow(|columns|);
    Frame(title, header, if |rows| > 0 then rows else noDataRow)
  }

  /** `render_page(content, title)`: whatever the content, the page shows
      the title inside `<title>` and embeds the content unchanged. */
  function RenderPage(content: string, title: string := "HKRN Data"): (r: string)
    ensures Infix(TitleOpen + title + TitleClose, r)
    ensures Infix(content, r)
  {
    SurroundedInfix(PageTop, TitleOpen, title, TitleClose, PageMiddle, content + PageEnd);
    PlacedInfix(PageHead, title, AfterPageTitle, content, PageEnd);
    PageHead + (title + (AfterPageTitle + (content + PageEnd)))
  }

  // ---------------------------------------------------------------------
  // Serialising the structured layer
  // ---------------------------------------------------------------------

  /** Structured body rows, followed by `tail`. */
  function RowsOnto(rows: seq<seq<string>>, tail: string): (r: string) {
    if |rows| == 0 then tail
    else "<tr>" + CellsOnto(rows[0], Td, "</tr>" + RowsOnto(rows[1..], tail))
  }

  function BodyHtml(b: Body): (r: string) {
    match b
    case Records(rows) => RowsOnto(rows, "")
    case NoRecords(n) => NoDataRow(n)
  }

  function Serialize(v: TableView): (r: string) {
    Frame(v.title, CellsHtml(v.header, Th), BodyHtml(v.body))
  }

  // ---------------------------------------------------------------------
  // The two layers agree
  // ---------------------------------------------------------------------

  lemma Regroup(a: string, b: string, c: string, d: string)
    ensures (a + (b + c)) + d == a + (b + (c + d))
  {
  }

  /** The concatenation of `parts`, in order. */
  function Concat(parts: seq<string>): (r: string) {
    if |parts| == 0 then "" else parts[0] + Concat(parts[1..])
  }

  /** The cell `f"<th>{x}</th>"` (or `<td>`) for one text. */
  function Cell(x: string, tag: CellTag): (r: string) {
    tag.Open() + x + tag.Close()
  }

  /** A run of cells is the concatenation of one `tag` cell per text, in
      order, as render_table's list comprehension and join build it. */
  lemma {:induction false} CellsHtmlIsJoin(texts: seq<string>, tag: CellTag)
    ensures CellsHtml(texts, tag) == Concat(seq(|texts|, j requires 0 <= j < |texts| => Cell(texts[j], tag)))
    decreases |texts|
  {
    var parts := seq(|texts|, j requires 0 <= j < |texts| => Cell(texts[j], tag));
    if |texts| > 0 {
      CellsHtmlIsJoin(texts[1..], tag);
      assert parts[1..] == seq(|texts| - 1, j requires 0 <= j < |texts| - 1 => Cell(texts[1..][j], tag));
      Regroup(tag.Open(), texts[0], tag.Close(), CellsHtml(texts[1..], tag));
    }
  }

  lemma {:induction false} CellsOntoAppend(texts: seq<string>, tag: CellTag, tail: string)
    ensures CellsOnto(texts, tag, tail) == CellsHtml(texts, tag) + tail
    decreases |texts|
  {
    if |texts| > 0 {
      CellsOntoAppend(texts[1..], tag, tail);
      var rest := CellsHtml(texts[1..], tag);
      Regroup(texts[0], tag.Close(), rest, tail);
      Regroup(tag.Open(), texts[0], tag.Close() + rest, tail);
    }
  }

  lemma {:induction false} RowsOntoAppend(rows: seq<seq<string>>, tail: string)
    ensures RowsOnto(rows, tail) == RowsOnto(rows, "") + tail
    decreases |rows|
  {
    if |rows| > 0 {
      var rest := RowsOnto(rows[1..], "");
      RowsOntoAppend(rows[1..], tail);
      CellsOntoAppend(rows[0], Td, "</tr>" + rest);
      CellsOntoAppend(rows[0], Td, "</tr>" + (rest + tail));
      var cells := CellsHtml(rows[0], Td);
      Regroup("<tr>", cells, "</tr>" + rest, tail);
    }
  }

  lemma {:induction false} RowsHtmlAppend(a: seq<Row>, b: seq<Row>, columns: seq<string>)
    ensures RowsHtml(a + b, columns) == RowsHtml(a, columns) + RowsHtml(b, columns)
    decreases |a|
  {
    if |a| > 0 {
      assert (a + b)[1..] == a[1..] + b;
      RowsHtmlAppend(a[1..], b, columns);
    } else {
      assert a + b == b;
    }
  }

  lemma Reassociate(w: string, a: string, b: string, c: string)
    ensures w + a + b + c == w + (a + (b + c))
  {
  }

  lemma RowsHtmlSnoc(data: seq<Row>, row: Row, columns: seq<string>)
    ensures RowsHtml(data + [row], columns) == RowsHtml(data, columns) + RowHtml(row, columns)
  {
    RowsHtmlAppend(data, [row], columns);
    assert [row][1..] == [];
    assert RowsHtml([row], columns) == RowHtml(row, columns) + "";
  }

  /** The texts of the body rows the structured layer holds for `data`. */
  function DataTexts(data: seq<Row>, columns: seq<string>): (r: seq<seq<string>>)
    ensures |r| == |data|
  {
    seq(|data|, i requires 0 <= i < |data| => RowTexts(data[i], columns))
  }

  /** Rendering the rows straight from the dictionaries gives the text of
      the structured rows; it is empty exactly when there are no rows. */
  lemma {:induction false} RowsHtmlIsRowsOf(data: seq<Row>, columns: seq<string>)
    ensures RowsHtml(data, columns) == RowsOnto(DataTexts(data, columns), "")
    ensures |RowsHtml(data, columns)| == 0 <==> |data| == 0
    decreases |data|
  {
    var texts := DataTexts(data, columns);
    if |data| > 0 {
      RowsHtmlIsRowsOf(data[1..], columns);
      assert texts[1..] == DataTexts(data[1..], columns);
      var rest := RowsOnto(texts[1..], "");
      CellsOntoAppend(texts[0], Td, "</tr>" + rest);
      Regroup("<tr>", CellsHtml(texts[0], Td), "</tr>", rest);
    }
  }

  /** The accumulating loop of render_table: it appends one `<tr>` per data
      row, giving the text of the structured rows, and is empty exactly
      when there is no data, so testing the string (as render_table does)
      chooses the placeholder exactly when the data is empty. */
  method RenderRows(data: seq<Row>, columns: seq<string>) returns (rows: string)
    ensures rows == RowsOnto(DataTexts(data, columns), "")
    ensures |rows| == 0 <==> |data| == 0
  {
    rows := "";
    for i := 0 to |data|
      invariant rows == RowsHtml(data[..i], columns)
    {
      var rowHtml := CellsHtml(RowTexts(data[i], columns), Td);
      ghost var before := rows;
      rows := rows + "<tr>" + rowHtml + "</tr>";
      assert rows == before + RowHtml(data[i], columns) by {
        Reassociate(before, "<tr>", rowHtml, "</tr>");
      }
      assert data[..i + 1] == data[..i] + [data[i]];
      RowsHtmlSnoc(data[..i], data[i], columns);
    }
    assert data[..|data|] == data;
    RowsHtmlIsRowsOf(data, columns);
  }

  // ---------------------------------------------------------------------
  // What every rendered table shows, whatever its data
  // ---------------------------------------------------------------------

  /** `needle` occurs in `hay` starting at index `k`. */
  predicate IsAt(needle: string, hay: string, k: int) {
    0 <= k && k + |needle| <= |hay| && hay[k..k + |needle|] == needle
  }

  /** `needle` occurs somewhere in `hay`. */
  ghost predicate Infix(needle: string, hay: string) {
    exists k :: IsAt(needle, hay, k)
  }

  lemma IsAtShift(needle: string, a: string, b: string, k: int)
    requires IsAt(needle, b, k)
    ensures IsAt(needle, a + b, |a| + k)
  {
    assert (a + b)[|a| + k..|a| + k + |needle|] == b[k..k + |needle|];
  }

  lemma IsAtStart(x: string, y: string, z: string, rest: string)
    ensures IsAt(x + y + z, x + (y + (z + rest)), 0)
  {
    assert (x + (y + (z + rest)))[..|x| + |y| + |z|] == x + y + z;
  }

  /** Whatever the data, the table shows its title as the `<h1>` heading. */
  lemma TableHeading(title: string, columns: seq<string>, data: seq<Row>)
    ensures Infix("<h1>" + title + "</h1>", RenderTable(title, columns, data))
  {
    var rows := RowsHtml(data, columns);
    FrameHeading(title, CellsHtml(columns, Th), if |rows| > 0 then rows else NoDataRow(|columns|));
  }

  lemma FrameHeading(title: string, header: string, body: string)
    ensures Infix("<h1>" + title + "</h1>", Frame(title, header, body))
  {
    var tail := TableStart + (header + (AfterHeader + (body + TableClose)));
    IsAtStart(HeadingOpen, title, HeadingClose, tail);
    IsAtShift("<h1>" + title + "</h1>", Indent, HeadingOpen + (title + (HeadingClose + tail)), 0);
  }

  /** `hay` ends with `suffix`. */
  predicate EndsWith(hay: string, suffix: string) {
    |suffix| <= |hay| && hay[|hay| - |suffix|..] == suffix
  }

  lemma EndsWithPrefixed(a: string, hay: string, suffix: string)
    requires EndsWith(hay, suffix)
    ensures EndsWith(a + hay, suffix)
  {
    assert (a + hay)[|a + hay| - |suffix|..] == hay[|hay| - |suffix|..];
  }

  /** Whatever the data, the table ends with the link back to the home
      page followed only by the closing indentation. */
  lemma TableBackLink(title: string, columns: seq<string>, data: seq<Row>)
    ensures EndsWith(RenderTable(title, columns, data), BackLink + Indent)
  {
    var rows := RowsHtml(data, columns);
    var body := if |rows| > 0 then rows else NoDataRow(|columns|);
    FrameBackLink(title, CellsHtml(columns, Th), body, RenderTable(title, columns, data));
  }

  lemma FrameBackLink(title: string, header: string, body: string, r: string)
    requires r == Frame(title, header, body)
    ensures EndsWith(r, BackLink + Indent)
  {
    var x := BackLink + Indent;
    assert EndsWith(x, x);
    EndsWithPrefixed(TableEnd, x, x);
    EndsWithPrefixed(body, TableClose, x);
    EndsWithPrefixed(AfterHeader, body + TableClose, x);
    var x2 := AfterHeader + (body + TableClose);
    EndsWithPrefixed(header, x2, x);
    EndsWithPrefixed(TableStart, header + x2, x);
    var x4 := TableStart + (header + x2);
    EndsWithPrefixed(HeadingClose, x4, x);
    EndsWithPrefixed(title, HeadingClose + x4, x);
    var x6 := title + (HeadingClose + x4);
    EndsWithPrefixed(HeadingOpen, x6, x);
    EndsWithPrefixed(Indent, HeadingOpen + x6, x);
  }

  lemma SurroundedInfix(p: string, o: string, t: string, c: string, m: string, y: string)
    ensures Infix(o + t + c, (p + o) + (t + ((c + m) + y)))
  {
    IsAtStart(o, t, c, m + y);
    IsAtShift(o + t + c, p, o + (t + (c + (m + y))), 0);
    assert (p + o) + (t + ((c + m) + y)) == p + (o + (t + (c + (m + y))));
  }

  lemma PlacedInfix(a: string, b: string, c: string, x: string, d: string)
    ensures Infix(x, a + (b + (c + (x + d))))
  {
    assert IsAt(x, x + d, 0);
    IsAtShift(x, c, x + d, 0);
    IsAtShift(x, b, c + (x + d), |c|);
    IsAtShift(x, a, b + (c + (x + d)), |b| + |c|);
  }
}
