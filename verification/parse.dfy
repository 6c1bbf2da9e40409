/** A reader for the HTML the serialiser writes. It is the partner of the
    serialiser: it reads back exactly the tables whose texts contain no '<',
    which is what makes the row and cell counts of the structured layer
    claims about the characters. Because cell values are not escaped, a
    value that contains markup is read back as different rows or cells. */
module Parse {

  import opened Wrappers
  import opened Text
  import opened Table
  import opened Cells
  import opened Render

  /** The rest of `s` after the literal `lit`. */
  function Expect(s: string, lit: string): (r: Option<string>)
    ensures r.Some? <==> StartsWith(s, lit)
    ensures r.Some? ==> s == lit + r.value
  {
    if StartsWith(s, lit) then Some(s[|lit|..]) else None
  }

  lemma ExpectOf(lit: string, rest: string)
    ensures Expect(lit + rest, lit) == Some(rest)
  {
    assert (lit + rest)[..|lit|] == lit;
  }

  /** `s` without the literal `lit` it must end with. */
  function ExpectEnd(s: string, lit: string): (r: Option<string>)
    ensures r.Some? ==> s == r.value + lit
  {
    if |lit| <= |s| && s[|s| - |lit|..] == lit then
      var r := s[..|s| - |lit|];
      assert s == r + s[|s| - |lit|..];
      Some(r)
    else None
  }

  lemma ExpectEndOf(rest: string, lit: string)
    ensures ExpectEnd(rest + lit, lit) == Some(rest)
  {
    var s := rest + lit;
    assert s[|s| - |lit|..] == lit;
    assert s[..|s| - |lit|] == rest;
  }

  /** Reads one `tag` cell, given that `s` starts with its opening tag:
      its text runs up to the next '<', which must open the closing tag. */
  function ParseCell(s: string, tag: CellTag): (r: Option<(string, string)>)
    ensures r.Some? ==> Plain(r.value.0)
    ensures r.Some? ==> s == tag.Open() + (r.value.0 + (tag.Close() + r.value.1))
  {
    var body :- Expect(s, tag.Open());
    var n := TextSpan(body);
    var text := body[..n];
    assert body == text + body[n..];
    var after :- Expect(body[n..], tag.Close());
    Some((text, after))
  }

  /** Reads a run of `tag` cells and returns their texts and what follows. */
  function ParseCells(s: string, tag: CellTag): (r: Option<(seq<string>, string)>)
    ensures r.Some? ==> |r.value.1| <= |s|
    ensures r.Some? ==> s == CellsOnto(r.value.0, tag, r.value.1)
    ensures r.Some? ==> forall j :: 0 <= j < |r.value.0| ==> Plain(r.value.0[j])
    decreases |s|
  {
    if !StartsWith(s, tag.Open()) then Some(([], s))
    else
      var c :- ParseCell(s, tag);
      var p :- ParseCells(c.1, tag);
      var cells := [c.0] + p.0;
      assert cells[1..] == p.0;
      Some((cells, p.1))
  }

  /** Reads a run of `<tr>` rows of `<td>` cells. */
  function ParseRows(s: string): (r: Option<(seq<seq<string>>, string)>)
    ensures r.Some? ==> |r.value.1| <= |s|
    ensures r.Some? ==> s == RowsOnto(r.value.0, r.value.1)
    ensures r.Some? ==> forall i, j :: 0 <= i < |r.value.0| && 0 <= j < |r.value.0[i]| ==> Plain(r.value.0[i][j])
    decreases |s|
  {
    match Expect(s, "<tr>")
    case None => Some(([], s))
    case Some(inner) =>
      var p :- ParseCells(inner, Td);
      var next :- Expect(p.1, "</tr>");
      var q :- ParseRows(next);
      Some(([p.0] + q.0, q.1))
  }

  /** The placeholder row followed by `tail`. */
  function PlaceholderOnto(n: nat, tail: string): (r: string) {
    PlaceholderOpen + (NatToString(n) + (PlaceholderClose + tail))
  }

  function BodyOnto(b: Body, tail: string): (r: string) {
    match b
    case Records(rows) => RowsOnto(rows, tail)
    case NoRecords(n) => PlaceholderOnto(n, tail)
  }

  /** Reads a column count written in decimal. A count with a leading zero
      is refused, as the renderer never writes one. */
  function ParseCount(d: string): (r: Option<(nat, string)>)
    ensures r.Some? ==> d == NatToString(r.value.0) + r.value.1
  {
    var n := DigitSpan(d);
    var ds := d[..n];
    if n == 0 || (n > 1 && ds[0] == '0') then None
    else
      CanonicalDigits(ds);
      assert d == ds + d[n..];
      Some((DigitsValue(ds), d[n..]))
  }

  /** Reads the placeholder row. */
  function ParsePlaceholder(s: string): (r: Option<(nat, string)>)
    ensures r.Some? ==> s == PlaceholderOnto(r.value.0, r.value.1)
  {
    var d :- Expect(s, PlaceholderOpen);
    var c :- ParseCount(d);
    var rest :- Expect(c.1, PlaceholderClose);
    Some((c.0, rest))
  }

  /** Reads the table body: the placeholder row, or a run of data rows. */
  function ParseBody(s: string): (r: Option<(Body, string)>)
    ensures r.Some? ==> s == BodyOnto(r.value.0, r.value.1)
    ensures r.Some? && r.value.0.Records? ==>
              forall i, j :: 0 <= i < |r.value.0.rows| && 0 <= j < |r.value.0.rows[i]| ==> Plain(r.value.0.rows[i][j])
  {
    if StartsWith(s, PlaceholderOpen) then
      var p :- ParsePlaceholder(s);
      Some((NoRecords(p.0), p.1))
    else
      var p :- ParseRows(s);
      Some((Records(p.0), p.1))
  }

  /** Reads the template up to the header cells: the title in `<h1>` and
      the opening of the table. */
  function ParseHeading(s: string): (r: Option<(string, string)>)
    ensures r.Some? ==> Plain(r.value.0)
    ensures r.Some? ==> s == Indent + (HeadingOpen + (r.value.0 + (HeadingClose + (TableStart + r.value.1))))
  {
    var a :- Expect(s, Indent);
    var b :- Expect(a, HeadingOpen);
    var n := TextSpan(b);
    var title := b[..n];
    assert b == title + b[n..];
    var c :- Expect(b[n..], HeadingClose);
    var d :- Expect(c, TableStart);
    Some((title, d))
  }

  /** Reads a whole render_table output back into the table it shows. */
  function ParseTable(s: string): (r: Option<TableView>)
    ensures r.Some? ==> PlainView(r.value)
  {
    var t :- ParseHeading(s);
    var h :- ParseCells(t.1, Th);
    var e :- Expect(h.1, AfterHeader);
    var bd :- ParseBody(e);
    if bd.1 == TableClose then Some(TableView(t.0, h.0, bd.0)) else None
  }

  datatype PageParts = PageParts(title: string, content: string)

  /** Reads the page template up to the content: the title in `<title>`
      and the fixed head. */
  function ParsePageHead(s: string): (r: Option<(string, string)>)
    ensures r.Some? ==> Plain(r.value.0)
    ensures r.Some? ==> s == PageHead + (r.value.0 + (AfterPageTitle + r.value.1))
  {
    var a :- Expect(s, PageHead);
    var n := TextSpan(a);
    var title := a[..n];
    assert a == title + a[n..];
    var b :- Expect(a[n..], AfterPageTitle);
    Some((title, b))
  }

  /** Reads a render_page output back into its title and content. */
  function ParsePage(s: string): (r: Option<PageParts>)
    ensures r.Some? ==> Text.Plain(r.value.title)
  {
    var h :- ParsePageHead(s);
    var content :- ExpectEnd(h.1, PageEnd);
    Some(PageParts(h.0, content))
  }

  // ---------------------------------------------------------------------
  // Reading back what was written
  // ---------------------------------------------------------------------

  lemma CellRoundTrip(text: string, tag: CellTag, rest: string)
    requires Plain(text)
    ensures ParseCell(tag.Open() + (text + (tag.Close() + rest)), tag) == Some((text, rest))
  {
    ExpectOf(tag.Open(), text + (tag.Close() + rest));
    TextSpanOf(text, tag.Close() + rest);
    assert (text + (tag.Close() + rest))[..|text|] == text;
    assert (text + (tag.Close() + rest))[|text|..] == tag.Close() + rest;
    ExpectOf(tag.Close(), rest);
  }

  lemma {:induction false} CellsRoundTrip(texts: seq<string>, tag: CellTag, tail: string)
    requires forall j :: 0 <= j < |texts| ==> Plain(texts[j])
    requires !StartsWith(tail, tag.Open())
    ensures ParseCells(CellsOnto(texts, tag, tail), tag) == Some((texts, tail))
    decreases |texts|
  {
    if |texts| > 0 {
      var rest := CellsOnto(texts[1..], tag, tail);
      CellRoundTrip(texts[0], tag, rest);
      ExpectOf(tag.Open(), texts[0] + (tag.Close() + rest));
      CellsRoundTrip(texts[1..], tag, tail);
      assert [texts[0]] + texts[1..] == texts;
    }
  }

  /** What follows a row's cells, `</tr>...`, cannot be read as a cell. */
  lemma RowEndIsNotCell(rest: string)
    ensures !StartsWith("</tr>" + rest, Td.Open())
  {
    assert ("</tr>" + rest)[1] == '/';
  }

  /** What follows the header cells, `</tr>...`, cannot be read as a cell. */
  lemma HeaderEndIsNotCell(rest: string)
    ensures !StartsWith(AfterHeader + rest, Th.Open())
  {
    assert (AfterHeader + rest)[1] == '/';
  }

  lemma {:induction false} RowsRoundTrip(rows: seq<seq<string>>, tail: string)
    requires forall i, j :: 0 <= i < |rows| && 0 <= j < |rows[i]| ==> Plain(rows[i][j])
    requires !StartsWith(tail, "<tr>")
    ensures ParseRows(RowsOnto(rows, tail)) == Some((rows, tail))
    decreases |rows|
  {
    if |rows| > 0 {
      var rest := RowsOnto(rows[1..], tail);
      var inner := CellsOnto(rows[0], Td, "</tr>" + rest);
      assert Expect(RowsOnto(rows, tail), "<tr>") == Some(inner) by {
        ExpectOf("<tr>", inner);
      }
      assert ParseCells(inner, Td) == Some((rows[0], "</tr>" + rest)) by {
        RowEndIsNotCell(rest);
        CellsRoundTrip(rows[0], Td, "</tr>" + rest);
      }
      assert Expect("</tr>" + rest, "</tr>") == Some(rest) by {
        ExpectOf("</tr>", rest);
      }
      assert ParseRows(rest) == Some((rows[1..], tail)) by {
        RowsRoundTrip(rows[1..], tail);
      }
      assert [rows[0]] + rows[1..] == rows;
    }
  }

  lemma PlaceholderRoundTrip(n: nat, tail: string)
    ensures ParsePlaceholder(PlaceholderOnto(n, tail)) == Some((n, tail))
  {
    var ds := NatToString(n);
    ExpectOf(PlaceholderOpen, ds + (PlaceholderClose + tail));
    assert ParseCount(ds + (PlaceholderClose + tail)) == Some((n, PlaceholderClose + tail)) by {
      CountRoundTrip(n, PlaceholderClose + tail);
    }
    ExpectOf(PlaceholderClose, tail);
  }

  lemma CountRoundTrip(n: nat, rest: string)
    requires |rest| == 0 || !IsDigit(rest[0])
    ensures ParseCount(NatToString(n) + rest) == Some((n, rest))
  {
    var ds := NatToString(n);
    DigitSpanOf(ds, rest);
    assert (ds + rest)[..|ds|] == ds;
    assert (ds + rest)[|ds|..] == rest;
    NatToStringRoundTrip(n);
  }

  /** Data rows, or the text after an empty body, never read as the
      placeholder row. */
  lemma RowsAreNotPlaceholder(rows: seq<seq<string>>, tail: string)
    requires |tail| == 0 || tail[0] != '<'
    ensures !StartsWith(RowsOnto(rows, tail), PlaceholderOpen)
  {
    if |rows| > 0 {
      var s := RowsOnto(rows, tail);
      var after := "</tr>" + RowsOnto(rows[1..], tail);
      assert s == "<tr>" + CellsOnto(rows[0], Td, after);
      if |rows[0]| > 0 {
        assert s[7] == '>';
      } else {
        assert s[5] == '/';
      }
    }
  }

  lemma BodyRoundTrip(b: Body, tail: string)
    requires b.Records? ==>
               forall i, j :: 0 <= i < |b.rows| && 0 <= j < |b.rows[i]| ==> Plain(b.rows[i][j])
    requires |tail| == 0 || tail[0] != '<'
    ensures ParseBody(BodyOnto(b, tail)) == Some((b, tail))
  {
    match b
    case NoRecords(n) =>
      PlaceholderRoundTrip(n, tail);
      ExpectOf(PlaceholderOpen, NatToString(n) + (PlaceholderClose + tail));
    case Records(rows) =>
      RowsAreNotPlaceholder(rows, tail);
      RowsRoundTrip(rows, tail);
  }

  lemma BodyOntoAppend(b: Body, tail: string)
    ensures BodyOnto(b, tail) == BodyHtml(b) + tail
  {
    match b
    case NoRecords(n) =>
      Regroup(PlaceholderOpen, NatToString(n), PlaceholderClose, tail);
    case Records(rows) =>
      RowsOntoAppend(rows, tail);
  }

  /** The text after the table header, as a parser sees it. */
  lemma SerializeUnfolds(v: TableView)
    ensures Serialize(v)
            == Indent + (HeadingOpen + (v.title + (HeadingClose + (TableStart
                 + CellsOnto(v.header, Th, AfterHeader + BodyOnto(v.body, TableClose))))))
  {
    BodyOntoAppend(v.body, TableClose);
    CellsOntoAppend(v.header, Th, AfterHeader + BodyOnto(v.body, TableClose));
  }

  lemma HeadingRoundTrip(title: string, rest: string)
    requires Plain(title)
    ensures ParseHeading(Indent + (HeadingOpen + (title + (HeadingClose + (TableStart + rest)))))
            == Some((title, rest))
  {
    var c := HeadingClose + (TableStart + rest);
    ExpectOf(Indent, HeadingOpen + (title + c));
    ExpectOf(HeadingOpen, title + c);
    TextSpanOf(title, c);
    assert (title + c)[..|title|] == title;
    assert (title + c)[|title|..] == c;
    ExpectOf(HeadingClose, TableStart + rest);
    ExpectOf(TableStart, rest);
  }

  /** A table whose texts hold no '<' is read back exactly. */
  lemma TableRoundTrip(v: TableView)
    requires PlainView(v)
    ensures ParseTable(Serialize(v)) == Some(v)
  {
    var e := AfterHeader + BodyOnto(v.body, TableClose);
    var cells := CellsOnto(v.header, Th, e);
    var s := Serialize(v);
    assert ParseHeading(s) == Some((v.title, cells)) by {
      SerializeUnfolds(v);
      HeadingRoundTrip(v.title, cells);
    }
    assert ParseCells(cells, Th) == Some((v.header, e)) by {
      HeaderEndIsNotCell(BodyOnto(v.body, TableClose));
      CellsRoundTrip(v.header, Th, e);
    }
    assert Expect(e, AfterHeader) == Some(BodyOnto(v.body, TableClose)) by {
      ExpectOf(AfterHeader, BodyOnto(v.body, TableClose));
    }
    assert ParseBody(BodyOnto(v.body, TableClose)) == Some((v.body, TableClose)) by {
      BodyRoundTrip(v.body, TableClose);
    }
  }

  /** Whatever the parser accepts is written out by the serialiser. */
  lemma TableSound(s: string)
    requires ParseTable(s).Some?
    ensures Serialize(ParseTable(s).value) == s
  {
    var t := ParseHeading(s).value;
    var h := ParseCells(t.1, Th).value;
    var e := Expect(h.1, AfterHeader).value;
    var bd := ParseBody(e).value;
    var v := TableView(t.0, h.0, bd.0);
    assert ParseTable(s) == Some(v) && bd.1 == TableClose;
    assert t.1 == CellsOnto(v.header, Th, AfterHeader + BodyOnto(v.body, TableClose));
    SerializeUnfolds(v);
  }

  /** The parser and the serialiser are inverse on '<'-free tables, and on
      nothing else. */
  lemma ParseTableExact(s: string, v: TableView)
    ensures ParseTable(s) == Some(v) <==> PlainView(v) && s == Serialize(v)
  {
    if ParseTable(s) == Some(v) {
      TableSound(s);
    }
    if PlainView(v) && s == Serialize(v) {
      TableRoundTrip(v);
    }
  }

  lemma PageRoundTrip(content: string, title: string)
    requires Plain(title)
    ensures ParsePage(RenderPage(content, title)) == Some(PageParts(title, content))
  {
    var c := AfterPageTitle + (content + PageEnd);
    ExpectOf(PageHead, title + c);
    TextSpanOf(title, c);
    assert (title + c)[..|title|] == title;
    assert (title + c)[|title|..] == c;
    ExpectOf(AfterPageTitle, content + PageEnd);
    assert ParsePageHead(RenderPage(content, title)) == Some((title, content + PageEnd));
    ExpectEndOf(content, PageEnd);
  }

  lemma PageSound(s: string)
    requires ParsePage(s).Some?
    ensures RenderPage(ParsePage(s).value.content, ParsePage(s).value.title) == s
  {
    var h := ParsePageHead(s).value;
    var c := ExpectEnd(h.1, PageEnd).value;
    assert ParsePage(s) == Some(PageParts(h.0, c));
  }

  /** render_page keeps the content unchanged and puts the title in
      `<title>`: the page is read back into exactly its title and content. */
  lemma ParsePageExact(s: string, title: string, content: string)
    ensures ParsePage(s) == Some(PageParts(title, content))
            <==> Plain(title) && s == RenderPage(content, title)
  {
    if ParsePage(s) == Some(PageParts(title, content)) {
      PageSound(s);
    }
    if Plain(title) && s == RenderPage(content, title) {
      PageRoundTrip(content, title);
    }
  }

  // ---------------------------------------------------------------------
  // What render_table's output says, read at the level of characters
  // ---------------------------------------------------------------------

  /** When the title, the labels and the cell texts hold no '<', the
      characters of render_table's output read back as exactly the
      structured table: the labels as `<th>` cells in order, one `<tr>` per
      data row with one `<td>` per column in column order, and the
      placeholder spanning every column exactly when there is no data. */
  lemma RenderTableReadsBack(title: string, columns: seq<string>, data: seq<Row>)
    requires Plain(title)
    requires forall j :: 0 <= j < |columns| ==> Plain(columns[j])
    requires forall i, j :: 0 <= i < |data| && 0 <= j < |columns| ==> Plain(CellText(data[i], columns[j]))
    ensures ParseTable(RenderTable(title, columns, data)) == Some(Layout(title, columns, data))
  {
    TableRoundTrip(Layout(title, columns, data));
  }

  /** Cell values are not escaped: a value holding markup for a cell
      boundary reads back as two cells where the table has one column. */
  lemma MarkupInValueSplitsCell(title: string, col: string, a: string, b: string)
    requires Plain(title) && Plain(col) && Plain(a) && Plain(b)
    ensures ParseTable(RenderTable(title, [col], [map[col := Str(a + "</td><td>" + b)]]))
            == Some(TableView(title, [col], Records([[a, b]])))
  {
    var v := a + "</td><td>" + b;
    MarkupRendersAsShown(title, col, v);
    SplitCellsAgree(title, col, a, b);
    TableRoundTrip(TableView(title, [col], Records([[a, b]])));
  }

  lemma MarkupRendersAsShown(title: string, col: string, v: string)
    ensures RenderTable(title, [col], [map[col := Str(v)]])
            == Serialize(TableView(title, [col], Records([[v]])))
  {
    var data: seq<Row> := [map[col := Str(v)]];
    assert RowTexts(data[0], [col]) == [v];
    assert Layout(title, [col], data) == TableView(title, [col], Records([[v]]));
  }

  /** One cell holding `a</td><td>b` is spelled like two cells `a` and `b`. */
  lemma SplitCellsAgree(title: string, col: string, a: string, b: string)
    ensures Serialize(TableView(title, [col], Records([[a + "</td><td>" + b]])))
            == Serialize(TableView(title, [col], Records([[a, b]])))
  {
    var x := "</tr>" + "";
    var y := "</td>" + x;
    var v := a + "</td><td>" + b;
    assert [a, b][1..] == [b] && [b][1..] == [];
    assert [v][1..] == [];
    assert CellsOnto([b], Td, x) == "<td>" + (b + y);
    assert CellsOnto([a, b], Td, x) == "<td>" + (a + ("</td>" + ("<td>" + (b + y))));
    assert CellsOnto([v], Td, x) == "<td>" + (v + y);
    assert v + y == a + ("</td>" + ("<td>" + (b + y))) by {
      assert "</td><td>" == "</td>" + "<td>";
    }
    assert [[v]][1..] == [] && [[a, b]][1..] == [];
    assert RowsOnto([[v]], "") == "<tr>" + CellsOnto([v], Td, x);
    assert RowsOnto([[a, b]], "") == "<tr>" + CellsOnto([a, b], Td, x);
  }
}
