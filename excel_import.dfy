/**
 * The spreadsheet importer of renderer/helpers/readDataFromExcel.ts: it turns the
 * chosen rows and columns of a worksheet into the column list and row records the
 * database is created from, serialising every cell to HTML spans.
 */
module ExcelImport {
  import opened Wrappers
  import opened Strings
  import opened Records
  import opened CreateDbModal

  // ---------------------------------------------------------------------------
  // The workbook, as far as the importer reads it

  /** The font attributes read: `color` stands for `color.argb`. */
  datatype Font = Font(bold: bool, italic: bool, size: Option<nat>, argb: Option<string>)

  /** One run of a rich-text value. */
  datatype RichRun = RichRun(text: Option<string>, font: Option<Font>)

  /**
   * A cell value: empty, rich text (an object with `richText`), or any other value,
   * of which only its truthiness matters.
   */
  datatype CellValue = NullValue | RichTextValue(runs: seq<RichRun>) | OtherValue(truthy: bool)

  datatype Cell = Cell(value: CellValue, font: Option<Font>, text: string)

  /** `row.getCell(i)`. */
  datatype SheetRow = SheetRow(getCell: int -> Cell)

  /** `worksheet.getRows(start, count)`: None when the workbook library returns nothing. */
  datatype Worksheet = Worksheet(getRows: (int, int) -> Option<seq<SheetRow>>)

  /** `ProcessedData`. */
  datatype Processed = Processed(columnNames: seq<string>, data: seq<Row>)

  predicate Truthy(v: CellValue) {
    match v
    case NullValue => false
    case RichTextValue(_) => true
    case OtherValue(t) => t
  }

  // ---------------------------------------------------------------------------
  // Font styles to CSS

  predicate HasSize(f: Font) { f.size.Some? && f.size.value != 0 }
  predicate HasColor(f: Font) { f.argb.Some? && f.argb.value != "" }

  /** `#` and `argb.slice(2)`: the colour without its alpha byte. */
  function ColorHex(argb: string): string {
    "#" + (if |argb| >= 2 then argb[2..] else "")
  }

  datatype Declaration = Declaration(property: string, value: string)

  /**
   * The declarations a font yields: bold, italic, size and colour, each only when
   * set, always in that order.
   */
  function Declarations(f: Font): (ds: seq<Declaration>)
    ensures ds == [] <==> !f.bold && !f.italic && !HasSize(f) && !HasColor(f)
    ensures f.bold <==> Declaration("font-weight", "bold") in ds
    ensures f.italic <==> Declaration("font-style", "italic") in ds
    ensures HasColor(f) ==> ds[|ds| - 1] == Declaration("color", ColorHex(f.argb.value))
  {
    BoldDecl(f) + ItalicDecl(f) + SizeDecl(f) + ColorDecl(f)
  }

  function BoldDecl(f: Font): seq<Declaration> {
    if f.bold then [Declaration("font-weight", "bold")] else []
  }

  function ItalicDecl(f: Font): seq<Declaration> {
    if f.italic then [Declaration("font-style", "italic")] else []
  }

  function SizeDecl(f: Font): seq<Declaration> {
    if HasSize(f) then [Declaration("font-size", NatToString(f.size.value) + "pt")] else []
  }

  function ColorDecl(f: Font): seq<Declaration> {
    if HasColor(f) then [Declaration("color", ColorHex(f.argb.value))] else []
  }

  function Count(b: bool): nat {
    if b then 1 else 0
  }

  /**
   * The pieces come out bold, italic, size, colour: each one that is set sits right
   * after those before it in that order, and nothing else is emitted.
   */
  lemma DeclarationsOrdered(f: Font)
    ensures var ds := Declarations(f);
      && |ds| == Count(f.bold) + Count(f.italic) + Count(HasSize(f)) + Count(HasColor(f))
      && (f.bold ==> ds[0] == Declaration("font-weight", "bold"))
      && (f.italic ==> ds[Count(f.bold)] == Declaration("font-style", "italic"))
      && (HasSize(f) ==>
          ds[Count(f.bold) + Count(f.italic)] == Declaration("font-size", NatToString(f.size.value) + "pt"))
  {
    var b, i, z := BoldDecl(f), ItalicDecl(f), SizeDecl(f);
    assert Declarations(f) == b + i + z + ColorDecl(f);
    assert (b + i + z + ColorDecl(f))[..|b| + |i| + |z|] == b + i + z;
    assert (b + i + z)[..|b| + |i|] == b + i;
  }

  function RenderDeclaration(d: Declaration): string {
    d.property + ": " + d.value + "; "
  }

  function RenderDeclarations(ds: seq<Declaration>): (css: string)
    ensures ds == [] <==> css == ""
    ensures ds != [] ==> |css| >= 2 && css[|css| - 2..] == "; "
    ensures ds != [] && ds[0].property != "" ==> css[0] == ds[0].property[0]
  {
    if ds == [] then ""
    else
      var rest := RenderDeclarations(ds[1..]);
      var first := RenderDeclaration(ds[0]);
      assert (first + rest)[0] == first[0];
      first + rest
  }

  lemma {:induction false} RenderDeclarationsConcat(a: seq<Declaration>, b: seq<Declaration>)
    ensures RenderDeclarations(a + b) == RenderDeclarations(a) + RenderDeclarations(b)
  {
    if a == [] {
      assert a + b == b;
    } else {
      assert (a + b)[1..] == a[1..] + b;
      RenderDeclarationsConcat(a[1..], b);
    }
  }

  /** `fontStylesToCSS`: one `property: value; ` piece per attribute that is set. */
  function FontStylesToCss(f: Font): (css: string)
    ensures css == "" <==> !f.bold && !f.italic && !HasSize(f) && !HasColor(f)
  {
    (if f.bold then "font-weight: bold; " else "")
    + (if f.italic then "font-style: italic; " else "")
    + (if HasSize(f) then "font-size: " + NatToString(f.size.value) + "pt; " else "")
    + (if HasColor(f) then "color: " + ColorHex(f.argb.value) + "; " else "")
  }

  lemma RenderOptional(c: bool, d: Declaration)
    ensures RenderDeclarations(if c then [d] else []) == if c then RenderDeclaration(d) else ""
  {
    if c {
      assert [d][1..] == [];
    }
  }

  lemma SizePiece(n: string)
    ensures RenderDeclaration(Declaration("font-size", n + "pt")) == "font-size: " + n + "pt; "
  {
    assert "font-size" + ": " == "font-size: ";
    assert "pt" + "; " == "pt; ";
  }

  lemma BoldPiece()
    ensures RenderDeclaration(Declaration("font-weight", "bold")) == "font-weight: bold; "
  {
  }

  lemma ItalicPiece()
    ensures RenderDeclaration(Declaration("font-style", "italic")) == "font-style: italic; "
  {
  }

  lemma ColorPiece(h: string)
    ensures RenderDeclaration(Declaration("color", h)) == "color: " + h + "; "
  {
    assert "color" + ": " == "color: ";
  }

  lemma RenderDeclarationsSplit(f: Font)
    ensures RenderDeclarations(Declarations(f))
         == RenderDeclarations(BoldDecl(f)) + RenderDeclarations(ItalicDecl(f))
          + RenderDeclarations(SizeDecl(f)) + RenderDeclarations(ColorDecl(f))
  {
    var b, i, z, c := BoldDecl(f), ItalicDecl(f), SizeDecl(f), ColorDecl(f);
    RenderDeclarationsConcat(b, i);
    RenderDeclarationsConcat(b + i, z);
    RenderDeclarationsConcat(b + i + z, c);
  }

  lemma FontStylesRenderDeclarations(f: Font)
    ensures FontStylesToCss(f) == RenderDeclarations(Declarations(f))
  {
    RenderDeclarationsSplit(f);
    RenderOptional(f.bold, Declaration("font-weight", "bold"));
    BoldPiece();
    RenderOptional(f.italic, Declaration("font-style", "italic"));
    ItalicPiece();
    if HasSize(f) {
      RenderOptional(true, Declaration("font-size", NatToString(f.size.value) + "pt"));
      SizePiece(NatToString(f.size.value));
    }
    if HasColor(f) {
      RenderOptional(true, Declaration("color", ColorHex(f.argb.value)));
      ColorPiece(ColorHex(f.argb.value));
    }
  }

  /** A non-empty CSS string starts with a property name and ends with `; `. */
  lemma CssShape(f: Font)
    requires FontStylesToCss(f) != ""
    ensures var css := FontStylesToCss(f);
      |css| >= 2 && !IsJsWhitespace(css[0]) && css[|css| - 2..] == "; "
  {
    FontStylesRenderDeclarations(f);
    DeclarationsOrdered(f);
    var ds := Declarations(f);
    var p := ds[0].property;
    if f.bold {
      assert p == "font-weight";
    } else if f.italic {
      assert p == "font-style";
    } else if HasSize(f) {
      assert p == "font-size";
    } else {
      assert p == "color";
    }
    assert p[0] == 'f' || p[0] == 'c';
  }

  /** The `style` attribute of a span: the trimmed CSS, present only when there is some. */
  function StyleFor(font: Option<Font>): (style: Option<string>)
    ensures style.Some? <==> font.Some? && FontStylesToCss(font.value) != ""
    ensures style.Some? ==>
      var css := FontStylesToCss(font.value); style.value == css[..|css| - 1]
  {
    if font.Some? && FontStylesToCss(font.value) != "" then
      var css := FontStylesToCss(font.value);
      CssShape(font.value);
      TrimOneTrailing(css);
      Some(Trim(css))
    else None
  }

  // ---------------------------------------------------------------------------
  // Cells to HTML

  /** `text.replace(/\n/g, "<br/>")`. */
  function EscapeNewlines(s: string): (r: string)
    ensures '\n' !in r
    ensures '\n' !in s ==> r == s
  {
    if s == [] then ""
    else (if s[0] == '\n' then "<br/>" else [s[0]]) + EscapeNewlines(s[1..])
  }

  /** Replacing newlines works piece by piece. */
  lemma {:induction false} EscapeNewlinesConcat(a: string, b: string)
    ensures EscapeNewlines(a + b) == EscapeNewlines(a) + EscapeNewlines(b)
  {
    if a == [] {
      assert a + b == b;
    } else {
      assert (a + b)[1..] == a[1..] + b;
      EscapeNewlinesConcat(a[1..], b);
    }
  }

  /** One `<span>`: an optional style and a body. */
  datatype Span = Span(style: Option<string>, body: string)

  function RenderSpan(sp: Span): string {
    "<span" + (if sp.style.Some? then " style=\"" + sp.style.value + "\"" else "") + ">"
    + sp.body + "</span>"
  }

  function RenderSpans(spans: seq<Span>): string {
    if spans == [] then "" else RenderSpans(spans[..|spans| - 1]) + RenderSpan(spans[|spans| - 1])
  }

  /** The span written for one run or one plain cell: `text || ""` with newlines replaced. */
  function SpanFor(font: Option<Font>, text: string): Span {
    Span(StyleFor(font), EscapeNewlines(text))
  }

  function RunText(run: RichRun): string {
    if run.text.Some? then run.text.value else ""
  }

  /** The spans `convertCellToHTML` writes: one per rich-text run, else exactly one. */
  function CellSpans(cell: Cell): (spans: seq<Span>)
    ensures cell.value.RichTextValue? ==> |spans| == |cell.value.runs|
    ensures cell.value.RichTextValue? ==> forall k :: 0 <= k < |spans| ==>
      spans[k] == SpanFor(cell.value.runs[k].font, RunText(cell.value.runs[k]))
    ensures !cell.value.RichTextValue? ==> spans == [SpanFor(cell.font, cell.text)]
    ensures forall k :: 0 <= k < |spans| ==> '\n' !in spans[k].body
  {
    match cell.value
    case RichTextValue(runs) =>
      seq(|runs|, k requires 0 <= k < |runs| => SpanFor(runs[k].font, RunText(runs[k])))
    case _ => [SpanFor(cell.font, cell.text)]
  }

  /** Builds one span's HTML piece by piece. */
  method SpanHtml(font: Option<Font>, text: string) returns (h: string)
    ensures h == RenderSpan(SpanFor(font, text))
  {
    h := "<span";
    ghost var style := StyleFor(font);
    if font.Some? {
      var css := FontStylesToCss(font.value);
      if css != "" {
        assert style == Some(Trim(css));
        h := h + (" style=\"" + Trim(css) + "\"");
      }
    }
    assert h == "<span" + (if style.Some? then " style=\"" + style.value + "\"" else "");
    h := h + ">";
    h := h + EscapeNewlines(text);
    h := h + "</span>";
  }

  /** `convertCellToHTML`. */
  method ConvertCellToHtml(cell: Cell) returns (html: string)
    ensures html == RenderSpans(CellSpans(cell))
  {
    html := "";
    if cell.value.RichTextValue? {
      var runs := cell.value.runs;
      ghost var spans := CellSpans(cell);
      var k := 0;
      while k < |runs|
        invariant 0 <= k <= |runs|
        invariant html == RenderSpans(spans[..k])
      {
        var piece := SpanHtml(runs[k].font, RunText(runs[k]));
        assert spans[..k + 1][..k] == spans[..k];
        html := html + piece;
        k := k + 1;
      }
      assert spans[..|runs|] == spans;
    } else {
      var piece := SpanHtml(cell.font, cell.text);
      assert [SpanFor(cell.font, cell.text)][..0] == [];
      html := html + piece;
    }
  }

  // ---------------------------------------------------------------------------
  // Rows to records

  /** The template `column${i}`. */
  function ColumnKey(i: int): string {
    "column" + IntToString(i)
  }

  /** Distinct columns get distinct keys. */
  lemma ColumnKeyInjective(i: int, j: int)
    ensures ColumnKey(i) == ColumnKey(j) ==> i == j
  {
    if ColumnKey(i) == ColumnKey(j) {
      assert ColumnKey(i)[6..] == IntToString(i);
      assert ColumnKey(j)[6..] == IntToString(j);
      IntToStringInjective(i, j);
    }
  }

  lemma ColumnKeyNotIsRemember(i: int)
    ensures ColumnKey(i) != "isRemember"
  {
    assert ColumnKey(i)[0] == 'c';
  }

  /** `column${i}` for `i` from `first` to `last`, ascending; nothing when `last < first`. */
  function ColumnRange(first: int, last: int): (names: seq<string>)
    ensures |names| == if last >= first then last - first + 1 else 0
    ensures forall k :: 0 <= k < |names| ==> names[k] == ColumnKey(first + k)
  {
    if last < first then [] else seq(last - first + 1, k => ColumnKey(first + k))
  }

  lemma ColumnRangeSnoc(first: int, i: int)
    requires first <= i
    ensures ColumnRange(first, i) == ColumnRange(first, i - 1) + [ColumnKey(i)]
  {
    var a, b := ColumnRange(first, i), ColumnRange(first, i - 1) + [ColumnKey(i)];
    assert |a| == |b|;
    forall k | 0 <= k < |a|
      ensures a[k] == b[k]
    {
      if k < |a| - 1 {
        assert b[k] == ColumnRange(first, i - 1)[k];
      }
    }
  }

  /** The column list always starts with `isRemember` and never repeats a name. */
  lemma ColumnNamesDistinct(first: int, last: int)
    ensures var names := ["isRemember"] + ColumnRange(first, last);
      forall a, b :: 0 <= a < b < |names| ==> names[a] != names[b]
  {
    var names := ["isRemember"] + ColumnRange(first, last);
    forall a, b | 0 <= a < b < |names|
      ensures names[a] != names[b]
    {
      ColumnNamesDistinctAt(first, last, a, b);
    }
  }

  lemma ColumnNamesDistinctAt(first: int, last: int, a: int, b: int)
    requires 0 <= a < b < 1 + |ColumnRange(first, last)|
    ensures (["isRemember"] + ColumnRange(first, last))[a] != (["isRemember"] + ColumnRange(first, last))[b]
  {
    var range := ColumnRange(first, last);
    var kb := range[b - 1];
    assert kb == ColumnKey(first + b - 1);
    if a == 0 {
      ColumnKeyNotIsRemember(first + b - 1);
      PrependedDiffer(range, "isRemember", a, b);
    } else {
      var ka := range[a - 1];
      assert ka == ColumnKey(first + a - 1);
      ColumnKeysDiffer(first + a - 1, first + b - 1);
      PrependedDiffer(range, "isRemember", a, b);
    }
  }

  /** Prepending one element keeps two positions apart when their elements differ. */
  lemma PrependedDiffer(range: seq<string>, head: string, a: int, b: int)
    requires 0 <= a < b <= |range|
    requires (if a == 0 then head else range[a - 1]) != range[b - 1]
    ensures ([head] + range)[a] != ([head] + range)[b]
  {
  }

  lemma ColumnKeysDiffer(i: int, j: int)
    requires i != j
    ensures ColumnKey(i) != ColumnKey(j)
  {
    ColumnKeyInjective(i, j);
  }

  /** A fresh column key is not among the keys already written. */
  lemma ColumnKeyFresh(first: int, i: int)
    requires first <= i
    ensures ColumnKey(i) !in ["isRemember"] + ColumnRange(first, i - 1)
  {
    ColumnKeyNotIsRemember(i);
    var names := ColumnRange(first, i - 1);
    forall k | 0 <= k < |names|
      ensures names[k] != ColumnKey(i)
    {
      assert names[k] == ColumnKey(first + k);
      ColumnKeysDiffer(first + k, i);
    }
    NotInPrepended(names, "isRemember", ColumnKey(i));
  }

  lemma NotInPrepended(names: seq<string>, head: string, x: string)
    requires x != head && forall k :: 0 <= k < |names| ==> names[k] != x
    ensures x !in [head] + names
  {
  }

  /** The HTML of a cell. */
  function CellHtml(cell: Cell): string {
    RenderSpans(CellSpans(cell))
  }

  /** `cell.value ? convertCellToHTML(cell) : ""`. */
  function CellData(cell: Cell): Value {
    if Truthy(cell.value) then Str(CellHtml(cell)) else Str("")
  }

  /** The record made from one worksheet row. */
  predicate IsRowRecord(rec: Row, row: SheetRow, first: int, last: int) {
    && Keys(rec) == ["isRemember"] + ColumnRange(first, last)
    && Lookup(rec, "isRemember") == Some(Num(0))
    && forall i {:trigger Lookup(rec, ColumnKey(i))} :: first <= i <= last ==>
      Lookup(rec, ColumnKey(i)) == Some(CellData(row.getCell(i)))
  }

  /** Writing the next column's cell data extends a record by that one column. */
  lemma RowRecordStep(rec: Row, row: SheetRow, first: int, i: int)
    requires first <= i && IsRowRecord(rec, row, first, i - 1)
    ensures IsRowRecord(Assign(rec, ColumnKey(i), CellData(row.getCell(i))), row, first, i)
  {
    var v := CellData(row.getCell(i));
    var next := Assign(rec, ColumnKey(i), v);
    RowRecordStepKeys(rec, first, i, v);
    ColumnKeyNotIsRemember(i);
    AssignKeepsOthers(rec, ColumnKey(i), v);
    assert Lookup(next, "isRemember") == Some(Num(0));
    forall j | first <= j <= i
      ensures Lookup(next, ColumnKey(j)) == Some(CellData(row.getCell(j)))
    {
      if j < i {
        RowRecordStepOther(rec, i, j, v);
      }
    }
  }

  lemma RowRecordStepOther(rec: Row, i: int, j: int, v: Value)
    requires j < i
    ensures Lookup(Assign(rec, ColumnKey(i), v), ColumnKey(j)) == Lookup(rec, ColumnKey(j))
  {
    AssignKeepsOthers(rec, ColumnKey(i), v);
    ColumnKeyInjective(j, i);
  }

  lemma RowRecordStepKeys(rec: Row, first: int, i: int, v: Value)
    requires first <= i && Keys(rec) == ["isRemember"] + ColumnRange(first, i - 1)
    ensures Keys(Assign(rec, ColumnKey(i), v)) == ["isRemember"] + ColumnRange(first, i)
  {
    ColumnKeyFresh(first, i);
    ColumnRangeSnoc(first, i);
  }

  /** The record before the column loop: only `isRemember`, set to 0. */
  lemma RowRecordStart(row: SheetRow, first: int)
    ensures IsRowRecord(Assign([], "isRemember", Num(0)), row, first, first - 1)
  {
    assert ["isRemember"] + ColumnRange(first, first - 1) == ["isRemember"];
  }

  /** The body of the `rows.forEach` callback. */
  method RowRecord(row: SheetRow, first: int, last: int) returns (rec: Row)
    ensures IsRowRecord(rec, row, first, last)
  {
    rec := Assign([], "isRemember", Num(0));
    RowRecordStart(row, first);
    var i := first;
    while i <= last
      invariant first <= i <= if first <= last then last + 1 else first
      invariant IsRowRecord(rec, row, first, i - 1)
      decreases last - i
    {
      var cell := row.getCell(i);
      var cellData := "";
      if Truthy(cell.value) {
        cellData := ConvertCellToHtml(cell);
      }
      assert Str(cellData) == CellData(cell);
      RowRecordStep(rec, row, first, i);
      rec := Assign(rec, ColumnKey(i), Str(cellData));
      i := i + 1;
    }
    assert ColumnRange(first, i - 1) == ColumnRange(first, last);
  }

  /** The loop that pushes `column${i}` after `isRemember`. */
  method ColumnNameList(first: int, last: int) returns (columnNames: seq<string>)
    ensures columnNames == ["isRemember"] + ColumnRange(first, last)
  {
    columnNames := ["isRemember"];
    var i := first;
    while i <= last
      invariant first <= i <= if first <= last then last + 1 else first
      invariant columnNames == ["isRemember"] + ColumnRange(first, i - 1)
      decreases last - i
    {
      ColumnRangeSnoc(first, i);
      columnNames := columnNames + [ColumnKey(i)];
      i := i + 1;
    }
    assert ColumnRange(first, i - 1) == ColumnRange(first, last);
  }

  /** `rows.forEach(...)`: one record per worksheet row, in row order. */
  method RowRecords(rows: seq<SheetRow>, first: int, last: int) returns (data: seq<Row>)
    ensures |data| == |rows|
    ensures forall k :: 0 <= k < |rows| ==> IsRowRecord(data[k], rows[k], first, last)
  {
    data := [];
    var k := 0;
    while k < |rows|
      invariant 0 <= k <= |rows| && |data| == k
      invariant forall m {:trigger data[m]} :: 0 <= m < k ==> IsRowRecord(data[m], rows[m], first, last)
    {
      var rec := RowRecord(rows[k], first, last);
      data := data + [rec];
      k := k + 1;
    }
  }

  /**
   * `readDataFromExcel` after the workbook is loaded. `sheet` is what the workbook
   * returns for `getWorksheet(dataSet.sheetNumber)`; that field is not part of
   * `DataSetType`, so the lookup is made with `undefined` and the sheet name chosen
   * in the form plays no part.
   */
  method ReadData(dataSet: DataSet, sheet: Option<Worksheet>) returns (result: Result<Processed>)
    ensures sheet.None? ==> result == Failure("Worksheet undefined not found")
    ensures sheet.Some? && sheet.value.getRows(dataSet.rowFrom, dataSet.rowTo - dataSet.rowFrom + 1).None? ==>
      result == Success(Processed([], []))
    ensures sheet.Some? && sheet.value.getRows(dataSet.rowFrom, dataSet.rowTo - dataSet.rowFrom + 1).Some? ==>
      var rows := sheet.value.getRows(dataSet.rowFrom, dataSet.rowTo - dataSet.rowFrom + 1).value;
      && result.Success?
      && result.value.columnNames == ["isRemember"] + ColumnRange(dataSet.columnFrom, dataSet.columnTo)
      && |result.value.data| == |rows|
      && forall k :: 0 <= k < |rows| ==>
        IsRowRecord(result.value.data[k], rows[k], dataSet.columnFrom, dataSet.columnTo)
  {
    if sheet.None? {
      return Failure("Worksheet undefined not found");
    }
    var fetched := sheet.value.getRows(dataSet.rowFrom, dataSet.rowTo - dataSet.rowFrom + 1);
    if fetched.None? {
      return Success(Processed([], []));
    }
    var columnNames := ColumnNameList(dataSet.columnFrom, dataSet.columnTo);
    var data := RowRecords(fetched.value, dataSet.columnFrom, dataSet.columnTo);
    return Success(Processed(columnNames, data));
  }
}
