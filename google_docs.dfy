/** The Google Docs client: the text extracted from a document's body (the
    runs of every paragraph in order, and the cells of every table row by
    row), the fields handed back for created and fetched documents, and the
    insertion request that appends text at the end of a document. The API
    calls are left out: the documents they return are inputs. A missing
    array is walked like an empty one, so arrays are plain sequences. */
module GoogleDocs {
  import opened Common

  datatype TextRun = TextRun(content: Option<string>)

  datatype ParagraphElement = ParagraphElement(textRun: Option<TextRun>)

  datatype Paragraph = Paragraph(elements: seq<ParagraphElement>)

  /** A structural element of the body: a paragraph, a table, or neither,
      and where it ends. */
  datatype Element = Element(paragraph: Option<Paragraph>, table: Option<Table>, endIndex: Option<int>)

  datatype Table = Table(tableRows: seq<TableRow>)

  datatype TableRow = TableRow(tableCells: seq<TableCell>)

  datatype TableCell = TableCell(content: seq<Element>)

  datatype Body = Body(content: Option<seq<Element>>)

  /** A document as the API returns it. */
  datatype DocData = DocData(
    title: Option<string>,
    body: Option<Body>,
    createdTime: Option<string>,
    modifiedTime: Option<string>,
    background: Option<string>)

  /** `GoogleDocument`. */
  datatype GoogleDocument = GoogleDocument(
    id: string,
    title: string,
    content: Option<string>,
    createdTime: Option<string>,
    modifiedTime: Option<string>,
    webViewLink: string)

  const UntitledDocument := "Untitled Document"
  const LinkPrefix := "https://docs.google.com/document/d/"
  const LinkSuffix := "/edit"
  const CreateFailed := "Failed to create document"
  const DocumentNotFound := "Document not found"
  const NoContent := "Document has no content"

  /** The document's link in the Docs editor. */
  function WebViewLink(documentId: string): (r: string)
    ensures |r| == |LinkPrefix| + |documentId| + |LinkSuffix|
    ensures r[..|LinkPrefix|] == LinkPrefix && r[|LinkPrefix|..|LinkPrefix| + |documentId|] == documentId
    ensures r[|LinkPrefix| + |documentId|..] == LinkSuffix
  {
    LinkPrefix + documentId + LinkSuffix
  }

  /** Different documents have different links. */
  lemma WebViewLinkInjective(a: string, b: string)
    requires WebViewLink(a) == WebViewLink(b)
    ensures a == b
  {
    assert |a| == |b|;
    assert a == WebViewLink(a)[|LinkPrefix|..|LinkPrefix| + |a|];
  }

  // ---------------------------------------------------------------------------
  // Text extraction

  /** The truthy text-run contents of a paragraph's elements, in order. */
  function RunsText(runs: seq<ParagraphElement>): string {
    if runs == [] then ""
    else
      var run := runs[|runs| - 1].textRun;
      RunsText(runs[..|runs| - 1]) + (if run.Some? && Truthy(run.value.content) then run.value.content.value else "")
  }

  /** The text of one element: its paragraph's runs, then its table's cells. */
  function ElementText(e: Element): string
    decreases e, 0
  {
    (if e.paragraph.Some? then RunsText(e.paragraph.value.elements) else "")
    + (if e.table.Some? then RowsText(e.table.value.tableRows) else "")
  }

  /** The text of a table's rows, row by row and cell by cell. */
  function RowsText(rows: seq<TableRow>): string
    decreases rows, 0
  {
    if rows == [] then "" else RowsText(rows[..|rows| - 1]) + CellsText(rows[|rows| - 1].tableCells)
  }

  function CellsText(cells: seq<TableCell>): string
    decreases cells, 0
  {
    if cells == [] then "" else CellsText(cells[..|cells| - 1]) + ElementsText(cells[|cells| - 1].content)
  }

  /** The text of a list of elements, element by element. */
  function ElementsText(es: seq<Element>): string
    decreases es, 0
  {
    if es == [] then "" else ElementsText(es[..|es| - 1]) + ElementText(es[|es| - 1])
  }

  /** Extraction follows document order: the text of two runs of elements
      one after the other is the first's text, then the second's. */
  lemma {:induction false} ElementsTextAppend(a: seq<Element>, b: seq<Element>)
    ensures ElementsText(a + b) == ElementsText(a) + ElementsText(b)
    decreases |b|
  {
    if b == [] {
      assert a + b == a;
    } else {
      var n := |b| - 1;
      assert (a + b)[..|a + b| - 1] == a + b[..n];
      ElementsTextAppend(a, b[..n]);
      ConcatAssoc(ElementsText(a), ElementsText(b[..n]), ElementText(b[n]));
    }
  }

  /** A table cell's text is extracted as if its elements stood in the body:
      a body holding one table of one cell has that cell's text. */
  lemma SingleCellTable(cell: seq<Element>, endIndex: Option<int>)
    ensures ElementsText([Element(None, Some(Table([TableRow([TableCell(cell)])])), endIndex)]) == ElementsText(cell)
  {
    var e := Element(None, Some(Table([TableRow([TableCell(cell)])])), endIndex);
    assert [e][..0] == [];
    assert [TableRow([TableCell(cell)])][..0] == [];
    assert [TableCell(cell)][..0] == [];
    assert CellsText([TableCell(cell)]) == ElementsText(cell);
    assert RowsText([TableRow([TableCell(cell)])]) == ElementsText(cell);
    assert ElementText(e) == ElementsText(cell);
  }

  /** Elements with neither a paragraph nor a table add no text. */
  lemma {:induction false} NoParagraphNoTableNoText(es: seq<Element>)
    requires forall e | e in es :: e.paragraph.None? && e.table.None?
    ensures ElementsText(es) == ""
    decreases |es|
  {
    if es != [] {
      NoParagraphNoTableNoText(es[..|es| - 1]);
    }
  }

  lemma RunsStep(runs: seq<ParagraphElement>, i: nat)
    requires i < |runs|
    ensures var run := runs[i].textRun;
      RunsText(runs[..i + 1]) == RunsText(runs[..i]) + (if run.Some? && Truthy(run.value.content) then run.value.content.value else "")
  {
    assert runs[..i + 1][..i] == runs[..i];
  }

  /** The paragraph loop of `extractText`. */
  method AppendRuns(runs: seq<ParagraphElement>, content: string) returns (content': string)
    ensures content' == content + RunsText(runs)
  {
    content' := content;
    var i := 0;
    while i < |runs|
      invariant i <= |runs|
      invariant content' == content + RunsText(runs[..i])
    {
      RunsStep(runs, i);
      var run := runs[i].textRun;
      if run.Some? && Truthy(run.value.content) {
        ConcatAssoc(content, RunsText(runs[..i]), run.value.content.value);
        content' := content' + run.value.content.value;
      }
      i := i + 1;
    }
    assert runs[..i] == runs;
  }

  /** The cell loop of `extractText` for one row: each cell's elements are
      extracted in turn. */
  method AppendCells(cells: seq<TableCell>, content: string) returns (content': string)
    ensures content' == content + CellsText(cells)
    decreases cells, 1
  {
    content' := content;
    var i := 0;
    while i < |cells|
      invariant i <= |cells|
      invariant content' == content + CellsText(cells[..i])
    {
      assert cells[..i + 1][..i] == cells[..i];
      ConcatAssoc(content, CellsText(cells[..i]), ElementsText(cells[i].content));
      content' := ExtractText(cells[i].content, content');
      i := i + 1;
    }
    assert cells[..i] == cells;
  }

  /** The row loop of `extractText`. */
  method AppendRows(rows: seq<TableRow>, content: string) returns (content': string)
    ensures content' == content + RowsText(rows)
    decreases rows, 1
  {
    content' := content;
    var i := 0;
    while i < |rows|
      invariant i <= |rows|
      invariant content' == content + RowsText(rows[..i])
    {
      assert rows[..i + 1][..i] == rows[..i];
      ConcatAssoc(content, RowsText(rows[..i]), CellsText(rows[i].tableCells));
      content' := AppendCells(rows[i].tableCells, content');
      i := i + 1;
    }
    assert rows[..i] == rows;
  }

  /** The body of `extractText`'s loop: an element's paragraph runs, then
      its table's rows. */
  method AppendElement(element: Element, content: string) returns (content': string)
    ensures content' == content + ElementText(element)
    decreases element, 1
  {
    content' := content;
    if element.paragraph.Some? {
      content' := AppendRuns(element.paragraph.value.elements, content');
    }
    if element.table.Some? {
      content' := AppendRows(element.table.value.tableRows, content');
    }
    ConcatAssoc(content, if element.paragraph.Some? then RunsText(element.paragraph.value.elements) else "",
                if element.table.Some? then RowsText(element.table.value.tableRows) else "");
  }

  /** `extractText`: for each element in order, append its paragraph's runs,
      then the text of its table's cells. */
  method ExtractText(elements: seq<Element>, content: string) returns (content': string)
    ensures content' == content + ElementsText(elements)
    decreases elements, 1
  {
    content' := content;
    var i := 0;
    while i < |elements|
      invariant i <= |elements|
      invariant content' == content + ElementsText(elements[..i])
    {
      assert elements[..i + 1][..i] == elements[..i];
      ConcatAssoc(content, ElementsText(elements[..i]), ElementText(elements[i]));
      content' := AppendElement(elements[i], content');
      i := i + 1;
    }
    assert elements[..i] == elements;
  }

  // ---------------------------------------------------------------------------
  // Documents

  /** `getDocument`: a missing document is an error; otherwise the title
      defaults to 'Untitled Document', the content is the extracted text
      trimmed (undefined when that is empty), and the link is built from the
      id asked for. */
  method GetDocument(documentId: string, doc: Option<DocData>) returns (r: Result<GoogleDocument, string>)
    ensures doc.None? <==> r == Err(DocumentNotFound)
    ensures doc.Some? ==>
      var d := doc.value;
      var text := if d.body.Some? && d.body.value.content.Some? then ElementsText(d.body.value.content.value) else "";
      r == Ok(GoogleDocument(documentId, OrElse(d.title, UntitledDocument), NonEmpty(Trim(text)),
                             d.createdTime, d.modifiedTime, WebViewLink(documentId)))
  {
    if doc.None? {
      return Err(DocumentNotFound);
    }
    var d := doc.value;
    var content := "";
    if d.body.Some? && d.body.value.content.Some? {
      content := ExtractText(d.body.value.content.value, content);
      assert content == ElementsText(d.body.value.content.value);
    }
    r := Ok(GoogleDocument(documentId, OrElse(d.title, UntitledDocument), NonEmpty(Trim(content)),
                           d.createdTime, d.modifiedTime, WebViewLink(documentId)));
  }

  /** A fetched document's content, when present, is non-empty text of the
      document with no surrounding whitespace, and a document without text
      has none. */
  lemma FetchedContentShape(text: string)
    ensures var content := NonEmpty(Trim(text));
      && (content.Some? ==> && content.value != "" && Contains(text, content.value)
                            && !IsSpace(content.value[0]) && !IsSpace(content.value[|content.value| - 1]))
      && (text == "" ==> content.None?)
  {
    if text == "" {
      assert |Trim(text)| <= |text|;
    }
  }

  /** A fetched document's title is never empty. */
  lemma FetchedTitleNonEmpty(title: Option<string>)
    ensures OrElse(title, UntitledDocument) != ""
  {
    assert |UntitledDocument| > 0;
  }

  /** `createDocument`: the create reply must carry a document id; the
      document is then fetched, its title falling back to the one asked
      for. */
  function CreateDocument(title: string, createdId: Option<string>, fetched: DocData): (r: Result<GoogleDocument, string>)
    ensures r.Err? <==> !Truthy(createdId)
    ensures r.Err? ==> r.error == CreateFailed
    ensures r.Ok? ==>
      && r.value.id == createdId.value && r.value.webViewLink == WebViewLink(createdId.value)
      && r.value.title == (if Truthy(fetched.title) then fetched.title.value else title)
      && r.value.content.None?
      && r.value.createdTime == fetched.createdTime && r.value.modifiedTime == fetched.modifiedTime
  {
    if !Truthy(createdId) then Err(CreateFailed)
    else
      var documentId := createdId.value;
      Ok(GoogleDocument(documentId, OrElse(fetched.title, title), None,
                        fetched.createdTime, fetched.modifiedTime, WebViewLink(documentId)))
  }

  // ---------------------------------------------------------------------------
  // Appending text

  /** The `insertText` request sent by `batchUpdate`. */
  datatype InsertText = InsertText(index: int, text: string)

  /** Where `appendTextToDocument` inserts: 1 in an empty body, otherwise
      one before the last element's end (`endIndex || 1`). */
  function InsertIndex(content: seq<Element>): int {
    if content == [] then 1
    else
      var last := content[|content| - 1].endIndex;
      (if last.Some? && last.value != 0 then last.value else 1) - 1
  }

  /** `appendTextToDocument`: a document whose body has no content array is
      an error; otherwise the text and a newline are inserted at
      `InsertIndex` of the body's content. */
  method AppendTextToDocument(doc: DocData, text: string) returns (r: Result<InsertText, string>)
    ensures r.Err? <==> doc.body.None? || doc.body.value.content.None?
    ensures r.Err? ==> r.error == NoContent
    ensures r.Ok? ==>
      var content := doc.body.value.content.value;
      && r.value.text == text + "\n"
      && r.value.index == InsertIndex(content)
      && (content == [] ==> r.value.index == 1)
      && (content != [] ==>
            var last := content[|content| - 1].endIndex;
            r.value.index == if last.Some? && last.value != 0 then last.value - 1 else 0)
  {
    if doc.body.None? || doc.body.value.content.None? {
      return Err(NoContent);
    }
    var content := doc.body.value.content.value;
    var endIndex := 1;
    if |content| > 0 {
      var lastElement := content[|content| - 1];
      var lastEnd := if lastElement.endIndex.Some? && lastElement.endIndex.value != 0 then lastElement.endIndex.value else 1;
      endIndex := lastEnd - 1;
    }
    r := Ok(InsertText(endIndex, text + "\n"));
  }

  /** The insertion point is never negative when the last element's end is
      not: it lies strictly before a positive end, and is 0 when that end is
      missing or 0, and 1 in an empty body. */
  lemma InsertionInsideDocument(content: seq<Element>)
    requires content != [] && content[|content| - 1].endIndex.Some? ==> content[|content| - 1].endIndex.value >= 0
    ensures InsertIndex(content) >= 0
    ensures content == [] ==> InsertIndex(content) == 1
    ensures content != [] && content[|content| - 1].endIndex.Some? && content[|content| - 1].endIndex.value > 0 ==>
      InsertIndex(content) < content[|content| - 1].endIndex.value
    ensures content != [] && (content[|content| - 1].endIndex.None? || content[|content| - 1].endIndex.value == 0) ==>
      InsertIndex(content) == 0
  {
  }

  /** `updateDocumentTitle`'s request: it re-sends the document's background
      style, whatever the title asked for, so the title is left unchanged. */
  datatype StyleUpdate = StyleUpdate(background: Option<string>, fields: string)

  function UpdateDocumentTitle(doc: Option<DocData>, title: string): (r: Result<StyleUpdate, string>)
    ensures doc.None? <==> r == Err(DocumentNotFound)
    ensures doc.Some? ==> r == Ok(StyleUpdate(doc.value.background, "background"))
  {
    if doc.None? then Err(DocumentNotFound) else Ok(StyleUpdate(doc.value.background, "background"))
  }

  /** The title asked for never reaches the request. */
  lemma UpdateIgnoresTitle(doc: Option<DocData>, a: string, b: string)
    ensures UpdateDocumentTitle(doc, a) == UpdateDocumentTitle(doc, b)
  {
  }
}
