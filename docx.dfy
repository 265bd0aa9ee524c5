/**
 * `_support/docx.py`: the visible text of a downloaded DOCX file and the
 * assertion that it holds the required fragments.
 *
 * Parsing the file is python-docx's business and is a parameter here: it
 * turns the bytes into a `Document`, a list of paragraphs followed by a list
 * of tables (rows of cells). A paragraph or cell without text is `None`.
 */
module Docx {
  import opened Json
  import opened Text

  type Cell = Option<string>
  type Row = seq<Cell>
  type Table = seq<Row>

  datatype Document = Document(paragraphs: seq<Option<string>>, tables: seq<Table>)

  /** What the helper is handed: bytes, or anything else. */
  datatype Blob = Bytes(data: seq<bv8>) | NotBytes

  /** `(x.text or "")` */
  function TextOf(x: Option<string>): string
  {
    if x.Some? then x.value else ""
  }

  /** The stripped non-blank texts of a list of paragraphs or cells, in order. */
  function Texts(xs: seq<Option<string>>): (r: seq<string>)
    ensures forall k :: 0 <= k < |r| ==> r[k] != "" && Strip(r[k]) == r[k]
    ensures forall t :: t in r <==> t != "" && exists x :: x in xs && Strip(TextOf(x)) == t
  {
    if xs == [] then []
    else
      var t := Strip(TextOf(xs[0]));
      StripIdempotent(TextOf(xs[0]));
      assert forall x :: x in xs <==> x == xs[0] || x in xs[1..];
      (if t != "" then [t] else []) + Texts(xs[1..])
  }

  /** The cells of the tables in table, row, cell order. */
  function Cells(tables: seq<Table>): seq<Option<string>>
  {
    if tables == [] then [] else RowCells(tables[0]) + Cells(tables[1..])
  }

  function RowCells(rows: seq<Row>): seq<Option<string>>
  {
    if rows == [] then [] else rows[0] + RowCells(rows[1..])
  }

  /** The parts of the text: the paragraph texts first, then the cell texts. */
  function Parts(doc: Document): (r: seq<string>)
    ensures |r| == |Texts(doc.paragraphs)| + |Texts(Cells(doc.tables))|
    ensures r[..|Texts(doc.paragraphs)|] == Texts(doc.paragraphs)
    ensures r[|Texts(doc.paragraphs)|..] == Texts(Cells(doc.tables))
  {
    Texts(doc.paragraphs) + Texts(Cells(doc.tables))
  }

  /**
   * `extract_docx_text`: the empty string for anything that is not bytes or
   * for no bytes at all; otherwise the parts of the parsed document joined
   * with newlines.
   */
  function ExtractDocxText(blob: Blob, parse: seq<bv8> -> Document): (r: string)
    ensures !blob.Bytes? || blob.data == [] ==> r == ""
    ensures blob.Bytes? && blob.data != [] ==>
      forall i :: 0 <= i < |Parts(parse(blob.data))| ==> Contains(r, Parts(parse(blob.data))[i])
    ensures blob.Bytes? && blob.data != [] ==> r == Join("\n", Parts(parse(blob.data)))
    ensures blob.Bytes? && blob.data != [] && Parts(parse(blob.data)) != []
      && (forall i :: 0 <= i < |Parts(parse(blob.data))| ==> '\n' !in Parts(parse(blob.data))[i])
      ==> Split(r, '\n') == Parts(parse(blob.data))
  {
    if !blob.Bytes? || blob.data == [] then ""
    else
      var parts := Parts(parse(blob.data));
      forall i | 0 <= i < |parts|
        ensures Contains(Join("\n", parts), parts[i])
      {
        JoinContainsPart("\n", parts, i);
      }
      if parts != [] && forall i :: 0 <= i < |parts| ==> '\n' !in parts[i] then
        SplitOfJoin(parts, '\n');
        Join("\n", parts)
      else
        Join("\n", parts)
  }

  /** `assert_docx_contains`: blank fragments are skipped; any other fragment missing from the text fails. */
  function AssertDocxContains(text: string, mustInclude: seq<string>): (r: Check)
    ensures r.Pass? <==> ContainsAll(text, mustInclude)
    ensures r.Fail? ==> r.error == AssertionError
    ensures mustInclude == [] ==> r.Pass?
  {
    if ContainsAll(text, mustInclude) then Pass else Fail(AssertionError)
  }

  /** Whatever the document shows in a paragraph is found in the extracted text. */
  lemma ParagraphFound(blob: Blob, parse: seq<bv8> -> Document, k: nat)
    requires blob.Bytes? && blob.data != []
    requires k < |parse(blob.data).paragraphs| && parse(blob.data).paragraphs[k].Some?
    requires Strip(parse(blob.data).paragraphs[k].value) != ""
    ensures AssertDocxContains(ExtractDocxText(blob, parse), [parse(blob.data).paragraphs[k].value]).Pass?
  {
    var doc := parse(blob.data);
    var t := Strip(doc.paragraphs[k].value);
    StripIdempotent(doc.paragraphs[k].value);
    assert doc.paragraphs[k] in doc.paragraphs;
    assert t in Texts(doc.paragraphs);
    var i :| 0 <= i < |Texts(doc.paragraphs)| && Texts(doc.paragraphs)[i] == t;
    assert Parts(doc)[i] == t;
  }

  /** Paragraph text comes before table text: a document of one paragraph and one cell reads as the paragraph, a newline, the cell. */
  lemma ParagraphsBeforeCells(p: string, c: string)
    requires p != "" && Strip(p) == p && c != "" && Strip(c) == c
    ensures Parts(Document([Some(p)], [[[Some(c)]]])) == [p, c]
    ensures Join("\n", Parts(Document([Some(p)], [[[Some(c)]]]))) == p + "\n" + c
  {
    assert Cells([[[Some(c)]]]) == [Some(c)] by {
      assert RowCells([[Some(c)]]) == [Some(c)];
    }
    assert Texts([Some(p)]) == [p];
    assert Texts([Some(c)]) == [c];
  }
}
