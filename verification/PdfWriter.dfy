/** The built-in contract PDF generator: the page's content stream, and the file around it with its
    cross-reference table as section 7.5.4 of ISO 32000-1 defines it. */
module PdfWriter {
  import opened PdfText
  import opened PdfBytes
  import opened PdfTokens

  // ---- The content stream ---------------------------------------------------

  datatype Section = Section(heading: string, body: string)

  // The texts of a contract, with variables filled in and tone marks stripped.
  datatype Draft = Draft(title: string, number: string, partyA: string, partyB: string, sections: seq<Section>)

  function Heading(k: nat, s: Section): string {
    "Dieu " + Decimal(k + 1) + ": " + s.heading
  }

  function SectionTexts(sections: seq<Section>): seq<string> {
    if sections == [] then []
    else
      var k := |sections| - 1;
      SectionTexts(sections[..k]) + [Heading(k, sections[k]), sections[k].body]
  }

  /** What the page is to say, in order. */
  function Texts(d: Draft): seq<string> {
    [STATE, MOTTO, d.title] + [d.number, d.partyA, d.partyB] + SectionTexts(d.sections)
  }

  function Joined(lines: seq<string>): string {
    if lines == [] then []
    else if |lines| == 1 then lines[0]
    else Joined(lines[..|lines| - 1]) + "\n" + lines[|lines| - 1]
  }

  /** The lines with an end of line after each. */
  function Flow(lines: seq<string>): string {
    if lines == [] then [] else Flow(lines[..|lines| - 1]) + (lines[|lines| - 1] + "\n")
  }

  lemma FlowSnoc(lines: seq<string>, line: string)
    ensures Flow(lines + [line]) == Flow(lines) + (line + "\n")
  {
    assert (lines + [line])[..|lines|] == lines;
  }

  lemma {:induction false} JoinedEnds(lines: seq<string>, last: string)
    ensures Joined(lines + [last]) == Flow(lines) + last
  {
    assert (lines + [last])[..|lines|] == lines;
    if lines != [] {
      var n := |lines| - 1;
      JoinedEnds(lines[..n], lines[n]);
      assert lines == lines[..n] + [lines[n]];
    }
  }

  /** The operators that choose a font size and that move to the next line. */
  function Font(size: string): seq<string> {
    ["/F1", size, "Tf"]
  }

  function Down(step: string): seq<string> {
    ["0", step, "Td"]
  }

  lemma GoodMoves()
    ensures GoodWords(Down("-14")) && GoodWords(Down("-16")) && GoodWords(Down("-20")) && GoodWords(Down("-24"))
  {
  }

  lemma GoodFonts()
    ensures GoodWords(Font("8")) && GoodWords(Font("9")) && GoodWords(Font("10")) && GoodWords(Font("14"))
  {
  }

  lemma GoodStart()
    ensures GoodWords(["BT"]) && GoodWords(["297", "790", "Td"])
  {
  }

  method Operators(lines: seq<string>, words: seq<string>, ghost texts: seq<string>) returns (more: seq<string>)
    requires Draws(Flow(lines), texts) && GoodWords(words)
    ensures more == lines + [Spaced(words)] && Draws(Flow(more), texts)
  {
    more := lines + [Spaced(words)];
    FlowSnoc(lines, Spaced(words));
    OperatorsAfter(Flow(lines), texts, words);
  }

  method ShowAfter(lines: seq<string>, operators: seq<seq<string>>, text: string, ghost texts: seq<string>)
    returns (more: seq<string>)
    requires Draws(Flow(lines), texts)
    requires forall k :: 0 <= k < |operators| ==> GoodWords(operators[k])
    ensures Draws(Flow(more), texts + [text])
  {
    more := lines;
    for k := 0 to |operators|
      invariant Draws(Flow(more), texts)
    {
      more := Operators(more, operators[k], texts);
    }
    FlowSnoc(more, Show(text));
    TextAfter(Flow(more), texts, text);
    more := more + [Show(text)];
  }

  const STATE := "CONG HOA XA HOI CHU NGHIA VIET NAM"
  const MOTTO := "Doc lap - Tu do - Hanh phuc"

  method TitleLines(state: string, motto: string, title: string) returns (lines: seq<string>)
    ensures Draws(Flow(lines), [state, motto, title])
  {
    GoodStart();
    GoodFonts();
    GoodMoves();
    NothingIsDrawn();
    lines := ShowAfter([], [["BT"], Font("10"), ["297", "790", "Td"]], state, []);
    lines := ShowAfter(lines, [Down("-14"), Font("9")], motto, [state]);
    lines := ShowAfter(lines, [Down("-24"), Font("14")], title, [state] + [motto]);
    assert [state] + [motto] + [title] == [state, motto, title];
  }

  method PartyLines(d: Draft, titles: seq<string>, ghost texts: seq<string>) returns (lines: seq<string>)
    requires Draws(Flow(titles), texts)
    ensures Draws(Flow(lines), texts + [d.number, d.partyA, d.partyB])
  {
    GoodFonts();
    GoodMoves();
    lines := ShowAfter(titles, [Down("-16"), Font("9")], d.number, texts);
    lines := ShowAfter(lines, [Down("-20"), Font("9")], d.partyA, texts + [d.number]);
    lines := ShowAfter(lines, [Down("-14")], d.partyB, texts + [d.number] + [d.partyA]);
    assert texts + [d.number] + [d.partyA] + [d.partyB] == texts + [d.number, d.partyA, d.partyB];
    lines := Operators(lines, Down("-20"), texts + [d.number, d.partyA, d.partyB]);
  }

  method SectionLines(before: seq<string>, idx: nat, sec: Section, ghost texts: seq<string>)
    returns (lines: seq<string>)
    requires Draws(Flow(before), texts)
    ensures Draws(Flow(lines), texts + [Heading(idx, sec), sec.body])
  {
    GoodFonts();
    GoodMoves();
    lines := ShowAfter(before, [Font("10")], Heading(idx, sec), texts);
    lines := ShowAfter(lines, [Down("-14"), Font("8")], sec.body, texts + [Heading(idx, sec)]);
    assert texts + [Heading(idx, sec)] + [sec.body] == texts + [Heading(idx, sec), sec.body];
    lines := Operators(lines, Down("-16"), texts + [Heading(idx, sec), sec.body]);
  }

  /** A reader of the stream finds exactly the contract's texts painted, in order, and no other string. */
  method ContentLines(d: Draft) returns (lines: seq<string>)
    ensures DrawsExactly(Joined(lines), Texts(d))
  {
    lines := TitleLines(STATE, MOTTO, d.title);
    lines := PartyLines(d, lines, [STATE, MOTTO, d.title]);
    ghost var head := [STATE, MOTTO, d.title] + [d.number, d.partyA, d.partyB];
    assert head + SectionTexts([]) == head;
    for idx := 0 to |d.sections|
      invariant Draws(Flow(lines), head + SectionTexts(d.sections[..idx]))
    {
      ghost var done := head + SectionTexts(d.sections[..idx]);
      lines := SectionLines(lines, idx, d.sections[idx], done);
      assert d.sections[..idx + 1][..idx] == d.sections[..idx];
      assert done + [Heading(idx, d.sections[idx]), d.sections[idx].body]
        == head + SectionTexts(d.sections[..idx + 1]);
    }
    assert d.sections[..|d.sections|] == d.sections;
    JoinedEnds(lines, "ET");
    OperatorsAtEnd(Flow(lines), Texts(d), "ET");
    lines := lines + ["ET"];
  }

  // ---- The file -------------------------------------------------------------

  /** The bytes of `piece` stand at `offset` in the bytes of `s`. */
  predicate PieceAt(s: string, offset: nat, piece: string) {
    Holds(Utf8(s), offset, Utf8(piece))
  }

  lemma PieceStays(s: string, offset: nat, piece: string, more: string)
    requires PieceAt(s, offset, piece)
    ensures PieceAt(s + more, offset, piece)
  {
    Utf8Append(s, more);
  }

  lemma PieceAppended(s: string, piece: string)
    ensures PieceAt(s + piece, ByteLength(s), piece)
    ensures ByteLength(s + piece) == ByteLength(s) + ByteLength(piece)
  {
    Utf8Append(s, piece);
  }

  function TableHead(objects: nat): string {
    "xref\n" + ("0 " + Decimal(objects + 1) + "\n")
  }

  const IN_USE := " 00000 n \n"
  const FREE_ENTRY := "0000000000 65535 f \n"

  function Entry(offset: nat): string {
    PadStart(Decimal(offset), 10) + IN_USE
  }

  lemma InUseBytes()
    ensures Utf8(IN_USE) == [32, 48, 48, 48, 48, 48, 32, 110, 32, 10]
  {
    AsciiBytes(IN_USE);
  }

  /** An entry parses back to its offset, and is the required twenty bytes exactly for offsets of at most ten
      digits. */
  lemma EntryWidthExactly(offset: nat)
    ensures ByteLength(Entry(offset)) == 20 <==> offset < 10_000_000_000
    ensures offset < 10_000_000_000 ==> ParsesTo(Utf8(Entry(offset))[..10], offset)
    ensures offset < 10_000_000_000 ==> Utf8(Entry(offset))[10..] == [32, 48, 48, 48, 48, 48, 32, 110, 32, 10]
  {
    var digits := PadStart(Decimal(offset), 10);
    PaddedParses(offset, 10);
    TenDigits();
    Utf8Append(digits, IN_USE);
    AsciiBytes(digits);
    InUseBytes();
  }

  lemma TenDigits()
    ensures Power(10) == 10_000_000_000
  {
    assert Power(5) == 100_000;
    assert Power(10) == 10 * (10 * (10 * (10 * (10 * Power(5)))));
  }

  /** Every offset fits an entry. */
  predicate Small(offsets: seq<nat>) {
    forall k :: 0 <= k < |offsets| ==> offsets[k] < 10_000_000_000
  }

  /** The entry of object `k + 1`, after the table's head and the entry of object zero. */
  function EntryAt(startXref: nat, objects: nat, k: nat): nat {
    startXref + ByteLength(TableHead(objects)) + 20 * (k + 1)
  }

  function Tail(objects: nat, startXref: nat): string {
    "trailer\n" + ("<< /Size " + Decimal(objects + 1) + " /Root 1 0 R >>\n") + "startxref\n"
    + (Decimal(startXref) + "\n") + "%%EOF\n"
  }

  /** The file holds every object where its offset says, a table of those offsets where `startXref` says, and
      says so at its end. */
  ghost predicate Indexed(pdf: string, objects: seq<string>, offsets: seq<nat>, startXref: nat) {
    && |offsets| == |objects|
    && (forall k :: 0 <= k < |objects| ==> PieceAt(pdf, offsets[k], objects[k]))
    && PieceAt(pdf, startXref, TableHead(|objects|))
    && (Small(offsets) ==>
          forall k :: 0 <= k < |objects| ==> PieceAt(pdf, EntryAt(startXref, |objects|, k), Entry(offsets[k])))
    && exists before :: pdf == before + Tail(|objects|, startXref)
  }

  method Assemble(objects: seq<string>) returns (pdf: string, offsets: seq<nat>, startXref: nat)
    ensures Indexed(pdf, objects, offsets, startXref)
  {
    pdf, offsets := "%PDF-1.4\n", [];
    for i := 0 to |objects|
      invariant |offsets| == i
      invariant forall k :: 0 <= k < i ==> PieceAt(pdf, offsets[k], objects[k])
    {
      forall k | 0 <= k < i ensures PieceAt(pdf + objects[i] + "\n", offsets[k], objects[k]) {
        PieceStays(pdf, offsets[k], objects[k], objects[i]);
        PieceStays(pdf + objects[i], offsets[k], objects[k], "\n");
      }
      PieceAppended(pdf, objects[i]);
      PieceStays(pdf + objects[i], ByteLength(pdf), objects[i], "\n");
      offsets := offsets + [ByteLength(pdf)];
      pdf := pdf + objects[i] + "\n";
    }
    startXref := ByteLength(pdf);
    var table := WriteTable(offsets);
    forall k | 0 <= k < |objects| ensures PieceAt(pdf + table, offsets[k], objects[k]) {
      PieceStays(pdf, offsets[k], objects[k], table);
    }
    PieceMoved(pdf, table, 0, TableHead(|objects|));
    ghost var body := pdf + table;
    var tail := Tail(|objects|, startXref);
    forall k | 0 <= k < |objects| ensures PieceAt(body + tail, offsets[k], objects[k]) {
      PieceStays(body, offsets[k], objects[k], tail);
    }
    PieceStays(body, startXref, TableHead(|objects|), tail);
    forall k | 0 <= k < |objects| && Small(offsets)
      ensures PieceAt(body + tail, EntryAt(startXref, |objects|, k), Entry(offsets[k]))
    {
      EntryInFile(pdf, table, offsets, k);
      PieceStays(body, EntryAt(startXref, |objects|, k), Entry(offsets[k]), tail);
    }
    pdf := pdf + table + tail;
  }

  predicate TableFine(table: string, offsets: seq<nat>) {
    && PieceAt(table, 0, TableHead(|offsets|))
    && (Small(offsets) ==> forall k :: 0 <= k < |offsets| ==>
          PieceAt(table, EntryAt(0, |offsets|, k), Entry(offsets[k])))
  }

  /** The table with its first `i` entries. */
  predicate Partial(table: string, offsets: seq<nat>, i: nat)
    requires i <= |offsets|
  {
    && PieceAt(table, 0, TableHead(|offsets|))
    && (Small(offsets) ==> ByteLength(table) == EntryAt(0, |offsets|, i))
    && (Small(offsets) ==> forall k :: 0 <= k < i ==> PieceAt(table, EntryAt(0, |offsets|, k), Entry(offsets[k])))
  }

  lemma TableStarts(offsets: seq<nat>)
    ensures Partial(TableHead(|offsets|) + FREE_ENTRY, offsets, 0)
  {
    var head := TableHead(|offsets|);
    PieceAppended("", head);
    assert "" + head == head;
    PieceStays(head, 0, head, FREE_ENTRY);
    AsciiBytes(FREE_ENTRY);
    PieceAppended(head, FREE_ENTRY);
  }

  lemma TableGrows(table: string, offsets: seq<nat>, i: nat)
    requires i < |offsets| && Partial(table, offsets, i)
    ensures Partial(table + Entry(offsets[i]), offsets, i + 1)
  {
    var n, entry := |offsets|, Entry(offsets[i]);
    PieceStays(table, 0, TableHead(n), entry);
    if Small(offsets) {
      EntryWidthExactly(offsets[i]);
      PieceAppended(table, entry);
      forall k | 0 <= k < i ensures PieceAt(table + entry, EntryAt(0, n, k), Entry(offsets[k])) {
        PieceStays(table, EntryAt(0, n, k), Entry(offsets[k]), entry);
      }
    }
  }

  method WriteTable(offsets: seq<nat>) returns (table: string)
    ensures TableFine(table, offsets)
  {
    table := "xref\n" + ("0 " + Decimal(|offsets| + 1) + "\n");
    TableStarts(offsets);
    table := table + FREE_ENTRY;
    for i := 0 to |offsets|
      invariant Partial(table, offsets, i)
    {
      TableGrows(table, offsets, i);
      table := table + (PadStart(Decimal(offsets[i]), 10) + IN_USE);
    }
  }

  lemma PieceMoved(s: string, t: string, offset: nat, piece: string)
    requires PieceAt(t, offset, piece)
    ensures PieceAt(s + t, ByteLength(s) + offset, piece)
  {
    Utf8Append(s, t);
  }

  lemma EntryInFile(pdf: string, table: string, offsets: seq<nat>, k: nat)
    requires TableFine(table, offsets) && Small(offsets) && k < |offsets|
    ensures PieceAt(pdf + table, EntryAt(ByteLength(pdf), |offsets|, k), Entry(offsets[k]))
  {
    PieceMoved(pdf, table, EntryAt(0, |offsets|, k), Entry(offsets[k]));
  }

  // ---- The whole ------------------------------------------------------------

  function StreamHead(length: nat): string {
    "5 0 obj\n<< /Length " + Decimal(length) + " >>\nstream\n"
  }

  const STREAM_END := "\nendstream\nendobj"

  const FIXED_OBJECTS := [
    "1 0 obj\n<< /Type /Catalog /Pages 2 0 R >>\nendobj",
    "2 0 obj\n<< /Type /Pages /Kids [3 0 R] /Count 1 >>\nendobj",
    "3 0 obj\n<< /Type /Page /Parent 2 0 R /MediaBox [0 0 595.28 841.89] /Contents 5 0 R "
    + "/Resources << /Font << /F1 4 0 R >> >> >>\nendobj",
    "4 0 obj\n<< /Type /Font /Subtype /Type1 /BaseFont /Helvetica >>\nendobj"]

  lemma PieceOfPiece(s: string, offset: nat, a: string, b: string, c: string)
    requires PieceAt(s, offset, a + b + c)
    ensures PieceAt(s, offset + ByteLength(a), b)
    ensures PieceAt(s, offset + ByteLength(a) + ByteLength(b), c)
  {
    Utf8Append(a + b, c);
    Utf8Append(a, b);
    HoldsParts(Utf8(s), offset, Utf8(a), Utf8(b), Utf8(c));
  }

  method AssembleWithStream(fixed: seq<string>, head: string, stream: string, ending: string)
    returns (pdf: string, offsets: seq<nat>, startXref: nat)
    ensures Indexed(pdf, fixed + [head + stream + ending], offsets, startXref)
    ensures PieceAt(pdf, offsets[|fixed|] + ByteLength(head), stream)
    ensures PieceAt(pdf, offsets[|fixed|] + ByteLength(head) + ByteLength(stream), ending)
  {
    var objects := fixed + [head + stream + ending];
    pdf, offsets, startXref := Assemble(objects);
    assert PieceAt(pdf, offsets[|fixed|], objects[|fixed|]);
    PieceOfPiece(pdf, offsets[|fixed|], head, stream, ending);
  }

  /** The generated file: the page's texts in its stream, the stream and its companions in an indexed file, and
      right after the length entry exactly as many bytes of stream as it announces, then `endstream`. */
  ghost predicate Generated(d: Draft, pdf: string, stream: string, fixed: seq<string>, ending: string,
                            offsets: seq<nat>, startXref: nat)
  {
    var head := StreamHead(ByteLength(stream));
    && DrawsExactly(stream, Texts(d))
    && Indexed(pdf, fixed + [head + stream + ending], offsets, startXref)
    && PieceAt(pdf, offsets[|fixed|] + ByteLength(head), stream)
    && PieceAt(pdf, offsets[|fixed|] + ByteLength(head) + ByteLength(stream), ending)
  }

  method Render(d: Draft, fixed: seq<string>, ending: string)
    returns (pdf: string, stream: string, offsets: seq<nat>, startXref: nat)
    ensures Generated(d, pdf, stream, fixed, ending, offsets, startXref)
  {
    var lines := ContentLines(d);
    stream := Joined(lines);
    var head := StreamHead(ByteLength(stream));
    pdf, offsets, startXref := AssembleWithStream(fixed, head, stream, ending);
  }

  method RenderWithBuiltInGenerator(d: Draft) returns (pdf: string, stream: string, offsets: seq<nat>, startXref: nat)
    ensures Generated(d, pdf, stream, FIXED_OBJECTS, STREAM_END, offsets, startXref)
  {
    pdf, stream, offsets, startXref := Render(d, FIXED_OBJECTS, STREAM_END);
  }
}
