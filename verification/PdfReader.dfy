/** A reader's way into a file, as section 7.5 of ISO 32000-1 lays it out: from the end to the cross-reference
    table, from the table to an object. Every file the generator assembles can be read this way. */
module PdfReader {
  import opened PdfText
  import opened PdfBytes
  import opened PdfWriter

  /** The digits a byte string ends with. */
  function TrailingDigits(bytes: seq<byte>): (digits: seq<byte>)
    ensures forall k :: 0 <= k < |digits| ==> Digit(digits[k])
  {
    if bytes == [] || !Digit(bytes[|bytes| - 1]) then []
    else TrailingDigits(bytes[..|bytes| - 1]) + [bytes[|bytes| - 1]]
  }

  const CLOSING := "\n%%EOF\n"

  /** The offset before the end-of-file marker. */
  function ReadStartXref(bytes: seq<byte>): nat {
    if |bytes| < |CLOSING| then 0 else ParseDecimal(TrailingDigits(bytes[..|bytes| - |CLOSING|]))
  }

  /** The start of the line after the one that holds `at`. */
  function NextLine(bytes: seq<byte>, at: nat): nat
    decreases |bytes| - at
  {
    if at >= |bytes| then at
    else if bytes[at] == 10 then at + 1
    else NextLine(bytes, at + 1)
  }

  /** Where the table's entries begin: two lines below `xref`. */
  function Entries(bytes: seq<byte>): nat {
    NextLine(bytes, NextLine(bytes, ReadStartXref(bytes)))
  }

  /** The offset the table gives for an object, by twenty-byte entries; none if there is no such entry. */
  function Locate(bytes: seq<byte>, number: nat): int {
    var at := Entries(bytes) + 20 * number;
    if at + 10 <= |bytes| && forall k :: at <= k < at + 10 ==> Digit(bytes[k])
    then ParseDecimal(bytes[at..at + 10])
    else -1
  }

  lemma {:induction false} TrailingRun(front: seq<byte>, digits: seq<byte>)
    requires front != [] && !Digit(front[|front| - 1])
    requires forall k :: 0 <= k < |digits| ==> Digit(digits[k])
    ensures TrailingDigits(front + digits) == digits
  {
    if digits == [] {
      assert front + digits == front;
    } else {
      var n := |digits| - 1;
      assert (front + digits)[..|front| + n] == front + digits[..n];
      TrailingRun(front, digits[..n]);
    }
  }

  lemma {:induction false} NextLineIs(bytes: seq<byte>, at: nat, end: nat)
    requires at <= end < |bytes| && bytes[end] == 10
    requires forall k :: at <= k < end ==> bytes[k] != 10
    ensures NextLine(bytes, at) == end + 1
    decreases end - at
  {
    if at < end {
      NextLineIs(bytes, at + 1, end);
    }
  }

  lemma ClosingBytes()
    ensures |Utf8(CLOSING)| == |CLOSING| && |CLOSING| == 7
  {
    AsciiBytes(CLOSING);
  }

  lemma StartXrefReadBack(front: string, startXref: nat)
    ensures ReadStartXref(Utf8(front + "\n" + Decimal(startXref) + CLOSING)) == startXref
  {
    var digits := Decimal(startXref);
    Utf8Append(front + "\n" + digits, CLOSING);
    Utf8Append(front + "\n", digits);
    Utf8Append(front, "\n");
    ClosingBytes();
    assert Utf8("\n") == [10];
    DecimalParses(startXref);
    TrailingRun(Utf8(front + "\n"), Utf8(digits));
    var bytes := Utf8(front + "\n" + digits + CLOSING);
    assert bytes[..|bytes| - 7] == Utf8(front + "\n") + Utf8(digits);
  }

  lemma HeadLines(bytes: seq<byte>, at: nat, objects: nat)
    requires Holds(bytes, at, Utf8(TableHead(objects)))
    ensures NextLine(bytes, NextLine(bytes, at)) == at + ByteLength(TableHead(objects))
  {
    var second := "0 " + Decimal(objects + 1) + "\n";
    Utf8Append("xref\n", second);
    HoldsIn(bytes, at, Utf8("xref\n"), Utf8(second));
    FirstLine(bytes, at);
    SecondLine(bytes, at + ByteLength("xref\n"), objects + 1);
  }

  lemma FirstLine(bytes: seq<byte>, at: nat)
    requires Holds(bytes, at, Utf8("xref\n"))
    ensures NextLine(bytes, at) == at + ByteLength("xref\n")
  {
    AsciiBytes("xref\n");
    assert Utf8("xref\n") == [120, 114, 101, 102, 10];
    assert bytes[at + 4] == 10;
    forall k | at <= k < at + 4 ensures bytes[k] != 10 {
      assert bytes[at + (k - at)] == Utf8("xref\n")[k - at];
    }
    NextLineIs(bytes, at, at + 4);
  }

  lemma SecondLine(bytes: seq<byte>, at: nat, n: nat)
    requires Holds(bytes, at, Utf8("0 " + Decimal(n) + "\n"))
    ensures NextLine(bytes, at) == at + ByteLength("0 " + Decimal(n) + "\n")
  {
    var line := "0 " + Decimal(n) + "\n";
    AsciiBytes(line);
    var end := |line| - 1;
    assert bytes[at + end] == Utf8(line)[end];
    forall k | at <= k < at + end ensures bytes[k] != 10 {
      assert bytes[at + (k - at)] == Utf8(line)[k - at];
      assert k - at >= 2 ==> line[k - at] == Decimal(n)[k - at - 2];
    }
    NextLineIs(bytes, at, at + end);
  }

  lemma EntryRead(bytes: seq<byte>, at: nat, offset: nat)
    requires offset < 10_000_000_000 && Holds(bytes, at, Utf8(Entry(offset)))
    ensures at + 10 <= |bytes| && ParsesTo(bytes[at..at + 10], offset)
  {
    EntryWidthExactly(offset);
    var entry := Utf8(Entry(offset));
    forall k | 0 <= k < 10 ensures bytes[at..at + 10][k] == entry[..10][k] {
      assert bytes[at + k] == entry[k];
    }
    assert bytes[at..at + 10] == entry[..10];
  }

  /** Following the file from its end a reader is led, for every object, to the very bytes of that object,
      whatever the objects hold, as long as their offsets fit the table's ten digits. */
  lemma EveryObjectIsFound(pdf: string, objects: seq<string>, offsets: seq<nat>, startXref: nat, k: nat)
    requires Indexed(pdf, objects, offsets, startXref) && Small(offsets) && k < |objects|
    ensures ReadStartXref(Utf8(pdf)) == startXref
    ensures Locate(Utf8(pdf), k + 1) == offsets[k]
    ensures PieceAt(pdf, offsets[k], objects[k])
  {
    var bytes := Utf8(pdf);
    var before :| pdf == before + Tail(|objects|, startXref);
    TailEnds(before, |objects|, startXref);
    HeadLines(bytes, startXref, |objects|);
    var at := EntryAt(startXref, |objects|, k);
    assert PieceAt(pdf, at, Entry(offsets[k]));
    EntryRead(bytes, at, offsets[k]);
    LocateReads(bytes, k + 1, at, offsets[k]);
  }

  lemma LocateReads(bytes: seq<byte>, number: nat, at: nat, offset: nat)
    requires at == Entries(bytes) + 20 * number
    requires at + 10 <= |bytes| && ParsesTo(bytes[at..at + 10], offset)
    ensures Locate(bytes, number) == offset
  {
    var digits := bytes[at..at + 10];
    forall k | at <= k < at + 10 ensures Digit(bytes[k]) {
      assert Digit(digits[k - at]);
    }
  }

  lemma TailEnds(before: string, objects: nat, startXref: nat)
    ensures ReadStartXref(Utf8(before + Tail(objects, startXref))) == startXref
  {
    var size := "<< /Size " + Decimal(objects + 1) + " /Root 1 0 R >>\n";
    var front := before + ("trailer\n" + size + "startxref");
    StartXrefReadBack(front, startXref);
    assert "startxref\n" == "startxref" + "\n";
    assert "\n" + "%%EOF\n" == CLOSING;
    assert before + Tail(objects, startXref) == front + "\n" + Decimal(startXref) + CLOSING;
  }
}
