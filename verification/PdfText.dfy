/** Text in a PDF content stream: escaping, and literal strings as section 7.3.4.2 of ISO 32000-1 reads them. */
module PdfText {
  /** Every occurrence of one character replaced. */
  function ReplaceAll(text: string, c: char, instead: string): string {
    if text == [] then []
    else (if text[0] == c then instead else [text[0]]) + ReplaceAll(text[1..], c, instead)
  }

  /** The three replacements, one after the other: backslashes first. */
  function EscapePdfText(text: string): string {
    ReplaceAll(ReplaceAll(ReplaceAll(text, '\\', "\\\\"), '(', "\\("), ')', "\\)")
  }

  predicate Special(c: char) {
    c == '\\' || c == '(' || c == ')'
  }

  /** One pass: a backslash before every special character. */
  function Escaped(text: string): string {
    if text == [] then []
    else (if Special(text[0]) then ['\\', text[0]] else [text[0]]) + Escaped(text[1..])
  }

  lemma {:induction false} ReplaceAppend(a: string, b: string, c: char, instead: string)
    ensures ReplaceAll(a + b, c, instead) == ReplaceAll(a, c, instead) + ReplaceAll(b, c, instead)
  {
    if a == [] {
      assert a + b == b;
    } else {
      assert (a + b)[1..] == a[1..] + b;
      ReplaceAppend(a[1..], b, c, instead);
    }
  }

  lemma ReplaceTwo(x: char, y: char, c: char, instead: string)
    ensures ReplaceAll([x], c, instead) == if x == c then instead else [x]
    ensures ReplaceAll([x, y], c, instead) == (if x == c then instead else [x]) + (if y == c then instead else [y])
  {
    assert [x][1..] == [] && [x, y][1..] == [y] && [y][1..] == [];
    assert ReplaceAll([y], c, instead) == (if y == c then instead else [y]) + [];
  }

  lemma EscapeAppend(a: string, b: string)
    ensures EscapePdfText(a + b) == EscapePdfText(a) + EscapePdfText(b)
  {
    ReplaceAppend(a, b, '\\', "\\\\");
    var a1, b1 := ReplaceAll(a, '\\', "\\\\"), ReplaceAll(b, '\\', "\\\\");
    ReplaceAppend(a1, b1, '(', "\\(");
    ReplaceAppend(ReplaceAll(a1, '(', "\\("), ReplaceAll(b1, '(', "\\("), ')', "\\)");
  }

  lemma EscapeOne(c: char)
    ensures EscapePdfText([c]) == if Special(c) then ['\\', c] else [c]
  {
    ReplaceTwo(c, c, '\\', "\\\\");
    ReplaceTwo(c, c, '(', "\\(");
    ReplaceTwo(c, c, ')', "\\)");
    ReplaceTwo('\\', c, '(', "\\(");
    ReplaceTwo('\\', c, ')', "\\)");
  }

  /** No replacement disturbs an earlier one: the three together are the one pass. */
  lemma {:induction false} ThreeReplacementsAreOnePass(text: string)
    ensures EscapePdfText(text) == Escaped(text)
  {
    if text != [] {
      assert text == [text[0]] + text[1..];
      EscapeAppend([text[0]], text[1..]);
      EscapeOne(text[0]);
      ThreeReplacementsAreOnePass(text[1..]);
    }
  }

  // ---- Reading a literal string ---------------------------------------------

  datatype Reading = Reading(text: string, rest: string) | Unterminated

  function Prefixed(c: char, r: Reading): Reading {
    match r
    case Reading(text, rest) => Reading([c] + text, rest)
    case Unterminated => Unterminated
  }

  predicate Octal(c: char) {
    '0' <= c <= '7'
  }

  function OctalRun(s: string, limit: nat): (n: nat)
    ensures n <= limit && n <= |s|
    ensures forall k :: 0 <= k < n ==> Octal(s[k])
  {
    if limit == 0 || s == [] || !Octal(s[0]) then 0 else 1 + OctalRun(s[1..], limit - 1)
  }

  function OctalValue(s: string): nat
    requires forall k :: 0 <= k < |s| ==> Octal(s[k])
  {
    if s == [] then 0
    else
      assert Octal(s[|s| - 1]);
      OctalValue(s[..|s| - 1]) * 8 + (s[|s| - 1] as int - '0' as int)
  }

  function NamedEscape(c: char): char {
    if c == 'n' then '\n'
    else if c == 'r' then '\r'
    else if c == 't' then '\t'
    else if c == 'b' then 8 as char
    else if c == 'f' then 12 as char
    else c
  }

  /** The characters of a literal string up to its closing parenthesis, from just after the opening one, with
      `depth` inner parentheses open. An end-of-line in any form reads as a line feed. */
  function ReadLiteral(s: string, depth: nat): (r: Reading)
    ensures r.Reading? ==> |r.rest| < |s|
    decreases |s|
  {
    if s == [] then Unterminated
    else if s[0] == ')' then
      if depth == 0 then Reading([], s[1..]) else Prefixed(')', ReadLiteral(s[1..], depth - 1))
    else if s[0] == '(' then Prefixed('(', ReadLiteral(s[1..], depth + 1))
    else if s[0] == '\r' then
      Prefixed('\n', ReadLiteral(if |s| > 1 && s[1] == '\n' then s[2..] else s[1..], depth))
    else if s[0] != '\\' then Prefixed(s[0], ReadLiteral(s[1..], depth))
    else if |s| == 1 then Unterminated
    else if Octal(s[1]) then
      var n := OctalRun(s[1..], 3);
      Prefixed((OctalValue(s[1..1 + n]) % 256) as char, ReadLiteral(s[1 + n..], depth))
    else if s[1] == '\n' then ReadLiteral(s[2..], depth)
    else if s[1] == '\r' then ReadLiteral(if |s| > 2 && s[2] == '\n' then s[3..] else s[2..], depth)
    else Prefixed(NamedEscape(s[1]), ReadLiteral(s[2..], depth))
  }

  /** Ends of line as a reader sees them. */
  function LineFeeds(text: string): string
    decreases |text|
  {
    if text == [] then []
    else if text[0] == '\r' then
      ['\n'] + LineFeeds(if |text| > 1 && text[1] == '\n' then text[2..] else text[1..])
    else [text[0]] + LineFeeds(text[1..])
  }

  lemma ReadSpecial(c: char, after: string)
    requires Special(c)
    ensures ReadLiteral(['\\', c] + after, 0) == Prefixed(c, ReadLiteral(after, 0))
  {
    assert (['\\', c] + after)[2..] == after;
  }

  lemma ReadPlain(c: char, after: string)
    requires !Special(c) && c != '\r'
    ensures ReadLiteral([c] + after, 0) == Prefixed(c, ReadLiteral(after, 0))
  {
    assert ([c] + after)[1..] == after;
  }

  lemma ReadReturn(after: string)
    ensures ReadLiteral(['\r'] + after, 0)
      == Prefixed('\n', ReadLiteral(if after != [] && after[0] == '\n' then after[1..] else after, 0))
  {
    var s := ['\r'] + after;
    assert s[1..] == after;
    if after != [] {
      assert s[2..] == after[1..];
    }
  }

  /** A reader stops exactly at the parenthesis the writer closed with, and has read the text with its ends of
      line as line feeds. */
  lemma {:induction false} ReaderRecovers(text: string, tail: string)
    ensures ReadLiteral(Escaped(text) + ")" + tail, 0) == Reading(LineFeeds(text), tail)
    decreases |text|
  {
    if text == [] {
      assert Escaped(text) + ")" + tail == [')'] + tail;
    } else {
      var c, after := text[0], Escaped(text[1..]) + ")" + tail;
      ReaderRecovers(text[1..], tail);
      if Special(c) {
        assert Escaped(text) + ")" + tail == ['\\', c] + after;
        ReadSpecial(c, after);
      } else {
        assert Escaped(text) + ")" + tail == [c] + after;
        if c == '\r' {
          ReadReturn(after);
          FirstWritten(text[1..], tail);
          if |text| > 1 && text[1] == '\n' {
            ReaderRecovers(text[2..], tail);
          }
        } else {
          ReadPlain(c, after);
        }
      }
    }
  }

  lemma FirstWritten(text: string, tail: string)
    ensures var s := Escaped(text) + ")" + tail;
      (s[0] == '\n' <==> text != [] && text[0] == '\n')
      && (s[0] == '\n' ==> s[1..] == Escaped(text[1..]) + ")" + tail)
  {
    if text != [] && text[0] == '\n' {
      assert Escaped(text) == ['\n'] + Escaped(text[1..]);
    }
  }

  lemma {:induction false} LineFeedsKeep(text: string)
    ensures LineFeeds(text) == text <==> '\r' !in text
    ensures '\r' !in LineFeeds(text)
    decreases |text|
  {
    if text != [] {
      LineFeedsKeep(text[1..]);
      assert text == [text[0]] + text[1..];
      if text[0] == '\r' {
        if |text| > 1 && text[1] == '\n' {
          LineFeedsKeep(text[2..]);
        }
        assert LineFeeds(text)[0] == '\n';
      }
    }
  }

  /** What is written between parentheses reads back as itself exactly when it holds no carriage return. */
  lemma EscapeRoundTrip(text: string, tail: string)
    ensures ReadLiteral(EscapePdfText(text) + ")" + tail, 0) == Reading(text, tail) <==> '\r' !in text
    ensures ReadLiteral(EscapePdfText(text) + ")" + tail, 0) == Reading(LineFeeds(text), tail)
  {
    ThreeReplacementsAreOnePass(text);
    ReaderRecovers(text, tail);
    LineFeedsKeep(text);
  }

  /** So different texts without carriage returns are written differently. */
  lemma EscapeIsInjective(a: string, b: string)
    requires '\r' !in a && '\r' !in b && EscapePdfText(a) == EscapePdfText(b)
    ensures a == b
  {
    EscapeRoundTrip(a, []);
    EscapeRoundTrip(b, []);
  }
}
