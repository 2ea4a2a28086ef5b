/** Reading a PDF content stream as section 7.2 of ISO 32000-1 does: white space, comments, literal strings, and
    words, names and delimiters; and what the strings so found come to on the page. */
module PdfTokens {
  import opened PdfText

  datatype Token = Word(chars: string) | Text(chars: string) | Broken

  predicate White(c: char) {
    c == ' ' || c == '\n' || c == '\r' || c == '\t' || c == 12 as char || c == 0 as char
  }

  predicate Delimiter(c: char) {
    c == '(' || c == ')' || c == '<' || c == '>' || c == '[' || c == ']' || c == '{' || c == '}'
    || c == '/' || c == '%'
  }

  predicate Regular(c: char) {
    !White(c) && !Delimiter(c)
  }

  function RegularRun(s: string): (n: nat)
    ensures n <= |s|
  {
    if s == [] || !Regular(s[0]) then 0 else 1 + RegularRun(s[1..])
  }

  /** A comment goes up to the end of its line. */
  function Comment(s: string): (n: nat)
    ensures n <= |s|
  {
    if s == [] || s[0] == '\n' || s[0] == '\r' then 0 else 1 + Comment(s[1..])
  }

  function Tokens(s: string): seq<Token>
    decreases |s|
  {
    if s == [] then []
    else if White(s[0]) then Tokens(s[1..])
    else if s[0] == '%' then Tokens(s[1 + Comment(s[1..])..])
    else if s[0] == '(' then
      match ReadLiteral(s[1..], 0)
      case Reading(text, rest) => [Text(text)] + Tokens(rest)
      case Unterminated => [Broken]
    else if Delimiter(s[0]) && s[0] != '/' then [Word(s[..1])] + Tokens(s[1..])
    else
      var n := 1 + RegularRun(s[1..]);
      [Word(s[..n])] + Tokens(s[n..])
  }

  const SHOW := Word("Tj")

  /** The strings that are operands of the operator that paints text, in order. */
  function Drawn(tokens: seq<Token>): seq<string> {
    if tokens == [] then []
    else
      var n := |tokens| - 1;
      if n > 0 && tokens[n] == SHOW && tokens[n - 1].Text?
      then Drawn(tokens[..n]) + [tokens[n - 1].chars]
      else Drawn(tokens[..n])
  }

  /** All strings there are. */
  function Strings(tokens: seq<Token>): seq<string> {
    if tokens == [] then []
    else
      var n := |tokens| - 1;
      Strings(tokens[..n]) + if tokens[n].Text? then [tokens[n].chars] else []
  }

  function LinesFed(texts: seq<string>): (fed: seq<string>)
    ensures |fed| == |texts|
    ensures forall k :: 0 <= k < |texts| ==> fed[k] == LineFeeds(texts[k])
  {
    seq(|texts|, k requires 0 <= k < |texts| => LineFeeds(texts[k]))
  }

  /** A reader of the stream finds it whole, paints exactly these texts, and finds no other string in it. */
  predicate DrawsExactly(stream: string, texts: seq<string>) {
    var tokens := Tokens(stream);
    Broken !in tokens && Drawn(tokens) == LinesFed(texts) && Strings(tokens) == LinesFed(texts)
  }

  // ---- Streams put together ------------------------------------------------------

  /** Whatever follows, `read` reads this first and then what follows. */
  ghost predicate Separates(read: string -> seq<Token>, s: string) {
    forall tail: string :: read(s + tail) == read(s) + read(tail)
  }

  ghost predicate Neat(s: string) {
    Separates(Tokens, s)
  }

  ghost predicate Draws(s: string, texts: seq<string>) {
    Neat(s) && DrawsExactly(s, texts)
  }

  lemma SeparatesAppend(read: string -> seq<Token>, a: string, b: string)
    requires Separates(read, a) && Separates(read, b)
    ensures Separates(read, a + b) && read(a + b) == read(a) + read(b)
  {
    forall tail: string ensures read((a + b) + tail) == read(a + b) + read(tail) {
      assert (a + b) + tail == a + (b + tail);
      assert read(a + (b + tail)) == read(a) + read(b + tail);
    }
  }

  lemma NeatAppend(a: string, b: string)
    requires Neat(a) && Neat(b)
    ensures Neat(a + b) && Tokens(a + b) == Tokens(a) + Tokens(b)
  {
    SeparatesAppend(Tokens, a, b);
  }

  lemma NothingIsDrawn()
    ensures Draws("", [])
  {
    forall tail: string ensures Tokens("" + tail) == Tokens("") + Tokens(tail) {
      assert "" + tail == tail;
    }
  }

  // ---- Operators ------------------------------------------------------------------

  /** A word or a name, other than the operator that paints text. */
  predicate GoodWord(w: string) {
    && w != [] && w != "Tj" && (Regular(w[0]) || w[0] == '/')
    && forall i :: 1 <= i < |w| ==> Regular(w[i])
  }

  predicate GoodWords(words: seq<string>) {
    words != [] && forall k :: 0 <= k < |words| ==> GoodWord(words[k])
  }

  function Spaced(words: seq<string>): string {
    if words == [] then [] else if |words| == 1 then words[0] else words[0] + " " + Spaced(words[1..])
  }

  function AsTokens(words: seq<string>): (tokens: seq<Token>)
    ensures |tokens| == |words|
    ensures forall k :: 0 <= k < |words| ==> tokens[k] == Word(words[k])
  {
    seq(|words|, k requires 0 <= k < |words| => Word(words[k]))
  }

  lemma {:induction false} RunStops(w: string, after: string)
    requires forall i :: 0 <= i < |w| ==> Regular(w[i])
    requires after == [] || White(after[0])
    ensures RegularRun(w + after) == |w|
  {
    if w == [] {
      assert w + after == after;
    } else {
      assert (w + after)[1..] == w[1..] + after;
      RunStops(w[1..], after);
    }
  }

  lemma ReadWord(w: string, after: string)
    requires w != [] && (Regular(w[0]) || w[0] == '/') && forall i :: 1 <= i < |w| ==> Regular(w[i])
    requires after == [] || White(after[0])
    ensures Tokens(w + after) == [Word(w)] + Tokens(after)
  {
    var s := w + after;
    RunStops(w[1..], after);
    assert s[1..] == w[1..] + after && s[..|w|] == w && s[|w|..] == after;
  }

  lemma SkipWhite(c: char, after: string)
    requires White(c)
    ensures Tokens([c] + after) == Tokens(after)
  {
    assert ([c] + after)[1..] == after;
  }

  lemma ReadWordAndWhite(w: string, c: char, later: string)
    requires GoodWord(w) && White(c)
    ensures Tokens(w + ([c] + later)) == [Word(w)] + Tokens(later)
  {
    ReadWord(w, [c] + later);
    SkipWhite(c, later);
  }

  lemma SpacedStarts(words: seq<string>, after: string)
    requires |words| > 1
    ensures Spaced(words) + after == words[0] + ([' '] + (Spaced(words[1..]) + after))
  {
  }

  /** `read` takes words off one at a time. */
  ghost predicate ReadsWords(read: string -> seq<Token>) {
    forall w: string, c: char, later: string | GoodWord(w) && White(c) ::
      read(w + ([c] + later)) == [Word(w)] + read(later)
  }

  lemma FirstWord(read: string -> seq<Token>, w: string, c: char, later: string, tokens: seq<Token>, tail: string)
    requires GoodWord(w) && White(c) && ReadsWords(read)
    requires tokens + read(tail) == read(later)
    ensures read(w + ([c] + later)) == ([Word(w)] + tokens) + read(tail)
  {
    assert read(w + ([c] + later)) == [Word(w)] + read(later);
  }

  lemma {:induction false} ReadWords(read: string -> seq<Token>, words: seq<string>, tail: string)
    requires GoodWords(words) && ReadsWords(read)
    ensures read(Spaced(words) + (['\n'] + tail)) == AsTokens(words) + read(tail)
  {
    if |words| == 1 {
      FirstWord(read, words[0], '\n', tail, [], tail);
      assert AsTokens(words) == [Word(words[0])] + [];
    } else {
      var later := Spaced(words[1..]) + (['\n'] + tail);
      ReadWords(read, words[1..], tail);
      FirstWord(read, words[0], ' ', later, AsTokens(words[1..]), tail);
      SpacedStarts(words, ['\n'] + tail);
      assert AsTokens(words) == [Word(words[0])] + AsTokens(words[1..]);
    }
  }

  /** A line that reads as the same tokens whatever follows separates from it. */
  lemma LineSeparates(read: string -> seq<Token>, line: string, tokens: seq<Token>)
    requires read([]) == []
    requires forall tail: string :: read(line + tail) == tokens + read(tail)
    ensures Separates(read, line) && read(line) == tokens
  {
    assert line + [] == line;
    assert read(line + []) == tokens + read([]);
  }

  lemma OperatorLine(read: string -> seq<Token>, words: seq<string>)
    requires GoodWords(words) && ReadsWords(read) && read([]) == []
    ensures Separates(read, Spaced(words) + "\n") && read(Spaced(words) + "\n") == AsTokens(words)
  {
    var line := Spaced(words) + "\n";
    forall tail: string ensures read(line + tail) == AsTokens(words) + read(tail) {
      ReadWords(read, words, tail);
      assert line + tail == Spaced(words) + (['\n'] + tail);
    }
    LineSeparates(read, line, AsTokens(words));
  }

  lemma NeatOperators(words: seq<string>)
    requires GoodWords(words)
    ensures Neat(Spaced(words) + "\n") && Tokens(Spaced(words) + "\n") == AsTokens(words)
  {
    forall w: string, c: char, later: string | GoodWord(w) && White(c)
      ensures Tokens(w + ([c] + later)) == [Word(w)] + Tokens(later)
    {
      ReadWordAndWhite(w, c, later);
    }
    OperatorLine(Tokens, words);
  }

  lemma {:induction false} WordsDrawNothing(tokens: seq<Token>, words: seq<string>)
    requires forall k :: 0 <= k < |words| ==> GoodWord(words[k])
    ensures Drawn(tokens + AsTokens(words)) == Drawn(tokens) && Strings(tokens + AsTokens(words)) == Strings(tokens)
  {
    if words == [] {
      assert tokens + AsTokens(words) == tokens;
    } else {
      var n := |words| - 1;
      var all := tokens + AsTokens(words);
      assert all[..|all| - 1] == tokens + AsTokens(words[..n]) && all[|all| - 1] == Word(words[n]);
      WordsDrawNothing(tokens, words[..n]);
    }
  }

  /** A line of operators draws nothing. */
  lemma OperatorsAfter(s: string, texts: seq<string>, words: seq<string>)
    requires Draws(s, texts) && GoodWords(words)
    ensures Draws(s + (Spaced(words) + "\n"), texts)
  {
    NeatOperators(words);
    NeatAppend(s, Spaced(words) + "\n");
    WordsDrawNothing(Tokens(s), words);
  }

  /** Nor does a last one, which no end of line follows. */
  lemma OperatorsAtEnd(s: string, texts: seq<string>, word: string)
    requires Draws(s, texts) && GoodWord(word)
    ensures DrawsExactly(s + word, texts)
  {
    ReadWord(word, []);
    assert word + [] == word;
    assert Tokens(s + word) == Tokens(s) + Tokens(word);
    assert AsTokens([word]) == [Word(word)];
    WordsDrawNothing(Tokens(s), [word]);
  }

  // ---- Texts ----------------------------------------------------------------------

  function Show(text: string): string {
    "(" + EscapePdfText(text) + ") Tj"
  }

  lemma ReadString(text: string, after: string)
    ensures Tokens(['('] + (EscapePdfText(text) + ")" + after)) == [Text(LineFeeds(text))] + Tokens(after)
  {
    var s := ['('] + (EscapePdfText(text) + ")" + after);
    EscapeRoundTrip(text, after);
    assert s[1..] == EscapePdfText(text) + ")" + after;
  }

  lemma ReadOperator(tail: string)
    ensures Tokens([' '] + ("Tj" + (['\n'] + tail))) == [SHOW] + Tokens(tail)
  {
    SkipWhite(' ', "Tj" + (['\n'] + tail));
    ReadWord("Tj", ['\n'] + tail);
    SkipWhite('\n', tail);
  }

  lemma ShowSplits(text: string, tail: string)
    ensures Show(text) + "\n" + tail == ['('] + (EscapePdfText(text) + ")" + ([' '] + ("Tj" + (['\n'] + tail))))
  {
  }

  /** A string and the operator, for any way of reading that reads each of them. */
  lemma ShowLine(read: string -> seq<Token>, text: string)
    requires read([]) == []
    requires forall after: string ::
      read(['('] + (EscapePdfText(text) + ")" + after)) == [Text(LineFeeds(text))] + read(after)
    requires forall tail: string :: read([' '] + ("Tj" + (['\n'] + tail))) == [SHOW] + read(tail)
    ensures Separates(read, Show(text) + "\n") && read(Show(text) + "\n") == [Text(LineFeeds(text)), SHOW]
  {
    var line := Show(text) + "\n";
    forall tail: string ensures read(line + tail) == [Text(LineFeeds(text)), SHOW] + read(tail) {
      ShowSplits(text, tail);
      assert read([' '] + ("Tj" + (['\n'] + tail))) == [SHOW] + read(tail);
    }
    LineSeparates(read, line, [Text(LineFeeds(text)), SHOW]);
  }

  lemma NeatShow(text: string)
    ensures Neat(Show(text) + "\n") && Tokens(Show(text) + "\n") == [Text(LineFeeds(text)), SHOW]
  {
    forall after: string
      ensures Tokens(['('] + (EscapePdfText(text) + ")" + after)) == [Text(LineFeeds(text))] + Tokens(after)
    {
      ReadString(text, after);
    }
    forall tail: string ensures Tokens([' '] + ("Tj" + (['\n'] + tail))) == [SHOW] + Tokens(tail) {
      ReadOperator(tail);
    }
    ShowLine(Tokens, text);
  }

  lemma OneMoreDrawn(tokens: seq<Token>, chars: string)
    ensures Drawn(tokens + [Text(chars), SHOW]) == Drawn(tokens) + [chars]
    ensures Strings(tokens + [Text(chars), SHOW]) == Strings(tokens) + [chars]
  {
    var one := tokens + [Text(chars)];
    var all := tokens + [Text(chars), SHOW];
    assert all[..|all| - 1] == one && one[..|tokens|] == tokens;
    assert Drawn(one) == Drawn(tokens);
    assert Strings(all) == Strings(one) + [];
  }

  /** A text written between parentheses is drawn as its reader recovers it. */
  lemma TextAfter(s: string, texts: seq<string>, text: string)
    requires Draws(s, texts)
    ensures Draws(s + (Show(text) + "\n"), texts + [text])
  {
    NeatShow(text);
    NeatAppend(s, Show(text) + "\n");
    OneMoreDrawn(Tokens(s), LineFeeds(text));
    assert LinesFed(texts + [text]) == LinesFed(texts) + [LineFeeds(text)];
  }
}
