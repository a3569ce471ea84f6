/**
 * The escaping JsQuote applies to its rendered text before writing it
 * between quote characters.
 */
module JsQuoting {
  import opened Wrappers
  import opened Strings

  /** The quote character: a double quote when DoubleQuotes is set, else a single quote. */
  function QuoteChar(doubleQuotes: bool): (q: char)
    ensures q == '"' || q == '\''
    ensures doubleQuotes <==> q == '"'
  {
    if doubleQuotes then '"' else '\''
  }

  /** What each platform newline becomes: a backslash, 'n', a backslash, 'r'. */
  const NewLineEscape: string := ['\\', 'n', '\\', 'r']

  /**
   * The two replacements of JsQuote's render: every quote character gets a
   * backslash in front of it, then every platform newline becomes the
   * four characters of NewLineEscape.
   */
  function Escape(q: char, newLine: PlatformNewLine, text: string): string
  {
    Replace(Replace(text, [q], ['\\', q]), newLine, NewLineEscape)
  }

  /** The literal JsQuote writes: the escaped text between two quote characters. */
  function Literal(q: char, newLine: PlatformNewLine, text: string): (r: string)
    ensures |r| >= 2 && r[0] == q && r[|r| - 1] == q
  {
    [q] + Escape(q, newLine, text) + [q]
  }

  // ---------------------------------------------------------------------------
  // Reading a JavaScript string literal back.

  /**
   * The value of the rest of a string literal opened by quote q, up to and
   * including its closing quote: a backslash takes the next character
   * literally ('n' and 'r' stand for a line feed and a carriage return);
   * a raw line feed or carriage return, which are line terminators, leaves
   * the literal unterminated; the quote closes the literal, and nothing may
   * follow it.
   */
  function ReadBody(q: char, t: string): Option<string>
    decreases |t|
  {
    if t == [] then None
    else if t[0] == q then (if |t| == 1 then Some([]) else None)
    else if t[0] == '\n' || t[0] == '\r' then None
    else if t[0] == '\\' then
      if |t| < 2 then None
      else
        var c := if t[1] == 'n' then '\n' else if t[1] == 'r' then '\r' else t[1];
        match ReadBody(q, t[2..])
        case Some(rest) => Some([c] + rest)
        case None => None
    else
      match ReadBody(q, t[1..])
      case Some(rest) => Some([t[0]] + rest)
      case None => None
  }

  /** The string value of a whole literal quoted with q. */
  function ReadLiteral(q: char, t: string): Option<string>
  {
    if |t| >= 1 && t[0] == q then ReadBody(q, t[1..]) else None
  }

  /** The first replacement, one character at a time. */
  function EscapeQuotes(q: char, text: string): (r: string)
    decreases |text|
  {
    if text == [] then []
    else (if text[0] == q then ['\\', q] else [text[0]]) + EscapeQuotes(q, text[1..])
  }

  lemma {:induction false} EscapeQuotesIsReplace(q: char, text: string)
    ensures Replace(text, [q], ['\\', q]) == EscapeQuotes(q, text)
    decreases |text|
  {
    if text != [] {
      EscapeQuotesIsReplace(q, text[1..]);
      assert text == [text[0]] + text[1..];
      ReplaceCharConcat([text[0]], text[1..], q, ['\\', q]);
      ReplaceCharSingle(text[0], q, ['\\', q]);
    }
  }

  lemma {:induction false} EscapeQuotesKeepsLineFeedOut(q: char, text: string)
    requires q != '\n' && '\n' !in text
    ensures '\n' !in EscapeQuotes(q, text)
    decreases |text|
  {
    if text != [] {
      EscapeQuotesKeepsLineFeedOut(q, text[1..]);
    }
  }

  /** Text without a quote character and without a line feed is written unchanged. */
  lemma EscapePlain(q: char, newLine: PlatformNewLine, text: string)
    requires q !in text && '\n' !in text
    ensures Escape(q, newLine, text) == text
  {
    ReplaceCharAbsent(text, q, ['\\', q]);
    NoLineFeedNoNewLine(text, newLine);
    ReplaceAbsent(text, newLine, NewLineEscape);
  }

  /** A platform newline on its own becomes the four characters of NewLineEscape. */
  lemma EscapeNewLine(q: char, newLine: PlatformNewLine)
    requires q == '"' || q == '\''
    ensures Escape(q, newLine, newLine) == NewLineEscape
  {
    ReplaceCharAbsent(newLine, q, ['\\', q]);
    assert OccursAt(newLine, newLine, 0);
    ReplaceHit(newLine, newLine, NewLineEscape);
    assert newLine[|newLine|..] == [];
  }

  lemma {:induction false} ReadEscapedQuotes(q: char, text: string)
    requires q != '\\' && q != 'n' && q != 'r' && q != '\n' && q != '\r'
    requires '\\' !in text && '\n' !in text && '\r' !in text
    ensures ReadBody(q, EscapeQuotes(q, text) + [q]) == Some(text)
    decreases |text|
  {
    if text == [] {
      assert EscapeQuotes(q, text) + [q] == [q];
    } else {
      ReadEscapedQuotes(q, text[1..]);
      var tail := EscapeQuotes(q, text[1..]) + [q];
      if text[0] == q {
        assert EscapeQuotes(q, text) + [q] == ['\\', q] + tail;
        assert (['\\', q] + tail)[2..] == tail;
      } else {
        assert EscapeQuotes(q, text) + [q] == [text[0]] + tail;
        assert ([text[0]] + tail)[1..] == tail;
      }
      assert text == [text[0]] + text[1..];
    }
  }

  /**
   * JsQuote's literal reads back as the rendered text whenever the text has
   * no backslash (the source does not escape backslashes), no line feed (a
   * platform newline is written as a backslash-n-backslash-r pair, which
   * reads back as a line feed and a carriage return) and no carriage return
   * (the source leaves a lone one raw, which ends the literal).
   */
  lemma QuoteRoundTrip(q: char, newLine: PlatformNewLine, text: string)
    requires q == '"' || q == '\''
    requires '\\' !in text && '\n' !in text && '\r' !in text
    ensures ReadLiteral(q, Literal(q, newLine, text)) == Some(text)
  {
    EscapeQuotesIsReplace(q, text);
    EscapeQuotesKeepsLineFeedOut(q, text);
    var e := EscapeQuotes(q, text);
    NoLineFeedNoNewLine(e, newLine);
    ReplaceAbsent(e, newLine, NewLineEscape);
    ReadEscapedQuotes(q, text);
    var lit := Literal(q, newLine, text);
    assert lit == [q] + (e + [q]);
    assert lit[1..] == e + [q];
  }

  /** JsQuote leaves a lone carriage return raw, so its literal is not a JavaScript string literal. */
  lemma RawReturnIsUnterminated(q: char, newLine: PlatformNewLine)
    requires q == '"' || q == '\''
    ensures Literal(q, newLine, "a\rb") == [q, 'a', '\r', 'b', q]
    ensures ReadLiteral(q, Literal(q, newLine, "a\rb")) == None
  {
    EscapePlain(q, newLine, "a\rb");
    var lit := [q, 'a', '\r', 'b', q];
    assert lit[1..] == ['a', '\r', 'b', q];
    assert ['a', '\r', 'b', q][1..] == ['\r', 'b', q];
    assert ReadBody(q, ['\r', 'b', q]) == None;
  }
}
