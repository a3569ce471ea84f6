/**
 * Escaping of XML character data, attribute values and CDATA sections
 * (XsText.Encode, XsAttribute.Encode and the "]]>" splitting of XsCData),
 * against the predefined entities of section 4.6 of XML 1.0.
 */
module XmlEncoding {
  import opened Wrappers
  import opened Strings

  // ---------------------------------------------------------------------------
  // Decoding: the reading an XML processor gives to character data.

  /**
   * The character a predefined entity reference (section 4.6 of XML 1.0), or
   * the character reference for a line feed, at the start of `t` stands for,
   * together with the length of the reference.
   */
  function EntityAt(t: string): (r: Option<(char, nat)>)
    ensures r.Some? ==> 0 < r.value.1 <= |t|
  {
    if "&amp;" <= t then Some(('&', 5))
    else if "&lt;" <= t then Some(('<', 4))
    else if "&gt;" <= t then Some(('>', 4))
    else if "&apos;" <= t then Some(('\'', 6))
    else if "&quot;" <= t then Some(('"', 6))
    else if "&#10;" <= t then Some(('\n', 5))
    else None
  }

  function Prepend(c: char, rest: Option<string>): Option<string>
  {
    match rest
    case None => None
    case Some(s) => Some([c] + s)
  }

  function Append(prefix: string, rest: Option<string>): Option<string>
  {
    match rest
    case None => None
    case Some(s) => Some(prefix + s)
  }

  /**
   * The references of section 4.6 of XML 1.0 and the CDATA sections of
   * section 2.7, decoded: entity references are replaced by their
   * characters and a CDATA section contributes the text up to its first
   * "]]>".  A raw '<' that does not open a CDATA section, a raw "]]>" or an
   * unknown reference makes the text unreadable.  Line ends and attribute
   * whitespace are left as they are: ReadContent and ReadAttributeValue add
   * those steps of an XML processor.
   */
  function Unescape(t: string): Option<string>
    decreases |t|
  {
    if t == [] then Some([])
    else if "<![CDATA[" <= t then
      var body := t[9..];
      var k := FirstIndex(body, "]]>");
      if k < 0 then None else Append(body[..k], Unescape(body[k + 3..]))
    else if t[0] == '<' || "]]>" <= t then None
    else if t[0] != '&' then Prepend(t[0], Unescape(t[1..]))
    else match EntityAt(t)
      case None => None
      case Some((c, n)) => Prepend(c, Unescape(t[n..]))
  }

  /**
   * The end-of-line handling of section 2.11 of XML 1.0, which a processor
   * applies to the whole document before parsing it: "\r\n" and a lone
   * '\r' both become '\n'.
   */
  function NormalizeLineEnds(t: string): (r: string)
    ensures '\r' !in r
    decreases |t|
  {
    if t == [] then []
    else if t[0] == '\r' then
      if |t| >= 2 && t[1] == '\n' then ['\n'] + NormalizeLineEnds(t[2..]) else ['\n'] + NormalizeLineEnds(t[1..])
    else [t[0]] + NormalizeLineEnds(t[1..])
  }

  /** Whitespace that attribute-value normalization turns into a space. */
  predicate IsXmlWhitespace(c: char)
  {
    c == '\t' || c == '\n' || c == '\r'
  }

  /**
   * The attribute-value normalization of section 3.3.3 of XML 1.0: every
   * literal tab, line feed and carriage return becomes a space, while the
   * characters that references stand for are kept.
   */
  function SpaceWhitespace(t: string): (r: string)
    ensures |r| == |t|
    ensures forall c :: c in r ==> !IsXmlWhitespace(c)
    decreases |t|
  {
    if t == [] then []
    else [if IsXmlWhitespace(t[0]) then ' ' else t[0]] + SpaceWhitespace(t[1..])
  }

  /** Character data and CDATA sections as an XML processor reads them. */
  function ReadContent(t: string): Option<string>
  {
    Unescape(NormalizeLineEnds(t))
  }

  /** The text between the quotes of an attribute value as an XML processor reads it. */
  function ReadAttributeValue(t: string): Option<string>
  {
    Unescape(SpaceWhitespace(NormalizeLineEnds(t)))
  }

  lemma {:induction false} NormalizeWithoutReturn(t: string)
    requires '\r' !in t
    ensures NormalizeLineEnds(t) == t
    decreases |t|
  {
    if t != [] {
      NormalizeWithoutReturn(t[1..]);
      assert t == [t[0]] + t[1..];
    }
  }

  lemma {:induction false} SpaceWithoutWhitespace(t: string)
    requires forall c :: c in t ==> !IsXmlWhitespace(c)
    ensures SpaceWhitespace(t) == t
    decreases |t|
  {
    if t != [] {
      assert t[0] in t;
      assert forall c :: c in t[1..] ==> c in t;
      SpaceWithoutWhitespace(t[1..]);
      assert t == [t[0]] + t[1..];
    }
  }

  // ---------------------------------------------------------------------------
  // Character data (XsText).

  /** XsText.Encode: '&' first, then '<', then '>'. */
  function EncodeText(s: string): string
  {
    Replace(Replace(Replace(s, "&", "&amp;"), "<", "&lt;"), ">", "&gt;")
  }

  /** The escape of one character of character data. */
  function EscapeTextChar(x: char): string
  {
    if x == '&' then "&amp;"
    else if x == '<' then "&lt;"
    else if x == '>' then "&gt;"
    else [x]
  }

  /** Character-by-character escaping of character data. */
  function EscapeText(s: string): string
  {
    if s == [] then [] else EscapeTextChar(s[0]) + EscapeText(s[1..])
  }

  lemma EncodeTextSingle(x: char)
    ensures EncodeText([x]) == EscapeTextChar(x)
  {
    ReplaceCharSingle(x, '&', "&amp;");
    var a := Replace([x], "&", "&amp;");
    if x == '&' {
      ReplaceCharAbsent(a, '<', "&lt;");
      ReplaceCharAbsent(a, '>', "&gt;");
    } else {
      ReplaceCharSingle(x, '<', "&lt;");
      var b := Replace(a, "<", "&lt;");
      if x == '<' {
        ReplaceCharAbsent(b, '>', "&gt;");
      } else {
        ReplaceCharSingle(x, '>', "&gt;");
      }
    }
  }

  /**
   * The chain of Replace calls escapes each character on its own: since '&'
   * goes first, every '&' of the input becomes exactly "&amp;" and the
   * entities produced later are not escaped again.
   */
  lemma {:induction false} EncodeTextIsPerCharacter(s: string)
    ensures EncodeText(s) == EscapeText(s)
    decreases |s|
  {
    if s != [] {
      var x, t := s[0], s[1..];
      assert s == [x] + t;
      ReplaceCharConcat([x], t, '&', "&amp;");
      var a1, a2 := Replace([x], "&", "&amp;"), Replace(t, "&", "&amp;");
      ReplaceCharConcat(a1, a2, '<', "&lt;");
      var b1, b2 := Replace(a1, "<", "&lt;"), Replace(a2, "<", "&lt;");
      ReplaceCharConcat(b1, b2, '>', "&gt;");
      EncodeTextSingle(x);
      EncodeTextIsPerCharacter(t);
    }
  }

  lemma {:induction false} EscapeTextHasNoAngles(s: string)
    ensures '<' !in EscapeText(s) && '>' !in EscapeText(s)
    ensures |EscapeText(s)| >= |s|
    decreases |s|
  {
    if s != [] {
      EscapeTextHasNoAngles(s[1..]);
    }
  }

  /**
   * Escaped character data holds no raw '<' or '>' (section 2.4 of XML 1.0)
   * and is never shorter than the input.
   */
  lemma EncodeTextIsSafe(s: string)
    ensures '<' !in EncodeText(s) && '>' !in EncodeText(s)
    ensures |EncodeText(s)| >= |s|
  {
    EncodeTextIsPerCharacter(s);
    EscapeTextHasNoAngles(s);
  }

  /** Text without '&', '<' and '>' is returned unchanged. */
  lemma EncodeTextPlain(s: string)
    requires '&' !in s && '<' !in s && '>' !in s
    ensures EncodeText(s) == s
  {
    ReplaceCharAbsent(s, '&', "&amp;");
    ReplaceCharAbsent(s, '<', "&lt;");
    ReplaceCharAbsent(s, '>', "&gt;");
  }

  /** An escaped character of character data reads back as that character. */
  lemma UnescapeEscapedTextChar(x: char, u: string)
    requires '>' !in u
    ensures Unescape(EscapeTextChar(x) + u) == Prepend(x, Unescape(u))
  {
    if x == '&' {
      UnescapeAmp(u);
    } else if x == '<' {
      UnescapeLt(u);
    } else if x == '>' {
      UnescapeGt(u);
    } else {
      UnescapePlainChar(x, u);
    }
  }

  /** A reference the decoder knows stands for its character. */
  lemma UnescapeReference(e: string, c: char, u: string)
    requires |e| > 0 && e[0] == '&' && EntityAt(e + u) == Some((c, |e|))
    ensures Unescape(e + u) == Prepend(c, Unescape(u))
  {
    var t := e + u;
    assert t[0] == '&';
    assert t[|e|..] == u;
  }

  lemma UnescapeAmp(u: string)
    ensures Unescape("&amp;" + u) == Prepend('&', Unescape(u))
  {
    assert "&amp;" <= "&amp;" + u;
    UnescapeReference("&amp;", '&', u);
  }

  lemma UnescapeLt(u: string)
    ensures Unescape("&lt;" + u) == Prepend('<', Unescape(u))
  {
    var t := "&lt;" + u;
    assert t[1] == 'l';
    assert "&lt;" <= t && !("&amp;" <= t);
    UnescapeReference("&lt;", '<', u);
  }

  lemma UnescapeGt(u: string)
    ensures Unescape("&gt;" + u) == Prepend('>', Unescape(u))
  {
    var t := "&gt;" + u;
    assert t[1] == 'g';
    assert "&gt;" <= t && !("&amp;" <= t) && !("&lt;" <= t);
    UnescapeReference("&gt;", '>', u);
  }

  lemma UnescapeApos(u: string)
    ensures Unescape("&apos;" + u) == Prepend('\'', Unescape(u))
  {
    var t := "&apos;" + u;
    assert t[1] == 'a' && t[2] == 'p';
    assert "&apos;" <= t && !("&amp;" <= t) && !("&lt;" <= t) && !("&gt;" <= t);
    UnescapeReference("&apos;", '\'', u);
  }

  lemma UnescapeQuot(u: string)
    ensures Unescape("&quot;" + u) == Prepend('"', Unescape(u))
  {
    var t := "&quot;" + u;
    assert t[1] == 'q';
    assert "&quot;" <= t && !("&amp;" <= t) && !("&lt;" <= t) && !("&gt;" <= t) && !("&apos;" <= t);
    UnescapeReference("&quot;", '"', u);
  }

  /** A character other than '&' and '<' stands for itself, unless it starts "]]>". */
  lemma UnescapePlainChar(x: char, u: string)
    requires x != '&' && x != '<' && '>' !in u
    ensures Unescape([x] + u) == Prepend(x, Unescape(u))
  {
    var t := [x] + u;
    assert t[0] == x && t[1..] == u;
    if |t| >= 3 {
      assert t[2] == u[1];
      assert t[..3][2] == t[2];
    }
  }

  /** Decoding escaped character data gives back the original text. */
  lemma {:induction false} TextRoundTrip(s: string)
    ensures Unescape(EncodeText(s)) == Some(s)
    decreases |s|
  {
    EncodeTextIsPerCharacter(s);
    if s != [] {
      EscapeTextHasNoAngles(s[1..]);
      UnescapeEscapedTextChar(s[0], EscapeText(s[1..]));
      TextRoundTrip(s[1..]);
      EncodeTextIsPerCharacter(s[1..]);
      assert s == [s[0]] + s[1..];
    }
  }

  /** Without a carriage return, an XML processor reads encoded character data back as the text. */
  lemma TextReadsAsXml(s: string)
    requires '\r' !in s
    ensures ReadContent(EncodeText(s)) == Some(s)
  {
    ReplaceKeepsCharOut(s, "&", "&amp;", '\r');
    ReplaceKeepsCharOut(Replace(s, "&", "&amp;"), "<", "&lt;", '\r');
    ReplaceKeepsCharOut(Replace(Replace(s, "&", "&amp;"), "<", "&lt;"), ">", "&gt;", '\r');
    NormalizeWithoutReturn(EncodeText(s));
    TextRoundTrip(s);
  }

  /** XsText does not encode a carriage return, so a "\r\n" line end is read as a line feed. */
  lemma ReturnInTextIsNotKept()
    ensures EncodeText("a\r\nb") == "a\r\nb"
    ensures ReadContent(EncodeText("a\r\nb")) == Some("a\nb")
  {
    EncodeTextPlain("a\r\nb");
    NormalizeReturnLineFeed();
    UnescapePlain3('a', '\n', 'b');
  }

  lemma NormalizeReturnLineFeed()
    ensures NormalizeLineEnds("a\r\nb") == "a\nb"
  {
    var t := "a\r\nb";
    assert t[0] == 'a' && t[1..] == "\r\nb";
    assert t[1..][2..] == "b";
    assert NormalizeLineEnds("b") == "b";
    assert NormalizeLineEnds("\r\nb") == "\nb";
  }

  /** Three characters other than '&', '<' and '>' decode as themselves. */
  lemma UnescapePlain3(x: char, y: char, z: char)
    requires x != '&' && x != '<' && x != '>' && y != '&' && y != '<' && y != '>' && z != '&' && z != '<' && z != '>'
    ensures Unescape([x, y, z]) == Some([x, y, z])
  {
    assert Unescape([]) == Some([]);
    UnescapePlainChar(z, []);
    assert [z] + [] == [z];
    UnescapePlainChar(y, [z]);
    assert [y] + [z] == [y, z];
    UnescapePlainChar(x, [y, z]);
    assert [x] + [y, z] == [x, y, z];
  }

  // ---------------------------------------------------------------------------
  // Attribute values (XsAttribute).

  /**
   * The chain of XsAttribute.Encode with the replacement for '"' as a
   * parameter: '&', '<', '>', '\'' and '"' in this order, then the platform
   * newline.
   */
  function EncodeAttributeWith(quoteEntity: string, newLine: PlatformNewLine, s: string): string
  {
    Replace(AttributeChars(quoteEntity, s), newLine, "&#10;")
  }

  /** The five single-character replacements of the chain. */
  function AttributeChars(quoteEntity: string, s: string): string
  {
    Replace(Replace(Replace(Replace(Replace(s, "&", "&amp;"), "<", "&lt;"), ">", "&gt;"), "'", "&apos;"), "\"", quoteEntity)
  }

  /** XsAttribute.Encode as the source writes it, with "&quote;" for '"'. */
  function EncodeAttributeAsWritten(newLine: PlatformNewLine, s: string): string
  {
    EncodeAttributeWith("&quote;", newLine, s)
  }

  /** XsAttribute.Encode with the predefined entity "&quot;" of section 4.6 of XML 1.0. */
  function EncodeAttribute(newLine: PlatformNewLine, s: string): string
  {
    EncodeAttributeWith("&quot;", newLine, s)
  }

  /** The escape of one character of an attribute value. */
  function EscapeAttributeChar(quoteEntity: string, x: char): string
  {
    if x == '&' then "&amp;"
    else if x == '<' then "&lt;"
    else if x == '>' then "&gt;"
    else if x == '\'' then "&apos;"
    else if x == '"' then quoteEntity
    else [x]
  }

  /** Character-by-character escaping of an attribute value. */
  function EscapeAttribute(quoteEntity: string, s: string): string
  {
    if s == [] then [] else EscapeAttributeChar(quoteEntity, s[0]) + EscapeAttribute(quoteEntity, s[1..])
  }

  lemma AttributeCharsSingle(q: string, x: char)
    ensures AttributeChars(q, [x]) == EscapeAttributeChar(q, x)
  {
    ReplaceCharSingle(x, '&', "&amp;");
    var a := Replace([x], "&", "&amp;");
    if x == '&' {
      ReplaceCharAbsent(a, '<', "&lt;");
      ReplaceCharAbsent(a, '>', "&gt;");
      ReplaceCharAbsent(a, '\'', "&apos;");
      ReplaceCharAbsent(a, '"', q);
      return;
    }
    ReplaceCharSingle(x, '<', "&lt;");
    var b := Replace(a, "<", "&lt;");
    if x == '<' {
      ReplaceCharAbsent(b, '>', "&gt;");
      ReplaceCharAbsent(b, '\'', "&apos;");
      ReplaceCharAbsent(b, '"', q);
      return;
    }
    ReplaceCharSingle(x, '>', "&gt;");
    var c := Replace(b, ">", "&gt;");
    if x == '>' {
      ReplaceCharAbsent(c, '\'', "&apos;");
      ReplaceCharAbsent(c, '"', q);
      return;
    }
    ReplaceCharSingle(x, '\'', "&apos;");
    var d := Replace(c, "'", "&apos;");
    if x == '\'' {
      ReplaceCharAbsent(d, '"', q);
      return;
    }
    ReplaceCharSingle(x, '"', q);
  }

  /** The five replacements escape each character on its own, '&' first. */
  lemma {:induction false} AttributeCharsIsPerCharacter(q: string, s: string)
    ensures AttributeChars(q, s) == EscapeAttribute(q, s)
    decreases |s|
  {
    if s != [] {
      var x, t := s[0], s[1..];
      assert s == [x] + t;
      ReplaceCharConcat([x], t, '&', "&amp;");
      var a1, a2 := Replace([x], "&", "&amp;"), Replace(t, "&", "&amp;");
      ReplaceCharConcat(a1, a2, '<', "&lt;");
      var b1, b2 := Replace(a1, "<", "&lt;"), Replace(a2, "<", "&lt;");
      ReplaceCharConcat(b1, b2, '>', "&gt;");
      var c1, c2 := Replace(b1, ">", "&gt;"), Replace(b2, ">", "&gt;");
      ReplaceCharConcat(c1, c2, '\'', "&apos;");
      var d1, d2 := Replace(c1, "'", "&apos;"), Replace(c2, "'", "&apos;");
      ReplaceCharConcat(d1, d2, '"', q);
      AttributeCharsSingle(q, x);
      AttributeCharsIsPerCharacter(q, t);
    }
  }

  /** Characters that must not appear raw inside a double-quoted attribute value. */
  predicate Unsafe(c: char)
  {
    c == '<' || c == '>' || c == '\'' || c == '"'
  }

  lemma {:induction false} EscapeAttributeIsSafe(q: string, s: string, c: char)
    requires Unsafe(c) && c !in q
    ensures c !in EscapeAttribute(q, s)
    ensures '\n' in EscapeAttribute(q, s) ==> '\n' in s || '\n' in q
    decreases |s|
  {
    if s != [] {
      EscapeAttributeIsSafe(q, s[1..], c);
    }
  }

  /**
   * An encoded attribute value holds no raw '<', '>', '\'' or '"', whichever
   * of the two quote replacements is used.
   */
  lemma EncodeAttributeIsSafe(q: string, newLine: PlatformNewLine, s: string, c: char)
    requires q == "&quote;" || q == "&quot;"
    requires Unsafe(c)
    ensures c !in EncodeAttributeWith(q, newLine, s)
  {
    AttributeCharsIsPerCharacter(q, s);
    EscapeAttributeIsSafe(q, s, c);
    ReplaceKeepsCharOut(AttributeChars(q, s), newLine, "&#10;", c);
  }

  /** A value without '&', '<', '>', quotes and line feeds is written unchanged. */
  lemma EncodeAttributePlain(q: string, newLine: PlatformNewLine, s: string)
    requires '&' !in s && '<' !in s && '>' !in s && '\'' !in s && '"' !in s && '\n' !in s
    ensures EncodeAttributeWith(q, newLine, s) == s
  {
    ReplaceCharAbsent(s, '&', "&amp;");
    ReplaceCharAbsent(s, '<', "&lt;");
    ReplaceCharAbsent(s, '>', "&gt;");
    ReplaceCharAbsent(s, '\'', "&apos;");
    ReplaceCharAbsent(s, '"', q);
    NoLineFeedNoNewLine(s, newLine);
    ReplaceAbsent(s, newLine, "&#10;");
  }

  /** The platform newline itself becomes the character reference for a line feed. */
  lemma EncodeAttributeNewLine(q: string, newLine: PlatformNewLine)
    ensures EncodeAttributeWith(q, newLine, newLine) == "&#10;"
  {
    EncodeAttributePlainChars(q, newLine);
    ReplaceHit(newLine, newLine, "&#10;");
    assert newLine[|newLine|..] == [];
  }

  lemma EncodeAttributePlainChars(q: string, s: string)
    requires '&' !in s && '<' !in s && '>' !in s && '\'' !in s && '"' !in s
    ensures AttributeChars(q, s) == s
  {
    ReplaceCharAbsent(s, '&', "&amp;");
    ReplaceCharAbsent(s, '<', "&lt;");
    ReplaceCharAbsent(s, '>', "&gt;");
    ReplaceCharAbsent(s, '\'', "&apos;");
    ReplaceCharAbsent(s, '"', q);
  }

  /** An escaped character of an attribute value reads back as that character. */
  lemma UnescapeEscapedAttributeChar(x: char, u: string)
    requires '>' !in u
    ensures Unescape(EscapeAttributeChar("&quot;", x) + u) == Prepend(x, Unescape(u))
  {
    if x == '&' {
      UnescapeAmp(u);
    } else if x == '<' {
      UnescapeLt(u);
    } else if x == '>' {
      UnescapeGt(u);
    } else if x == '\'' {
      UnescapeApos(u);
    } else if x == '"' {
      UnescapeQuot(u);
    } else {
      UnescapePlainChar(x, u);
    }
  }

  lemma {:induction false} EscapeAttributeRoundTrip(s: string)
    ensures Unescape(EscapeAttribute("&quot;", s)) == Some(s)
    decreases |s|
  {
    if s != [] {
      EscapeAttributeIsSafe("&quot;", s[1..], '>');
      UnescapeEscapedAttributeChar(s[0], EscapeAttribute("&quot;", s[1..]));
      EscapeAttributeRoundTrip(s[1..]);
      assert s == [s[0]] + s[1..];
    }
  }

  /**
   * With the "&quot;" entity, the entity and CDATA decoder gives back
   * exactly the value that was encoded (for values without line feeds, whose
   * platform newline comes back as a plain line feed). An XML processor also
   * normalizes the value's whitespace; AttributeReadsAsXml covers that.
   */
  lemma AttributeRoundTrip(newLine: PlatformNewLine, s: string)
    requires '\n' !in s
    ensures Unescape(EncodeAttribute(newLine, s)) == Some(s)
  {
    AttributeCharsIsPerCharacter("&quot;", s);
    EscapeAttributeIsSafe("&quot;", s, '<');
    NoLineFeedNoNewLine(AttributeChars("&quot;", s), newLine);
    ReplaceAbsent(AttributeChars("&quot;", s), newLine, "&#10;");
    EscapeAttributeRoundTrip(s);
  }

  /**
   * Without a line feed, a carriage return or a tab, an XML processor reads
   * the encoded attribute value back as the value, after line-end handling
   * and attribute-value normalization.
   */
  lemma AttributeReadsAsXml(newLine: PlatformNewLine, s: string)
    requires '\n' !in s && '\r' !in s && '\t' !in s
    ensures ReadAttributeValue(EncodeAttribute(newLine, s)) == Some(s)
  {
    var e := EncodeAttribute(newLine, s);
    AttributeKeepsCharOut(newLine, s, '\n');
    AttributeKeepsCharOut(newLine, s, '\r');
    AttributeKeepsCharOut(newLine, s, '\t');
    NormalizeWithoutReturn(e);
    SpaceWithoutWhitespace(e);
    AttributeRoundTrip(newLine, s);
  }

  /** Encoding a value adds no whitespace of its own. */
  lemma AttributeKeepsCharOut(newLine: PlatformNewLine, s: string, c: char)
    requires c !in s && IsXmlWhitespace(c)
    ensures c !in EncodeAttribute(newLine, s)
  {
    var s1 := Replace(s, "&", "&amp;");
    var s2 := Replace(s1, "<", "&lt;");
    var s3 := Replace(s2, ">", "&gt;");
    var s4 := Replace(s3, "'", "&apos;");
    ReplaceKeepsCharOut(s, "&", "&amp;", c);
    ReplaceKeepsCharOut(s1, "<", "&lt;", c);
    ReplaceKeepsCharOut(s2, ">", "&gt;", c);
    ReplaceKeepsCharOut(s3, "'", "&apos;", c);
    ReplaceKeepsCharOut(s4, "\"", "&quot;", c);
    ReplaceKeepsCharOut(AttributeChars("&quot;", s), newLine, "&#10;", c);
  }

  /** XsAttribute does not encode a tab, so an XML processor reads it as a space. */
  lemma TabInAttributeBecomesSpace(newLine: PlatformNewLine)
    ensures EncodeAttribute(newLine, "a\tb") == "a\tb"
    ensures ReadAttributeValue(EncodeAttribute(newLine, "a\tb")) == Some("a b")
  {
    EncodeAttributePlain("&quot;", newLine, "a\tb");
    NormalizeWithoutReturn("a\tb");
    SpaceTab();
    UnescapePlain3('a', ' ', 'b');
  }

  lemma SpaceTab()
    ensures SpaceWhitespace("a\tb") == "a b"
  {
    var t := "a\tb";
    assert t[1..] == "\tb" && t[1..][1..] == "b";
    assert SpaceWhitespace("b") == "b";
    assert SpaceWhitespace("\tb") == " b";
  }

  /**
   * As written, a '"' in an attribute value becomes "&quote;", which is not
   * one of the predefined entities, so the output cannot be read back.
   */
  lemma QuoteEntityAsWrittenIsUnreadable(newLine: PlatformNewLine)
    ensures EncodeAttributeAsWritten(newLine, "\"") == "&quote;"
    ensures Unescape(EncodeAttributeAsWritten(newLine, "\"")) == None
  {
    var t := "&quote;";
    AttributeCharsSingle("&quote;", '"');
    assert AttributeChars("&quote;", "\"") == t;
    NoLineFeedNoNewLine(t, newLine);
    ReplaceAbsent(t, newLine, "&#10;");
    UnknownEntity();
  }

  /** The quote entity is only ever written for a quote. */
  lemma {:induction false} EscapeAttributeIgnoresQuoteEntity(q1: string, q2: string, s: string)
    requires '"' !in s
    ensures EscapeAttribute(q1, s) == EscapeAttribute(q2, s)
    decreases |s|
  {
    if s != [] {
      assert s[0] != '"' && '"' !in s[1..];
      EscapeAttributeIgnoresQuoteEntity(q1, q2, s[1..]);
    }
  }

  /** The encoder as written and the corrected one agree on every value without a quote. */
  lemma EncodingsAgreeWithoutQuote(newLine: PlatformNewLine, s: string)
    requires '"' !in s
    ensures EncodeAttributeAsWritten(newLine, s) == EncodeAttribute(newLine, s)
  {
    AttributeCharsIsPerCharacter("&quote;", s);
    AttributeCharsIsPerCharacter("&quot;", s);
    EscapeAttributeIgnoresQuoteEntity("&quote;", "&quot;", s);
  }

  lemma UnknownEntity()
    ensures Unescape("&quote;") == None
  {
    var t := "&quote;";
    assert !("&amp;" <= t) by { assert t[1] != "&amp;"[1]; }
    assert !("&lt;" <= t) by { assert t[1] != "&lt;"[1]; }
    assert !("&gt;" <= t) by { assert t[1] != "&gt;"[1]; }
    assert !("&apos;" <= t) by { assert t[1] != "&apos;"[1]; }
    assert !("&quot;" <= t) by { assert t[5] != "&quot;"[5]; }
    assert !("&#10;" <= t) by { assert t[1] != "&#10;"[1]; }
    assert EntityAt(t) == None;
  }

  // ---------------------------------------------------------------------------
  // CDATA sections (XsCData).

  /**
   * XsCData's replacement for a "]]>" in the data: the "]]>" ends the current
   * section, the same three characters follow as escaped character data, and
   * a new section is opened.
   */
  function EscapeCData(data: string): string
  {
    Replace(data, "]]>", "]]>]]&gt;<![CDATA[")
  }

  /** What XsCData writes: the opening marker, the escaped data, the closing marker. */
  function CDataSection(data: string): (r: string)
    ensures "<![CDATA[" <= r && r[|r| - 3..] == "]]>"
  {
    "<![CDATA[" + EscapeCData(data) + "]]>"
  }

  /** Data without "]]>" appears verbatim between the markers. */
  lemma CDataVerbatim(data: string)
    requires !Contains(data, "]]>")
    ensures CDataSection(data) == "<![CDATA[" + data + "]]>"
  {
    ReplaceAbsent(data, "]]>", "]]>]]&gt;<![CDATA[");
  }

  lemma UnescapeClosedMarker(v: string)
    ensures Unescape("]]&gt;" + v) == Prepend(']', Prepend(']', Prepend('>', Unescape(v))))
  {
    var t := "]]&gt;" + v;
    assert t[0] == ']' && t[1] == ']' && t[2] == '&';
    assert !("<![CDATA[" <= t) && !("]]>" <= t);
    assert t[1..] == "]&gt;" + v;
    var t1 := t[1..];
    assert t1[0] == ']' && t1[1] == '&';
    assert !("<![CDATA[" <= t1) && !("]]>" <= t1);
    assert t1[1..] == "&gt;" + v;
    var t2 := t1[1..];
    assert t2[1] == 'g';
    assert !("<![CDATA[" <= t2) && !("]]>" <= t2);
    assert !("&amp;" <= t2) && !("&lt;" <= t2) && "&gt;" <= t2;
    assert EntityAt(t2) == Some(('>', 4));
    assert t2[4..] == v;
    assert Unescape(t2) == Prepend('>', Unescape(v));
    assert Unescape(t1) == Prepend(']', Unescape(t2));
    assert Unescape(t) == Prepend(']', Unescape(t1));
  }

  /** The body of a section ending right after `d` is exactly `d` when `d` holds no "]]>". */
  lemma CloseAfterPlainData(d: string)
    requires FirstIndex(d, "]]>") < 0
    ensures FirstIndex(d + "]]>", "]]>") == |d|
  {
    forall i | 0 <= i < |d| < i + 3
      ensures !OccursAt(d + "]]>", "]]>", i)
    {
      AcrossMarker(d, i);
    }
    FirstIndexAtJoin(d, "]]>");
  }

  /** No "]]>" straddles the end of `d` and the closing marker appended to it. */
  lemma AcrossMarker(d: string, i: int)
    requires 0 <= i < |d| < i + 3
    ensures !OccursAt(d + "]]>", "]]>", i)
  {
    var b := d + "]]>";
    assert b[i + 2] == ']';
    assert b[i..i + 3][2] == b[i + 2];
  }

  /** A CDATA section contributes its body up to the first "]]>", and reading carries on after it. */
  lemma UnescapeSection(body: string, k: int)
    requires k == FirstIndex(body, "]]>") && k >= 0
    ensures Unescape("<![CDATA[" + body) == Append(body[..k], Unescape(body[k + 3..]))
  {
    var t := "<![CDATA[" + body;
    assert "<![CDATA[" <= t;
    assert t[9..] == body;
  }

  /** Data without "]]>" reads back from a single section. */
  lemma CDataRoundTripPlain(d: string)
    requires FirstIndex(d, "]]>") < 0
    ensures Unescape(CDataSection(d)) == Some(d)
  {
    ReplaceWithoutMatch(d, "]]>", "]]>]]&gt;<![CDATA[");
    CloseAfterPlainData(d);
    var body := d + "]]>";
    assert CDataSection(d) == "<![CDATA[" + body;
    UnescapeSection(body, |d|);
    assert body[..|d|] == d && body[|d| + 3..] == [];
    assert d + [] == d;
  }

  /** The section text split at the first "]]>" of the data, at position `m`. */
  lemma CDataSplit(d: string, m: int)
    requires m == FirstIndex(d, "]]>") && m >= 0
    ensures CDataSection(d) == "<![CDATA[" + (d[..m] + "]]>" + ("]]&gt;" + CDataSection(d[m + 3..])))
  {
    var o, c, e := "<![CDATA[", "]]>", "]]&gt;";
    var rest := Replace(d[m + 3..], c, c + e + o);
    FirstIndexIsLeftmost(d, c);
    assert c + e + o == "]]>]]&gt;<![CDATA[";
    ReplaceAtLeftmost(d, c, c + e + o, m);
    ConcatRegroup(o, d[..m], c, e, rest);
  }

  lemma ConcatRegroup(o: string, a: string, c: string, e: string, rest: string)
    ensures o + (a + (c + e + o) + rest) + c == o + (a + c + (e + (o + rest + c)))
  {
  }

  /** In the split section text the first "]]>" is the one taken from the data. */
  lemma SplitCloses(d: string, m: int, x: string)
    requires m == FirstIndex(d, "]]>") && m >= 0
    ensures FirstIndex(d[..m] + "]]>" + x, "]]>") == m
  {
    var p := "]]>";
    var body := d[..m] + p + x;
    FirstIndexIsLeftmost(d, p);
    forall i | 0 <= i < m
      ensures !OccursAt(body, p, i)
    {
      assert !OccursAt(d, p, i);
      assert d[..m + 3] == d[..m] + p;
      assert body[..m + 3] == d[..m + 3];
      assert body[i..i + 3] == d[i..i + 3];
    }
    assert body[m..m + 3] == p;
    FirstIndexUnique(body, p, m);
  }

  /** The escaped marker that XsCData puts between two sections reads back as "]]>". */
  lemma UnescapeEscapedClose(v: string, w: string)
    requires Unescape(v) == Some(w)
    ensures Unescape("]]&gt;" + v) == Some("]]>" + w)
  {
    UnescapeClosedMarker(v);
    assert "]]>" + w == [']'] + ([']'] + (['>'] + w));
  }

  /** One step of the round trip: a section split at the first "]]>" of the data. */
  lemma CDataStep(d: string, m: int)
    requires m == FirstIndex(d, "]]>") && m >= 0
    requires Unescape(CDataSection(d[m + 3..])) == Some(d[m + 3..])
    ensures Unescape(CDataSection(d)) == Some(d)
  {
    var rest := d[m + 3..];
    var x := "]]&gt;" + CDataSection(rest);
    var body := d[..m] + "]]>" + x;
    calc {
      Unescape(CDataSection(d));
      { CDataSplit(d, m); }
      Unescape("<![CDATA[" + body);
      { SplitCloses(d, m, x); UnescapeSection(body, m); }
      Append(body[..m], Unescape(body[m + 3..]));
      { SlicesOfJoin(d[..m], "]]>", x); }
      Append(d[..m], Unescape(x));
      { UnescapeEscapedClose(CDataSection(rest), rest); }
      Some(d[..m] + ("]]>" + rest));
      { FirstIndexIsLeftmost(d, "]]>"); SplitAtOccurrence(d, "]]>", m); }
      Some(d);
    }
  }

  /**
   * Reading back what XsCData writes gives the original data, however many
   * "]]>" it holds: each one closes a section, is read as escaped character
   * data, and a new section carries on.
   */
  lemma {:induction false} CDataRoundTrip(d: string)
    ensures Unescape(CDataSection(d)) == Some(d)
    decreases |d|
  {
    var m := FirstIndex(d, "]]>");
    if m < 0 {
      CDataRoundTripPlain(d);
    } else {
      CDataRoundTrip(d[m + 3..]);
      CDataStep(d, m);
    }
  }

  /** Without a carriage return, an XML processor reads the CDATA sections back as the data. */
  lemma CDataReadsAsXml(d: string)
    requires '\r' !in d
    ensures ReadContent(CDataSection(d)) == Some(d)
  {
    ReplaceKeepsCharOut(d, "]]>", "]]>]]&gt;<![CDATA[", '\r');
    NormalizeWithoutReturn(CDataSection(d));
    CDataRoundTrip(d);
  }

  /** A less-than sign encoded once is "&lt;"; encoded again it is "&amp;lt;", which reads back as "&lt;", not "<". */
  lemma EncodeTwice()
    ensures EncodeText("<") == "&lt;"
    ensures EncodeText("&lt;") == "&amp;lt;"
    ensures Unescape("&amp;lt;") == Some("&lt;")
  {
    EncodeTextSingle('<');
    assert "<" == ['<'];
    EncodeTextIsPerCharacter("&lt;");
    EscapeEntityText();
    TextRoundTrip("&lt;");
  }

  /** The escape of the text "&lt;", one character at a time. */
  lemma EscapeEntityText()
    ensures EscapeText("&lt;") == "&amp;lt;"
  {
    assert "&lt;"[1..] == "lt;";
    assert "lt;"[1..] == "t;";
    assert "t;"[1..] == ";";
    assert ";"[1..] == "";
    assert EscapeText(";") == ";";
    assert EscapeText("t;") == "t;";
    assert EscapeText("lt;") == "lt;";
  }
}
