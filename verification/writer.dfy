/**
 * ScriptWriter: the stateful writer every node renders to.  The text
 * writer it wraps is the string `out`; the indent level, the start-of-line
 * flag and the cache of indent strings are fields that its methods update
 * in place.  Each method is proved to move the writer's observable state
 * exactly as the corresponding function of WriterSpec says.
 */
module Writer {
  import opened Values
  import opened WriterSpec
  import Strings

  /** Every cached indent string is the indent text repeated as often as its level says. */
  predicate CacheAgrees(cache: map<int, string>, indentText: string)
  {
    forall l :: l in cache ==> cache[l] == Strings.Repeat(indentText, l)
  }

  /**
   * The IndentString getter as the source has it: a cached string is
   * returned whatever indent text it was built from.  It is the indent
   * string of the settings only while the cache agrees with the indent text.
   */
  function CachedIndent(cache: map<int, string>, st: Settings, level: int): (r: string)
    ensures CacheAgrees(cache, st.indentText) ==> r == IndentString(st, level)
    ensures level !in cache ==> r == IndentString(st, level)
  {
    if !st.includeIndentation then ""
    else if level in cache then cache[level]
    else Strings.Repeat(st.indentText, level)
  }

  /**
   * Changing IndentText after a level has been cached: the getter goes on
   * returning the old text, so a level-1 line is indented with a tab after
   * the indent text became two spaces.
   */
  lemma StaleIndentCache(st: Settings)
    requires st.includeIndentation && st.indentText == "  "
    ensures CachedIndent(map[1 := "\t"], st, 1) == "\t"
    ensures IndentString(st, 1) == "  " && CachedIndent(map[1 := "\t"], st, 1) != IndentString(st, 1)
  {
    assert Strings.Repeat(st.indentText, 1) == Strings.Repeat(st.indentText, 0) + "  ";
  }

  class ScriptWriter {
    /** Everything written to the underlying text writer so far. */
    var out: string
    /** CurrentIndentLevel. */
    var level: int
    /** IsStartOfLine. */
    var atLineStart: bool
    var newLine: string
    var indentText: string
    var includeIndentation: bool
    var compress: bool
    /** The format provider's formatting of scalars; the source has no setter for it. */
    const format: Scalar -> string
    /** The Indents cache: the indent string built for each level so far. */
    var indents: map<int, string>

    /** The cache never disagrees with the indent text. */
    ghost predicate Valid()
      reads this
    {
      CacheAgrees(indents, indentText)
    }

    /** The settings this writer hands on to the writers created from it. */
    function Config(): (st: Settings)
      reads this
      ensures st.newLine == newLine && st.indentText == indentText && st.includeIndentation == includeIndentation
      ensures st.compress == compress && st.format == format
    {
      Settings(newLine, indentText, includeIndentation, compress, format)
    }

    /** The observable state: the output, the indent level and the start-of-line flag. */
    function State(): (w: WState)
      reads this
      ensures w.out == out && w.level == level && w.atLineStart == atLineStart
    {
      WState(out, level, atLineStart)
    }

    /** ScriptWriter(writer): the default settings over an empty output, at level 0 and at the start of a line. */
    constructor (env: Env)
      ensures Valid() && indents == map[]
      ensures Config() == DefaultSettings(env) && State() == Fresh()
    {
      out := "";
      level := 0;
      atLineStart := true;
      newLine := env.platformNewLine;
      indentText := "\t";
      includeIndentation := true;
      compress := false;
      format := env.defaultFormat;
      indents := map[];
    }

    /** ScriptWriter(writer, formatProvider): the default settings with the given format provider. */
    constructor WithFormat(env: Env, formatProvider: Scalar -> string)
      ensures Valid() && indents == map[]
      ensures Config() == DefaultSettings(env).(format := formatProvider) && State() == Fresh()
    {
      out := "";
      level := 0;
      atLineStart := true;
      newLine := env.platformNewLine;
      indentText := "\t";
      includeIndentation := true;
      compress := false;
      format := formatProvider;
      indents := map[];
    }

    /**
     * ScriptWriter(writer, scriptWriter) with CopySettings: the format
     * provider, indentation, newline and Compress of the other writer, over
     * an empty output at level 0; the cache is not copied.
     */
    constructor CopyOf(other: ScriptWriter)
      ensures Valid() && indents == map[]
      ensures Config() == other.Config() && State() == Fresh()
    {
      out := "";
      level := 0;
      atLineStart := true;
      newLine := other.newLine;
      indentText := other.indentText;
      includeIndentation := other.includeIndentation;
      compress := other.compress;
      format := other.format;
      indents := map[];
    }

    /** Writes already formatted text; the writer is then no longer at the start of a line. */
    method WriteFormatted(text: string)
      requires Valid()
      modifies this
      ensures Valid() && Config() == old(Config()) && indents == old(indents)
      ensures State() == WState(old(out) + text, old(level), false)
    {
      out := out + text;
      atLineStart := false;
    }

    /** Write(object) of a string: nothing for the empty string, else the string itself. */
    method Write(s: string)
      requires Valid()
      modifies this
      ensures Valid() && Config() == old(Config()) && indents == old(indents)
      ensures State() == Emit(old(State()), s)
    {
      if s != "" {
        WriteFormatted(s);
      }
    }

    /** WriteNewLine(): writes the newline text. */
    method WriteNewLine()
      requires Valid()
      modifies this
      ensures Valid() && Config() == old(Config()) && indents == old(indents)
      ensures State() == Emit(old(State()), newLine)
    {
      Write(newLine);
    }

    /**
     * The IndentString getter: empty when indentation is off; otherwise the
     * cached string for the level, built in a loop and cached when missing.
     */
    method GetIndentString() returns (r: string)
      requires Valid()
      modifies this`indents
      ensures Valid()
      ensures r == IndentString(Config(), level)
      ensures r == CachedIndent(old(indents), Config(), level)
      ensures includeIndentation ==> indents == old(indents)[level := r]
      ensures !includeIndentation ==> indents == old(indents)
    {
      if !includeIndentation {
        r := "";
      } else if level in indents {
        r := indents[level];
        assert r == Strings.Repeat(indentText, level);
      } else {
        var indent := "";
        var i := 0;
        while i < level
          invariant 0 <= i <= if level >= 0 then level else 0
          invariant indent == Strings.Repeat(indentText, i)
        {
          indent := indent + indentText;
          i := i + 1;
        }
        assert indent == Strings.Repeat(indentText, level);
        indents := indents[level := indent];
        r := indent;
      }
    }

    /** WriteIndent(): writes the indent string of the current level. */
    method WriteIndent()
      requires Valid()
      modifies this
      ensures Valid() && Config() == old(Config())
      ensures State() == Emit(old(State()), IndentString(Config(), old(level)))
    {
      var s := GetIndentString();
      Write(s);
    }

    /**
     * WriteNewLineAndIndent(unlessAtStartOfLine): unless asked to hold back
     * at the start of a line and already there, the newline and the indent
     * string are written and the writer is at the start of a line.
     */
    method WriteNewLineAndIndent(unlessAtStartOfLine: bool)
      requires Valid()
      modifies this
      ensures Valid() && Config() == old(Config())
      ensures unlessAtStartOfLine ==> State() == NewLineAndIndent(Config(), old(State()))
      ensures !unlessAtStartOfLine ==> State() == ForcedNewLineAndIndent(Config(), old(State()))
    {
      if !unlessAtStartOfLine || !atLineStart {
        WriteNewLine();
        WriteIndent();
        atLineStart := true;
      }
    }

    /** BeginIndent(levels). */
    method BeginIndent(levels: int)
      requires Valid()
      modifies this`level
      ensures Valid() && Config() == old(Config())
      ensures State() == WriterSpec.BeginIndent(old(State()), levels)
    {
      level := level + levels;
    }

    /** EndIndent(levels): down by the count, or to zero when the level is lower than the count. */
    method EndIndent(levels: int)
      requires Valid()
      modifies this`level
      ensures Valid() && Config() == old(Config())
      ensures State() == WriterSpec.EndIndent(old(State()), levels)
    {
      if level >= levels {
        level := level - levels;
      } else {
        level := 0;
      }
    }

    /** The IsStartOfLine setter. */
    method SetStartOfLine(value: bool)
      requires Valid()
      modifies this`atLineStart
      ensures Valid() && Config() == old(Config())
      ensures State() == old(State()).(atLineStart := value)
    {
      atLineStart := value;
    }

    /** The CurrentIndentLevel setter. */
    method SetIndentLevel(value: int)
      requires Valid()
      modifies this`level
      ensures Valid() && Config() == old(Config())
      ensures State() == old(State()).(level := value)
    {
      level := value;
    }

    /**
     * The IndentText setter, with the cache emptied so that the indent
     * string follows the new text (the source keeps the cache: see
     * CachedIndent).
     */
    method SetIndentText(value: string)
      modifies this`indentText, this`indents
      ensures Valid() && indents == map[]
      ensures Config() == old(Config()).(indentText := value)
    {
      indentText := value;
      indents := map[];
    }

    /** The IncludeIndentation setter. */
    method SetIncludeIndentation(value: bool)
      modifies this`includeIndentation
      ensures Config() == old(Config()).(includeIndentation := value)
    {
      includeIndentation := value;
    }

    /** The NewLine setter. */
    method SetNewLine(value: string)
      modifies this`newLine
      ensures Config() == old(Config()).(newLine := value)
    {
      newLine := value;
    }

    /** The Compress setter. */
    method SetCompress(value: bool)
      modifies this`compress
      ensures Config() == old(Config()).(compress := value)
    {
      compress := value;
    }
  }

  /** A level built once is served from the cache from then on, with the same text. */
  method IndentIsCached(w: ScriptWriter) returns (first: string, second: string)
    requires w.Valid() && w.includeIndentation
    modifies w`indents
    ensures w.Valid() && first == second && w.level in w.indents && w.indents[w.level] == first
  {
    first := w.GetIndentString();
    second := w.GetIndentString();
  }
}
