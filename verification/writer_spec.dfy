/**
 * What a ScriptWriter does, as functions on its observable state: the text
 * written so far, the current indent level and the start-of-line flag.
 * The ScriptWriter class is proved to follow these functions step by step,
 * and the rendering functions are written in terms of them.
 */
module WriterSpec {
  import opened Values
  import Strings

  /**
   * The settings a ScriptWriter carries and hands on to the writers it
   * creates for sub-rendering: the newline text, the indent text, whether
   * indentation is written, the Compress flag and the format provider's
   * formatting of scalars.
   */
  datatype Settings = Settings(
    newLine: string,
    indentText: string,
    includeIndentation: bool,
    compress: bool,
    format: Scalar -> string)

  /** A freshly constructed ScriptWriter: platform newline, one tab per level, indentation on, no compression. */
  function DefaultSettings(env: Env): (st: Settings)
    ensures st.newLine == env.platformNewLine && st.indentText == "\t"
    ensures st.includeIndentation && !st.compress
  {
    Settings(env.platformNewLine, "\t", true, false, env.defaultFormat)
  }

  /** The state of a writer: the output so far, CurrentIndentLevel and IsStartOfLine. */
  datatype WState = WState(out: string, level: int, atLineStart: bool)

  /** A new writer over an empty StringWriter is at the start of a line, at level 0. */
  function Fresh(): (w: WState)
    ensures w.out == "" && w.level == 0 && w.atLineStart
  {
    WState("", 0, true)
  }

  /** IndentString: the indent text once per level (none for a level below one), or nothing at all when indentation is off. */
  function IndentString(st: Settings, level: int): (r: string)
    ensures !st.includeIndentation ==> r == ""
    ensures st.includeIndentation ==> r == Strings.Repeat(st.indentText, level)
  {
    if st.includeIndentation then Strings.Repeat(st.indentText, level) else ""
  }

  /**
   * Write of a string: a string without content (the empty string) changes
   * nothing; any other string is appended and the writer is no longer at
   * the start of a line.
   */
  function Emit(w: WState, s: string): (r: WState)
    ensures s == "" ==> r == w
    ensures s != "" ==> r.out == w.out + s && r.level == w.level && !r.atLineStart
  {
    if s == "" then w else WState(w.out + s, w.level, false)
  }

  /**
   * WriteNewLineAndIndent(): nothing at the start of a line; otherwise the
   * newline and the indent string for the current level are written and the
   * writer is at the start of a line again.
   */
  function NewLineAndIndent(st: Settings, w: WState): (r: WState)
    ensures w.atLineStart ==> r == w
    ensures !w.atLineStart ==> r.out == w.out + st.newLine + IndentString(st, w.level) && r.atLineStart
    ensures r.level == w.level
  {
    if w.atLineStart then w
    else Emit(Emit(w, st.newLine), IndentString(st, w.level)).(atLineStart := true)
  }

  /** WriteNewLineAndIndent(false): the newline and the indent are written even at the start of a line. */
  function ForcedNewLineAndIndent(st: Settings, w: WState): (r: WState)
    ensures r.out == w.out + st.newLine + IndentString(st, w.level) && r.atLineStart
    ensures r.level == w.level
  {
    Emit(Emit(w, st.newLine), IndentString(st, w.level)).(atLineStart := true)
  }

  /** BeginIndent(levels): the level goes up by the count. */
  function BeginIndent(w: WState, n: int): (r: WState)
    ensures r.out == w.out && r.atLineStart == w.atLineStart
    ensures r.level == w.level + n
  {
    w.(level := w.level + n)
  }

  /** EndIndent(levels): the level goes down by the count, or to zero when it is lower than the count. */
  function EndIndent(w: WState, n: int): (r: WState)
    ensures r.out == w.out && r.atLineStart == w.atLineStart
    ensures w.level >= n ==> r.level == w.level - n
    ensures w.level < n ==> r.level == 0
  {
    w.(level := if w.level >= n then w.level - n else 0)
  }

  /** EndIndent never leaves a negative level behind when asked for a non-negative count. */
  lemma EndIndentNeverNegative(w: WState, n: int)
    requires n >= 0
    ensures EndIndent(w, n).level >= 0
  {
  }

  /** BeginIndent(n) then EndIndent(n) restores any level that was not negative. */
  lemma IndentBalance(w: WState, n: int)
    requires w.level >= 0 && n >= 0
    ensures EndIndent(BeginIndent(w, n), n) == w
  {
  }

  /** A negative level is not restored: the pair clamps it to zero. */
  lemma IndentClampsNegative(w: WState, n: int)
    requires w.level < 0 && n >= 0
    ensures EndIndent(BeginIndent(w, n), n).level == 0
  {
  }

  /** A second WriteNewLineAndIndent() right after the first writes nothing: no blank lines are doubled up. */
  lemma NewLineIsIdempotent(st: Settings, w: WState)
    ensures NewLineAndIndent(st, NewLineAndIndent(st, w)) == NewLineAndIndent(st, w)
  {
  }

  /** The indent string of a level is as long as that many copies of the indent text. */
  lemma IndentStringLength(st: Settings, level: int)
    requires st.includeIndentation && level >= 0
    ensures |IndentString(st, level)| == level * |st.indentText|
  {
  }
}
