/**
 * Properties of rendering.  The set loop is compared with a schedule of
 * separators, line breaks and entries.  The other lemmas show what each
 * kind of node writes, and how its output reads back.
 */
module RenderFacts {
  import opened Wrappers
  import opened Layouts
  import opened Values
  import opened WriterSpec
  import opened RenderSpec
  import Strings
  import XmlEncoding
  import JsQuoting

  // ---------------------------------------------------------------------------
  // The set loop as a schedule.

  /** One thing the set loop does: write the separator, break the line, or write an entry. */
  datatype Step = Separator | Break | Put(x: Value)

  /** The entries of a render list that the loop counts, in order. */
  function CountedEntries(env: Env, list: seq<Value>): (r: seq<Value>)
    ensures forall x :: x in r ==> x in list && Counted(env, x)
    ensures |r| <= |list|
  {
    if list == [] then []
    else (if Counted(env, list[0]) then [list[0]] else []) + CountedEntries(env, list[1..])
  }

  /**
   * The steps for counted entries: the first entry is written on its own;
   * every later one comes after the separator, and after a line break when
   * BreaksBefore says so.
   */
  function Schedule(lay: ConcreteLayout, xs: seq<Value>, first: bool): seq<Step>
  {
    if xs == [] then []
    else
      (if first then [] else [Separator] + (if BreaksBefore(lay, xs[0]) then [Break] else []))
      + [Put(xs[0])] + Schedule(lay, xs[1..], false)
  }

  /** A writer carrying out a schedule step by step. */
  function Run(st: Settings, env: Env, w: WState, separator: string, steps: seq<Step>): WState
    decreases |steps|
  {
    if steps == [] then w
    else
      var w1 := match steps[0]
                case Separator => Emit(w, separator)
                case Break => NewLineAndIndent(st, w)
                case Put(x) => Write(st, env, w, x);
      Run(st, env, w1, separator, steps[1..])
  }

  lemma {:induction false} RunAppend(st: Settings, env: Env, w: WState, separator: string, a: seq<Step>, b: seq<Step>)
    ensures Run(st, env, w, separator, a + b) == Run(st, env, Run(st, env, w, separator, a), separator, b)
    decreases |a|
  {
    if a == [] {
      assert a + b == b;
    } else {
      assert (a + b)[0] == a[0];
      assert (a + b)[1..] == a[1..] + b;
      var w1 := match a[0]
                case Separator => Emit(w, separator)
                case Break => NewLineAndIndent(st, w)
                case Put(x) => Write(st, env, w, x);
      RunAppend(st, env, w1, separator, a[1..], b);
    }
  }

  /** Null entries and nodes without content are passed over: the loop over a list is the loop over its counted entries. */
  lemma {:induction false} SetLoopSkipsUncounted(st: Settings, env: Env, w: WState, list: seq<Value>, first: bool,
                                                 separator: string, lay: ConcreteLayout, bound: nat)
    requires forall x :: x in list ==> VSize(x) < bound
    ensures SetLoop(st, env, w, list, first, separator, lay, bound)
         == SetLoop(st, env, w, CountedEntries(env, list), first, separator, lay, bound)
    decreases |list|
  {
    if list != [] {
      var x := list[0];
      var rest := CountedEntries(env, list[1..]);
      assert forall y :: y in list[1..] ==> y in list;
      if Counted(env, x) {
        var c := [x] + rest;
        assert CountedEntries(env, list) == c;
        assert c[0] == x && c[1..] == rest;
        var w1 := if first then w else BreakIf(st, Emit(w, separator), BreaksBefore(lay, x));
        SetLoopSkipsUncounted(st, env, Write(st, env, w1, x), list[1..], false, separator, lay, bound);
        assert SetLoop(st, env, w, c, first, separator, lay, bound)
            == SetLoop(st, env, Write(st, env, w1, x), rest, false, separator, lay, bound);
      } else {
        assert CountedEntries(env, list) == rest;
        SetLoopSkipsUncounted(st, env, w, list[1..], first, separator, lay, bound);
      }
    }
  }

  /** On counted entries the loop does exactly what the schedule says. */
  lemma {:induction false} SetLoopRunsSchedule(st: Settings, env: Env, w: WState, xs: seq<Value>, first: bool,
                                               separator: string, lay: ConcreteLayout, bound: nat)
    requires forall x :: x in xs ==> VSize(x) < bound && Counted(env, x)
    ensures SetLoop(st, env, w, xs, first, separator, lay, bound)
         == Run(st, env, w, separator, Schedule(lay, xs, first))
    decreases |xs|
  {
    if xs != [] {
      var x := xs[0];
      var pre := if first then [] else [Separator] + (if BreaksBefore(lay, x) then [Break] else []);
      var w1 := if first then w else BreakIf(st, Emit(w, separator), BreaksBefore(lay, x));
      assert Run(st, env, w, separator, pre) == w1 by {
        if !first {
          var e := Emit(w, separator);
          if BreaksBefore(lay, x) {
            assert pre == [Separator, Break];
            assert Run(st, env, w, separator, pre) == Run(st, env, e, separator, [Break]);
            assert Run(st, env, e, separator, [Break]) == Run(st, env, NewLineAndIndent(st, e), separator, []);
          } else {
            assert pre == [Separator];
            assert Run(st, env, w, separator, pre) == Run(st, env, e, separator, []);
          }
        }
      }
      assert Run(st, env, w1, separator, [Put(x)]) == Write(st, env, w1, x);
      assert forall y :: y in xs[1..] ==> y in xs;
      SetLoopRunsSchedule(st, env, Write(st, env, w1, x), xs[1..], false, separator, lay, bound);
      RunAppend(st, env, w, separator, pre, [Put(x)]);
      RunAppend(st, env, w, separator, pre + [Put(x)], Schedule(lay, xs[1..], false));
    }
  }

  /** ScriptSet's loop, as a whole: the schedule of the counted entries, carried out. */
  lemma SetLoopIsScheduled(st: Settings, env: Env, w: WState, list: seq<Value>,
                           separator: string, lay: ConcreteLayout, bound: nat)
    requires forall x :: x in list ==> VSize(x) < bound
    ensures SetLoop(st, env, w, list, true, separator, lay, bound)
         == Run(st, env, w, separator, Schedule(lay, CountedEntries(env, list), true))
  {
    SetLoopSkipsUncounted(st, env, w, list, true, separator, lay, bound);
    SetLoopRunsSchedule(st, env, w, CountedEntries(env, list), true, separator, lay, bound);
  }

  /** The entries a schedule writes, in order. */
  function Puts(steps: seq<Step>): seq<Value>
  {
    if steps == [] then []
    else (if steps[0].Put? then [steps[0].x] else []) + Puts(steps[1..])
  }

  function SeparatorCount(steps: seq<Step>): nat
  {
    if steps == [] then 0 else (if steps[0] == Separator then 1 else 0) + SeparatorCount(steps[1..])
  }

  function BreakCount(steps: seq<Step>): nat
  {
    if steps == [] then 0 else (if steps[0] == Break then 1 else 0) + BreakCount(steps[1..])
  }

  /** How many of the entries BreaksBefore asks a line break for. */
  function BreakingCount(lay: ConcreteLayout, xs: seq<Value>): nat
  {
    if xs == [] then 0 else (if BreaksBefore(lay, xs[0]) then 1 else 0) + BreakingCount(lay, xs[1..])
  }

  /** Every line break directly follows a separator. */
  predicate BreaksFollowSeparators(steps: seq<Step>)
  {
    forall i :: 0 <= i < |steps| && steps[i] == Break ==> i > 0 && steps[i - 1] == Separator
  }

  lemma CountsAppend(a: seq<Step>, b: seq<Step>)
    ensures Puts(a + b) == Puts(a) + Puts(b)
    ensures SeparatorCount(a + b) == SeparatorCount(a) + SeparatorCount(b)
    ensures BreakCount(a + b) == BreakCount(a) + BreakCount(b)
  {
    PutsAppend(a, b);
    SeparatorsAppend(a, b);
    BreaksAppend(a, b);
  }

  lemma {:induction false} PutsAppend(a: seq<Step>, b: seq<Step>)
    ensures Puts(a + b) == Puts(a) + Puts(b)
    decreases |a|
  {
    if a == [] {
      assert a + b == b;
    } else {
      assert (a + b)[0] == a[0] && (a + b)[1..] == a[1..] + b;
      PutsAppend(a[1..], b);
    }
  }

  lemma {:induction false} SeparatorsAppend(a: seq<Step>, b: seq<Step>)
    ensures SeparatorCount(a + b) == SeparatorCount(a) + SeparatorCount(b)
    decreases |a|
  {
    if a == [] {
      assert a + b == b;
    } else {
      assert (a + b)[0] == a[0] && (a + b)[1..] == a[1..] + b;
      SeparatorsAppend(a[1..], b);
    }
  }

  lemma {:induction false} BreaksAppend(a: seq<Step>, b: seq<Step>)
    ensures BreakCount(a + b) == BreakCount(a) + BreakCount(b)
    decreases |a|
  {
    if a == [] {
      assert a + b == b;
    } else {
      assert (a + b)[0] == a[0] && (a + b)[1..] == a[1..] + b;
      BreaksAppend(a[1..], b);
    }
  }

  /** The schedule writes every counted entry once and in order. */
  lemma {:induction false} SchedulePutsEntries(lay: ConcreteLayout, xs: seq<Value>, first: bool)
    ensures Puts(Schedule(lay, xs, first)) == xs
    decreases |xs|
  {
    if xs != [] {
      var x := xs[0];
      var pre := if first then [] else [Separator] + (if BreaksBefore(lay, x) then [Break] else []);
      SchedulePutsEntries(lay, xs[1..], false);
      CountsAppend(pre, [Put(x)]);
      CountsAppend(pre + [Put(x)], Schedule(lay, xs[1..], false));
      assert Puts([Put(x)]) == [x];
      if !first && BreaksBefore(lay, x) {
        assert pre[1..] == [Break];
      }
      assert Puts(pre) == [];
      assert xs == [x] + xs[1..];
    }
  }

  /** Between n counted entries the loop writes n - 1 separators. */
  lemma {:induction false} ScheduleSeparators(lay: ConcreteLayout, xs: seq<Value>, first: bool)
    ensures SeparatorCount(Schedule(lay, xs, first)) == if xs == [] then 0 else if first then |xs| - 1 else |xs|
    decreases |xs|
  {
    if xs != [] {
      var x := xs[0];
      var pre := if first then [] else [Separator] + (if BreaksBefore(lay, x) then [Break] else []);
      ScheduleSeparators(lay, xs[1..], false);
      CountsAppend(pre, [Put(x)]);
      CountsAppend(pre + [Put(x)], Schedule(lay, xs[1..], false));
      assert SeparatorCount([Put(x)]) == 0;
      if !first && BreaksBefore(lay, x) {
        assert pre[1..] == [Break];
      }
      assert SeparatorCount(pre) == if first then 0 else 1;
    }
  }

  /** The loop breaks the line exactly before the later entries that BreaksBefore picks out. */
  lemma {:induction false} ScheduleBreaks(lay: ConcreteLayout, xs: seq<Value>, first: bool)
    ensures BreakCount(Schedule(lay, xs, first))
         == if xs == [] then 0 else if first then BreakingCount(lay, xs[1..]) else BreakingCount(lay, xs)
    decreases |xs|
  {
    if xs != [] {
      var x := xs[0];
      var pre := if first then [] else [Separator] + (if BreaksBefore(lay, x) then [Break] else []);
      ScheduleBreaks(lay, xs[1..], false);
      CountsAppend(pre, [Put(x)]);
      CountsAppend(pre + [Put(x)], Schedule(lay, xs[1..], false));
      assert BreakCount([Put(x)]) == 0;
      if !first && BreaksBefore(lay, x) {
        assert pre[1..] == [Break];
      }
      assert BreakCount(pre) == if !first && BreaksBefore(lay, x) then 1 else 0;
    }
  }

  /** Every line break the loop makes comes right after a separator. */
  lemma {:induction false} ScheduleBreaksAfterSeparators(lay: ConcreteLayout, xs: seq<Value>, first: bool)
    ensures BreaksFollowSeparators(Schedule(lay, xs, first))
    ensures Schedule(lay, xs, first) != [] && !first ==> Schedule(lay, xs, first)[0] == Separator
    decreases |xs|
  {
    if xs != [] {
      var x := xs[0];
      var pre := if first then [] else [Separator] + (if BreaksBefore(lay, x) then [Break] else []);
      var tail := Schedule(lay, xs[1..], false);
      ScheduleBreaksAfterSeparators(lay, xs[1..], false);
      var s := pre + [Put(x)] + tail;
      assert Schedule(lay, xs, first) == s;
      forall i | 0 <= i < |s| && s[i] == Break
        ensures i > 0 && s[i - 1] == Separator
      {
        if i <= |pre| {
          assert s[i] == (pre + [Put(x)])[i];
          assert s[0] == Separator;
        } else {
          assert s[i] == tail[i - |pre| - 1];
          assert tail[0] == Separator;
          assert i - |pre| - 1 > 0;
          assert s[i - 1] == tail[i - |pre| - 2];
        }
      }
    }
  }

  /** An Inline set never breaks a line between its entries. */
  lemma {:induction false} InlineScheduleHasNoBreaks(lay: ConcreteLayout, xs: seq<Value>, first: bool)
    requires !IsMultiLine(lay)
    ensures Break !in Schedule(lay, xs, first)
    decreases |xs|
  {
    if xs != [] {
      InlineScheduleHasNoBreaks(lay, xs[1..], false);
      assert !BreaksBefore(lay, xs[0]);
    }
  }

  /** A Block set with content starts with the newline and the indent of the current level. */
  lemma BlockSetStartsOnNewLine(st: Settings, env: Env, w: WState, it: Item)
    requires it.kind.Set? && Layout(it) == Block && ItemHasContent(env, it) && !w.atLineStart
    ensures w.out + st.newLine + IndentString(st, w.level) <= OnRenderSet(st, env, w, it).out
  {
  }

  // ---------------------------------------------------------------------------
  // ScriptItem.Render: indentation of multi-line nodes.

  /** An Inline node renders as its OnRender alone: its Indents play no part. */
  lemma InlineItemIgnoresIndents(st: Settings, env: Env, w: WState, it: Item)
    requires Layout(it) == Inline && w.level >= 0
    ensures RenderItem(st, env, w, it) == OnRender(st, env, w, it)
  {
    assert BeginIndent(w, 0) == w;
  }

  /** A Block or InlineBlock node renders Indents levels deeper, and the level is back where it was afterwards. */
  lemma MultiLineItemIndents(st: Settings, env: Env, w: WState, it: Item)
    requires IsMultiLine(Layout(it)) && w.level >= 0
    ensures RenderItem(st, env, w, it)
         == OnRender(st, env, w.(level := w.level + it.indents), it).(level := w.level)
  {
  }

  // ---------------------------------------------------------------------------
  // ScriptIf and ScriptCompressible.

  /** A ScriptIf writes its winner alone: the value that lost has no influence on the output. */
  lemma IfWritesOnlyTheWinner(st: Settings, env: Env, w: WState, s: StoredLayout, n: nat,
                              t: Value, x: Value, y: Value, other: Value)
    ensures IfResult(env, t) ==>
              OnRender(st, env, w, Item(s, n, If(t, x, y))) == OnRender(st, env, w, Item(s, n, If(t, x, other)))
              && OnRender(st, env, w, Item(s, n, If(t, x, y))) == Write(st, env, w, x)
    ensures !IfResult(env, t) ==>
              OnRender(st, env, w, Item(s, n, If(t, x, y))) == OnRender(st, env, w, Item(s, n, If(t, other, y)))
              && OnRender(st, env, w, Item(s, n, If(t, x, y))) == Write(st, env, w, y)
  {
  }

  /** A null test writes the false value. */
  lemma NullTestWritesFalseValue(st: Settings, env: Env, w: WState, s: StoredLayout, n: nat, x: Value, y: Value)
    ensures OnRender(st, env, w, Item(s, n, If(Null, x, y))) == Write(st, env, w, y)
  {
  }

  /**
   * A ScriptCompressible writes exactly one of its two forms, picked by the
   * writer's Compress flag: the other form has no influence on the output.
   */
  lemma CompressibleWritesOneForm(st: Settings, env: Env, w: WState, s: StoredLayout, n: nat,
                                  full: Value, compressed: Value, other: Value)
    ensures st.compress ==>
              OnRender(st, env, w, Item(s, n, Compressible(full, compressed)))
              == OnRender(st, env, w, Item(s, n, Compressible(other, compressed)))
              && OnRender(st, env, w, Item(s, n, Compressible(full, compressed))) == Write(st, env, w, compressed)
    ensures !st.compress ==>
              OnRender(st, env, w, Item(s, n, Compressible(full, compressed)))
              == OnRender(st, env, w, Item(s, n, Compressible(full, other)))
              && OnRender(st, env, w, Item(s, n, Compressible(full, compressed))) == Write(st, env, w, full)
  {
  }

  /** ScriptCompressible does not override HasRenderContent, so it always reports content, even with two empty forms. */
  lemma CompressibleAlwaysHasContent(env: Env, s: StoredLayout, n: nat, full: Value, compressed: Value)
    ensures ItemHasContent(env, Item(s, n, Compressible(full, compressed)))
  {
  }

  // ---------------------------------------------------------------------------
  // ScriptWrapper.

  /** Without Before and After, a wrapper writes its content, offered ContentLayout, InternalIndents levels deeper. */
  lemma WrapperIndentsContent(st: Settings, env: Env, w: WState, it: Item)
    requires it.kind.Wrapper? && it.kind.before == Null && it.kind.after == Null && w.level >= 0
    ensures OnRenderWrapper(st, env, w, it)
         == Write(st, env, w.(level := w.level + it.kind.internalIndents),
                  OfferLayout(it.kind.content, it.kind.contentLayout)).(level := w.level)
  {
  }

  /** When the content has nothing to show, Before and After are written back to back, with no line break. */
  lemma EmptyContentJoinsBrackets(st: Settings, env: Env, w: WState, it: Item)
    requires it.kind.Wrapper? && !HasContent(env, it.kind.content) && w.level >= 0
    ensures OnRenderWrapper(st, env, w, it) == Write(st, env, Write(st, env, w, it.kind.before), it.kind.after)
  {
    OfferKeepsContent(env, it.kind.content, it.kind.contentLayout);
  }

  /** In a Block wrapper whose content has content, Before starts on a new line. */
  lemma BlockWrapperBreaksBeforeBefore(st: Settings, env: Env, w: WState, it: Item)
    requires it.kind.Wrapper? && Layout(it) == Block && HasContent(env, it.kind.content)
    requires it.kind.before != Null && !w.atLineStart
    ensures w.out + st.newLine + IndentString(st, w.level) <= OnRenderWrapper(st, env, w, it).out
  {
    OfferKeepsContent(env, it.kind.content, it.kind.contentLayout);
  }

  // ---------------------------------------------------------------------------
  // JsFunction.

  /**
   * The block layout a JsFunction settles on: a block with its own
   * layout keeps it; otherwise an unset BlockLayout gives Block after a
   * parameter list that is not Inline and InlineBlock after an Inline one,
   * and a set BlockLayout is taken as it is.
   */
  lemma FunctionBlockChoice(k: Kind)
    requires k.Function?
    ensures IsEstablished(FunctionBlockOrDefault(k).stored) ==> FunctionBlock(k) == FunctionBlockOrDefault(k)
    ensures !IsEstablished(FunctionBlockOrDefault(k).stored) && k.blockLayout == NotAlreadyEstablished ==>
              Layout(FunctionBlock(k)) == (if ListLayoutOf(FunctionParameters(k)) != Inline then Block else InlineBlock)
    ensures !IsEstablished(FunctionBlockOrDefault(k).stored) && IsConcrete(k.blockLayout) ==>
              Layout(FunctionBlock(k)) == k.blockLayout
  {
  }

  /** A function made without a layout, parameters or block writes its (new, empty) block as an InlineBlock. */
  lemma PlainFunctionHasInlineBlock(name: string)
    ensures Layout(FunctionBlock(FunctionNode(ScriptLayout.None, name, Option.None, Option.None).kind)) == InlineBlock
  {
    var k := FunctionNode(ScriptLayout.None, name, Option.None, Option.None).kind;
    assert FunctionParameters(k).kind.content == Node(JsListNode([]));
    assert ListLayoutOf(FunctionParameters(k)) == Inline;
    assert FunctionBlockOrDefault(k).stored == NotAlreadyEstablished;
  }

  /** A function made with the Block layout writes its block as a Block too. */
  lemma BlockFunctionHasBlock(name: string)
    ensures Layout(FunctionBlock(FunctionNode(Block, name, Option.None, Option.None).kind)) == Block
  {
    var k := FunctionNode(Block, name, Option.None, Option.None).kind;
    assert FunctionBlockOrDefault(k).stored == Block;
  }

  /** A JsFunction's output begins with the keyword (after the line break of a Block function). */
  lemma FunctionStartsWithKeyword(st: Settings, env: Env, w: WState, it: Item)
    requires it.kind.Function? && (Layout(it) != Block || w.atLineStart)
    ensures w.out + FunctionKeyword(it.kind.name) <= OnRenderFunction(st, env, w, it).out
  {
  }

  // ---------------------------------------------------------------------------
  // JsIf.

  /**
   * " else " and the false block are written exactly when a false block
   * exists and has content; otherwise the output is that of the same
   * statement without a false block.
   */
  lemma ElseOnlyWithContent(st: Settings, env: Env, w: WState, it: Item)
    requires it.kind.JsIf?
    ensures var bare := OnRenderIf(st, env, w, it.(kind := it.kind.(falseBlock := Option.None)));
            var r := OnRenderIf(st, env, w, it);
            (it.kind.falseBlock.Some? && ItemHasContent(env, it.kind.falseBlock.value) ==>
               r == Write(st, env, Emit(bare, " else "), Node(it.kind.falseBlock.value)))
            && (it.kind.falseBlock.None? || !ItemHasContent(env, it.kind.falseBlock.value) ==> r == bare)
  {
  }

  /** An empty JsBlock still has content (its braces), so an empty false block is written with " else ". */
  lemma EmptyBlockHasContent(env: Env, layout: ScriptLayout)
    ensures ItemHasContent(env, BlockNode(layout, []))
  {
  }

  /** A JsIf's output begins with "if (" (after the line break of a Block statement). */
  lemma IfStartsWithKeyword(st: Settings, env: Env, w: WState, it: Item)
    requires it.kind.JsIf? && (Layout(it) != Block || w.atLineStart)
    ensures w.out + "if (" <= OnRenderIf(st, env, w, it).out
  {
  }

  // ---------------------------------------------------------------------------
  // XsElement.

  /** The steps of the attribute loop: each attribute after a space. */
  function Spaced(attrs: seq<Value>): (r: seq<Step>)
    ensures |r| == 2 * |attrs|
  {
    if attrs == [] then [] else [Separator, Put(attrs[0])] + Spaced(attrs[1..])
  }

  /** The attributes are written in list order, each after one space. */
  lemma {:induction false} AttributesAreSpaced(st: Settings, env: Env, w: WState, attrs: seq<Value>, bound: nat)
    requires forall x :: x in attrs ==> VSize(x) < bound
    ensures AttrLoop(st, env, w, attrs, bound) == Run(st, env, w, " ", Spaced(attrs))
    ensures Puts(Spaced(attrs)) == attrs
    decreases |attrs|
  {
    if attrs != [] {
      var a := attrs[0];
      assert forall y :: y in attrs[1..] ==> y in attrs;
      var w1 := Write(st, env, Emit(w, " "), a);
      assert AttrLoop(st, env, w, attrs, bound) == AttrLoop(st, env, w1, attrs[1..], bound);
      assert Spaced(attrs) == [Separator, Put(a)] + Spaced(attrs[1..]);
      AttributesAreSpaced(st, env, w1, attrs[1..], bound);
      RunAppend(st, env, w, " ", [Separator, Put(a)], Spaced(attrs[1..]));
      SpacedStep(st, env, w, a);
      PutsAppend([Separator, Put(a)], Spaced(attrs[1..]));
      assert attrs == [a] + attrs[1..];
    }
  }

  /** One attribute of the loop: a space, then the attribute. */
  lemma SpacedStep(st: Settings, env: Env, w: WState, a: Value)
    ensures Run(st, env, w, " ", [Separator, Put(a)]) == Write(st, env, Emit(w, " "), a)
    ensures Puts([Separator, Put(a)]) == [a]
  {
    var steps := [Separator, Put(a)];
    assert steps[0] == Separator && steps[1..] == [Put(a)];
    assert [Put(a)][0] == Put(a) && [Put(a)][1..] == [];
    assert Puts([Put(a)]) == [a] + Puts([]);
    assert Puts(steps) == [] + Puts([Put(a)]);
    var w1 := Write(st, env, Emit(w, " "), a);
    assert Run(st, env, w, " ", steps) == Run(st, env, Emit(w, " "), " ", [Put(a)]);
    assert Run(st, env, Emit(w, " "), " ", [Put(a)]) == Run(st, env, w1, " ", []);
  }

  lemma EmitEndsWith(w: WState, p: string)
    requires p != ""
    ensures Strings.EndsWith(Emit(w, p).out, p)
  {
    var o := w.out + p;
    assert o[|o| - |p|..] == p;
  }

  /** An element writes "<" and its encoded name first (after the line break of a Block element). */
  lemma ElementOpens(st: Settings, env: Env, w: WState, it: Item)
    requires it.kind.Set? && it.kind.setFlavor.Element?
    requires Layout(ElementForRender(it)) != Block || w.atLineStart
    ensures w.out + "<" + env.encodeName(it.kind.setFlavor.name) <= OnRenderElement(st, env, w, it).out
  {
    var name := env.encodeName(it.kind.setFlavor.name);
    var it1 := ElementForRender(it);
    var w0 := BreakIf(st, w, Layout(it1) == Block && ItemHasContent(env, it1));
    assert w0 == w;
    EmitAdds(w, "<" + name);
    StartTagFirst(st, env, w, it);
    assert w.out + "<" + name == Emit(w, "<" + name).out;
  }

  /** Whatever an element writes after its start tag only extends it. */
  lemma StartTagFirst(st: Settings, env: Env, w: WState, it: Item)
    requires it.kind.Set? && it.kind.setFlavor.Element?
    ensures var it1 := ElementForRender(it);
            Emit(BreakIf(st, w, Layout(it1) == Block && ItemHasContent(env, it1)), "<" + env.encodeName(it.kind.setFlavor.name)).out
            <= OnRenderElement(st, env, w, it).out
  {
    var name := env.encodeName(it.kind.setFlavor.name);
    var it1 := ElementForRender(it);
    var w1 := Emit(BreakIf(st, w, Layout(it1) == Block && ItemHasContent(env, it1)), "<" + name);
    SetItemSize(it);
    var w2 := AttrLoop(st, env, w1, Attributes(it.kind.items), ISize(it));
    assert w1.out <= w2.out;
  }

  /** An element whose raw items are all attributes closes itself with "/>". */
  lemma ElementSelfCloses(st: Settings, env: Env, w: WState, it: Item)
    requires it.kind.Set? && it.kind.setFlavor.Element? && !HasInnerNodes(it.kind.items)
    ensures Strings.EndsWith(OnRenderElement(st, env, w, it).out, "/>")
  {
    var it1 := ElementForRender(it);
    var w1 := Emit(BreakIf(st, w, Layout(it1) == Block && ItemHasContent(env, it1)), "<" + env.encodeName(it.kind.setFlavor.name));
    SetItemSize(it);
    EmitEndsWith(AttrLoop(st, env, w1, Attributes(it.kind.items), ISize(it)), "/>");
  }

  /** An element with any other raw item writes its inner nodes and ends with its end tag. */
  lemma ElementHasEndTag(st: Settings, env: Env, w: WState, it: Item)
    requires it.kind.Set? && it.kind.setFlavor.Element? && HasInnerNodes(it.kind.items)
    ensures Strings.EndsWith(OnRenderElement(st, env, w, it).out, "</" + env.encodeName(it.kind.setFlavor.name) + ">")
  {
    var name := env.encodeName(it.kind.setFlavor.name);
    var it1 := ElementForRender(it);
    var w1 := Emit(BreakIf(st, w, Layout(it1) == Block && ItemHasContent(env, it1)), "<" + name);
    SetItemSize(it);
    var w2 := AttrLoop(st, env, w1, Attributes(it.kind.items), ISize(it));
    assert OnRenderElement(st, env, w, it) == ElementInner(st, env, w2, it1, name);
    ElementCloses(st, env, w2, it1, name);
  }

  lemma ElementCloses(st: Settings, env: Env, w: WState, it: Item, name: string)
    requires it.kind.Set?
    ensures Strings.EndsWith(ElementInner(st, env, w, it, name).out, "</" + name + ">")
  {
    var lay := Layout(it);
    var w1 := BreakIf(st, Emit(w, ">"), lay == InlineBlock);
    var w2 := EndIndent(OnRenderSet(st, env, BeginIndent(w1, 1), it), 1);
    EmitEndsWith(BreakIf(st, w2, IsMultiLine(lay)), "</" + name + ">");
  }

  /** A child element asks for Block, first-wins: an element whose layout is not yet established becomes Block. */
  lemma ChildElementMakesBlock(it: Item)
    requires it.kind.Set? && HasChildElement(it.kind.items)
    ensures !IsEstablished(it.stored) ==> Layout(ElementForRender(it)) == Block
    ensures IsEstablished(it.stored) ==> ElementForRender(it) == it
  {
  }

  // ---------------------------------------------------------------------------
  // XsText, XsAttribute, XsCData and JsQuote: what they write reads back.

  /** The output an Emit adds. */
  lemma EmitAdds(w: WState, p: string)
    ensures Emit(w, p).out == w.out + p
  {
    if p == "" {
      assert w.out + p == w.out;
    }
  }

  /**
   * XsText writes the encoded text: it has no raw angle brackets, and
   * decoding its entities gives back exactly the text a writer with the same
   * settings renders; without a carriage return, an XML processor's reading
   * (line ends included) gives it back too.
   */
  lemma TextReadsBack(st: Settings, env: Env, w: WState, it: Item)
    requires it.kind.Text? && (Layout(it) != Block || w.atLineStart)
    ensures var sub := SubRender(st, env, it.kind.text);
            var e := XmlEncoding.EncodeText(sub);
            OnRender(st, env, w, it).out == w.out + e
            && '<' !in e && '>' !in e
            && XmlEncoding.Unescape(e) == Some(sub)
            && ('\r' !in sub ==> XmlEncoding.ReadContent(e) == Some(sub))
  {
    var sub := SubRender(st, env, it.kind.text);
    assert OnRender(st, env, w, it) == Emit(w, XmlEncoding.EncodeText(sub));
    EmitAdds(w, XmlEncoding.EncodeText(sub));
    XmlEncoding.EncodeTextIsSafe(sub);
    XmlEncoding.TextRoundTrip(sub);
    if '\r' !in sub {
      XmlEncoding.TextReadsAsXml(sub);
    }
  }

  /**
   * XsAttribute writes name="value" with the value encoded: no raw markup
   * character or quote is left in it; when the rendered value has no line
   * feed its entities decode back to that value, and when it also has no
   * carriage return or tab an XML processor reads it back as that value.
   */
  lemma AttributeReadsBack(st: Settings, env: Env, w: WState, it: Item)
    requires it.kind.Attribute? && (Layout(it) != Block || w.atLineStart)
    ensures var sub := SubRender(st, env, it.kind.value);
            var e := XmlEncoding.EncodeAttribute(env.platformNewLine, sub);
            OnRender(st, env, w, it).out == w.out + env.encodeName(it.kind.name) + "=\"" + e + "\""
            && '<' !in e && '>' !in e && '"' !in e && '\'' !in e
            && ('\n' !in sub ==> XmlEncoding.Unescape(e) == Some(sub))
            && ('\n' !in sub && '\r' !in sub && '\t' !in sub ==> XmlEncoding.ReadAttributeValue(e) == Some(sub))
  {
    var sub := SubRender(st, env, it.kind.value);
    var e := XmlEncoding.EncodeAttribute(env.platformNewLine, sub);
    var w1 := Emit(w, env.encodeName(it.kind.name) + "=\"");
    EmitAdds(w, env.encodeName(it.kind.name) + "=\"");
    EmitAdds(w1, e);
    EmitAdds(Emit(w1, e), "\"");
    Strings.AppendAssoc(w.out, env.encodeName(it.kind.name), "=\"");
    XmlEncoding.EncodeAttributeIsSafe("&quot;", env.platformNewLine, sub, '<');
    XmlEncoding.EncodeAttributeIsSafe("&quot;", env.platformNewLine, sub, '>');
    XmlEncoding.EncodeAttributeIsSafe("&quot;", env.platformNewLine, sub, '"');
    XmlEncoding.EncodeAttributeIsSafe("&quot;", env.platformNewLine, sub, '\'');
    if '\n' !in sub {
      XmlEncoding.AttributeRoundTrip(env.platformNewLine, sub);
    }
    if '\n' !in sub && '\r' !in sub && '\t' !in sub {
      XmlEncoding.AttributeReadsAsXml(env.platformNewLine, sub);
    }
  }

  /**
   * XsCData writes one CDATA section around the escaped data; read back, the
   * sections give exactly the rendered data, "]]>" included (through an XML
   * processor's line-end handling, when the data has no carriage return).
   */
  lemma CDataReadsBack(st: Settings, env: Env, w: WState, it: Item)
    requires it.kind.CData? && (Layout(it) != Block || w.atLineStart)
    ensures var sub := SubRender(st, env, it.kind.data);
            OnRender(st, env, w, it).out == w.out + XmlEncoding.CDataSection(sub)
            && XmlEncoding.Unescape(XmlEncoding.CDataSection(sub)) == Some(sub)
            && ('\r' !in sub ==> XmlEncoding.ReadContent(XmlEncoding.CDataSection(sub)) == Some(sub))
  {
    var sub := SubRender(st, env, it.kind.data);
    CDataWrites(st, env, w, it);
    XmlEncoding.CDataRoundTrip(sub);
    if '\r' !in sub {
      XmlEncoding.CDataReadsAsXml(sub);
    }
  }

  lemma CDataWrites(st: Settings, env: Env, w: WState, it: Item)
    requires it.kind.CData? && (Layout(it) != Block || w.atLineStart)
    ensures OnRender(st, env, w, it).out == w.out + XmlEncoding.CDataSection(SubRender(st, env, it.kind.data))
  {
    var e := XmlEncoding.EscapeCData(SubRender(st, env, it.kind.data));
    assert OnRender(st, env, w, it) == OnRenderCData(st, env, w, it);
    assert BreakIf(st, w, Layout(it) == Block) == w;
    EmitsAdd(w, "<![CDATA[", e, "]]>");
  }

  /** Three writes in a row append the three strings. */
  lemma EmitsAdd(w: WState, a: string, b: string, c: string)
    ensures Emit(Emit(Emit(w, a), b), c).out == w.out + (a + b + c)
  {
    EmitAdds(w, a);
    EmitAdds(Emit(w, a), b);
    EmitAdds(Emit(Emit(w, a), b), c);
  }

  /**
   * JsQuote writes one string literal; read as JavaScript it gives back the
   * rendered text whenever that text has no backslash, no line feed and no
   * carriage return.
   */
  lemma QuoteReadsBack(st: Settings, env: Env, w: WState, it: Item)
    requires it.kind.Quote? && (Layout(it) != Block || w.atLineStart)
    ensures var q := JsQuoting.QuoteChar(it.kind.doubleQuotes);
            var sub := SubRender(st, env, it.kind.text);
            OnRender(st, env, w, it).out == w.out + JsQuoting.Literal(q, env.platformNewLine, sub)
            && ('\\' !in sub && '\n' !in sub && '\r' !in sub ==> JsQuoting.ReadLiteral(q, JsQuoting.Literal(q, env.platformNewLine, sub)) == Some(sub))
  {
    var q := JsQuoting.QuoteChar(it.kind.doubleQuotes);
    var sub := SubRender(st, env, it.kind.text);
    if '\\' !in sub && '\n' !in sub && '\r' !in sub {
      JsQuoting.QuoteRoundTrip(q, env.platformNewLine, sub);
    }
  }

  /**
   * A JsQuote with null Text: the source writes an empty pair of quotes and
   * then the empty literal, four quote characters in all; the model writes
   * the one empty pair the constructor's documentation describes.
   */
  lemma NullQuoteAsWrittenHasFourQuotes(st: Settings, env: Env, w: WState, it: Item)
    requires it.kind.Quote? && it.kind.text == Null && (Layout(it) != Block || w.atLineStart)
    ensures var q := JsQuoting.QuoteChar(it.kind.doubleQuotes);
            QuoteAsWritten(st, env, w, it).out == w.out + [q, q, q, q]
            && OnRender(st, env, w, it).out == w.out + [q, q]
  {
    var q := JsQuoting.QuoteChar(it.kind.doubleQuotes);
    assert SubRender(st, env, Null) == "";
    Strings.ReplaceShort("", [q], ['\\', q]);
    Strings.ReplaceShort("", env.platformNewLine, JsQuoting.NewLineEscape);
    assert JsQuoting.Literal(q, env.platformNewLine, "") == [q, q];
  }

  /** With a Text that is not null, the source's JsQuote render and the model's are the same. */
  lemma QuoteAgreesWithSource(st: Settings, env: Env, w: WState, it: Item)
    requires it.kind.Quote? && it.kind.text != Null
    ensures OnRender(st, env, w, it) == QuoteAsWritten(st, env, w, it)
  {
    assert OnRender(st, env, w, it) == OnRenderQuote(st, env, w, it);
  }

  /** With a rendered value that has no quote, the source's XsAttribute render and the model's are the same. */
  lemma AttributeAgreesWithSource(st: Settings, env: Env, w: WState, it: Item)
    requires it.kind.Attribute? && '"' !in SubRender(st, env, it.kind.value)
    ensures OnRender(st, env, w, it) == AttributeAsWritten(st, env, w, it)
  {
    assert OnRender(st, env, w, it) == OnRenderAttribute(st, env, w, it);
    XmlEncoding.EncodingsAgreeWithoutQuote(env.platformNewLine, SubRender(st, env, it.kind.value));
  }

  /**
   * JsProperty writes its name, then ": ", then its value, each written as
   * Write renders it, with nothing in between.
   */
  lemma PropertyWrites(st: Settings, env: Env, w: WState, it: Item)
    requires it.kind.Property? && (Layout(it) != Block || w.atLineStart)
    ensures var w1 := Write(st, env, w, it.kind.propertyName);
            var r := OnRender(st, env, w, it);
            Extends(w, w1) && w1.out + ": " <= r.out
            && r == Write(st, env, Emit(w1, ": "), it.kind.value)
  {
    var w1 := Write(st, env, w, it.kind.propertyName);
    assert OnRender(st, env, w, it) == OnRenderProperty(st, env, w, it);
    assert BreakIf(st, w, Layout(it) == Block) == w;
    EmitAdds(w1, ": ");
  }

  /**
   * Formatting a node does not ask for render content: a property with a
   * null name has none, so Write skips it, yet Format writes ": v".
   */
  lemma FormatRendersContentlessNode(st: Settings, env: Env)
    ensures var v := Node(Item(NotAlreadyEstablished, 0, Property(Null, Str("v"))));
            !HasContent(env, v) && Write(st, env, Fresh(), v).out == ""
            && Format(st, env, v) == ": v"
  {
    var it := Item(NotAlreadyEstablished, 0, Property(Null, Str("v")));
    var st1 := DefaultSettings(env).(format := st.format);
    assert Layout(it) == Inline;
    assert OnRender(st1, env, Fresh(), it) == OnRenderProperty(st1, env, Fresh(), it);
    assert BreakIf(st1, Fresh(), false) == Fresh();
    var w1 := Emit(Fresh(), ": ");
    assert w1.out == ": ";
    assert Write(st1, env, w1, Str("v")).out == ": " + "v";
  }

  /** A new XsText node renders as the encoding of what its text renders as. */
  lemma TextNodeRenders(st: Settings, env: Env, v: Value)
    ensures SubRender(st, env, Node(TextItem(v))) == XmlEncoding.EncodeText(SubRender(st, env, v))
  {
    var it := TextItem(v);
    var e := XmlEncoding.EncodeText(SubRender(st, env, v));
    assert Layout(it) == Inline;
    assert ItemHasContent(env, it);
    EmitAdds(Fresh(), e);
    assert BreakIf(st, Fresh(), Layout(it) == Block) == Fresh();
    assert OnRender(st, env, Fresh(), it) == Emit(Fresh(), e);
    assert BeginIndent(Fresh(), 0) == Fresh();
    assert RenderItem(st, env, Fresh(), it).out == e;
    assert Write(st, env, Fresh(), Node(it)) == RenderItem(st, env, Fresh(), it).(atLineStart := false);
  }

  /**
   * An XsText inside an element, as the source builds the render list, is
   * wrapped in a second XsText and so encoded twice: "<" comes out as
   * "&amp;lt;".  Taken as an XML node, it is written once, as "&lt;".
   */
  lemma TextInElementAsWrittenIsEncodedTwice(st: Settings, env: Env)
    ensures var inner := Node(TextItem(Str("<")));
            ElementListAsWritten([inner]) == [Node(TextItem(inner))]
            && SubRender(st, env, Node(TextItem(inner))) == "&amp;lt;"
            && ElementList([inner]) == [inner]
            && SubRender(st, env, inner) == "&lt;"
  {
    var inner := Node(TextItem(Str("<")));
    TextChildList(inner);
    assert SubRender(st, env, Str("<")) == "<";
    TextNodeRenders(st, env, Str("<"));
    TextNodeRenders(st, env, inner);
    XmlEncoding.EncodeTwice();
  }
}
