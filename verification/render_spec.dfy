/**
 * What rendering a value does to a writer.  Each function gives the writer
 * state after the corresponding render call of the source: Write is
 * ScriptWriter.Write(object), RenderItem is ScriptItem.Render(writer, 0),
 * and OnRender dispatches to each kind of node's OnRender.  Layout changes
 * that the source makes while rendering (an offered content layout, the
 * Block an element with child elements asks for, a function's block
 * layout) are applied to the node value before it is rendered.
 */
module RenderSpec {
  import opened Wrappers
  import opened Layouts
  import opened Values
  import opened WriterSpec
  import Strings
  import XmlEncoding
  import JsQuoting

  /** What every render call promises: it only appends, and it leaves a non-negative indent level as it found it. */
  predicate Extends(w: WState, r: WState)
  {
    w.out <= r.out && (w.level >= 0 ==> r.level == w.level)
  }

  /** WriteNewLineAndIndent() when a condition holds. */
  function BreakIf(st: Settings, w: WState, cond: bool): (r: WState)
    ensures Extends(w, r)
    ensures !cond ==> r == w
    ensures cond ==> r == NewLineAndIndent(st, w)
  {
    if cond then NewLineAndIndent(st, w) else w
  }

  /** What ToString gives for an object[]. */
  const ArrayText: string := "System.Object[]"

  /**
   * ScriptWriter.Write(object): an object without render content changes
   * nothing; a node renders itself; anything else is formatted and written;
   * either way the writer is no longer at the start of a line.
   */
  function Write(st: Settings, env: Env, w: WState, v: Value): (r: WState)
    ensures Extends(w, r)
    ensures !HasContent(env, v) ==> r == w
    ensures HasContent(env, v) ==> !r.atLineStart
    decreases VSize(v), 6
  {
    match v
    case Null => w
    case Str(s) => Emit(w, s)
    case Scalar(x) => WState(w.out + st.format(x), w.level, false)
    case Arr(_) => Emit(w, ArrayText)
    case Node(it) =>
      if ItemHasContent(env, it) then RenderItem(st, env, w, it).(atLineStart := false) else w
  }

  /**
   * ScriptItem.Render(writer, 0): a multi-line node indents its output by
   * its Indents, inside a BeginIndent/EndIndent pair.
   */
  function RenderItem(st: Settings, env: Env, w: WState, it: Item): (r: WState)
    ensures Extends(w, r)
    decreases ISize(it), 5
  {
    var total := if IsMultiLine(Layout(it)) then it.indents else 0;
    EndIndent(OnRender(st, env, BeginIndent(w, total), it), total)
  }

  /** Every part a node renders is smaller than the node. */
  lemma PartSizes(it: Item)
    ensures it.kind.Wrapper? ==>
              VSize(it.kind.before) < ISize(it) && VSize(it.kind.content) < ISize(it) && VSize(it.kind.after) < ISize(it)
    ensures it.kind.If? ==>
              VSize(it.kind.test) < ISize(it) && VSize(it.kind.trueValue) < ISize(it) && VSize(it.kind.falseValue) < ISize(it)
    ensures it.kind.Compressible? ==> VSize(it.kind.full) < ISize(it) && VSize(it.kind.compressed) < ISize(it)
    ensures it.kind.Function? ==>
              VSize(Node(FunctionParameters(it.kind))) < ISize(it) && VSize(Node(FunctionBlock(it.kind))) < ISize(it)
    ensures it.kind.JsIf? ==>
              VSize(it.kind.condition) < ISize(it) && VSize(Node(it.kind.trueBlock)) < ISize(it)
              && (it.kind.falseBlock.Some? ==> VSize(Node(it.kind.falseBlock.value)) < ISize(it))
    ensures it.kind.Quote? ==> VSize(it.kind.text) < ISize(it)
    ensures it.kind.Property? ==> VSize(it.kind.propertyName) < ISize(it) && VSize(it.kind.value) < ISize(it)
    ensures it.kind.Text? ==> VSize(it.kind.text) < ISize(it)
    ensures it.kind.Attribute? ==> VSize(it.kind.value) < ISize(it)
    ensures it.kind.CData? ==> VSize(it.kind.data) < ISize(it)
  {
    if it.kind.Function? {
      FunctionPartSizes(it);
    } else if it.kind.JsIf? {
      assert ISize(it) == 2 + VSize(it.kind.condition) + ISize(it.kind.trueBlock) + OSize(it.kind.falseBlock);
    }
  }

  lemma FunctionPartSizes(it: Item)
    requires it.kind.Function?
    ensures VSize(Node(FunctionParameters(it.kind))) < ISize(it) && VSize(Node(FunctionBlock(it.kind))) < ISize(it)
  {
    var p, b := it.kind.parameters, it.kind.block;
    assert ISize(it) == 2 + OSize(p) + OSize(b);
    assert SSize([]) == 0;
    assert ISize(FunctionParameters(it.kind)) < OSize(p);
    assert ISize(FunctionBlockOrDefault(it.kind)) < OSize(b);
  }

  /** What a new writer with the same settings writes for a value: the text JsQuote, XsText, XsAttribute and XsCData escape. */
  function SubRender(st: Settings, env: Env, v: Value): (r: string)
    ensures !HasContent(env, v) ==> r == ""
    decreases VSize(v), 7
  {
    Write(st, env, Fresh(), v).out
  }

  /** The OnRender of each kind of node. */
  function OnRender(st: Settings, env: Env, w: WState, it: Item): (r: WState)
    ensures Extends(w, r)
    decreases ISize(it), 4
  {
    PartSizes(it);
    match it.kind
    case Plain => w
    case Set(_, _, flavor, _) =>
      if flavor.Element? then OnRenderElement(st, env, w, it) else OnRenderSet(st, env, w, it)
    case Wrapper(_, _, _, _, _, _, _) => OnRenderWrapper(st, env, w, it)
    case If(t, x, y) => Write(st, env, w, Winner(env, t, x, y))
    case Compressible(full, compressed) => Write(st, env, w, if st.compress then compressed else full)
    case Function(_, _, _, _) => OnRenderFunction(st, env, w, it)
    case JsIf(_, _, _) => OnRenderIf(st, env, w, it)
    case Quote(_, _) => OnRenderQuote(st, env, w, it)
    case Property(_, _) => OnRenderProperty(st, env, w, it)
    case Text(_) => OnRenderText(st, env, w, it)
    case Attribute(_, _) => OnRenderAttribute(st, env, w, it)
    case CData(_) => OnRenderCData(st, env, w, it)
  }

  /** JsQuote.OnRender: one literal of the rendered text, quotes escaped and newlines written as \n\r. */
  function OnRenderQuote(st: Settings, env: Env, w: WState, it: Item): (r: WState)
    requires it.kind.Quote?
    ensures Extends(w, r)
    decreases ISize(it), 3
  {
    PartSizes(it);
    var q := JsQuoting.QuoteChar(it.kind.doubleQuotes);
    var sub := SubRender(st, env, it.kind.text);
    Emit(BreakIf(st, w, Layout(it) == Block), JsQuoting.Literal(q, env.platformNewLine, sub))
  }

  /** JsProperty.OnRender: the name, ": " and the value. */
  function OnRenderProperty(st: Settings, env: Env, w: WState, it: Item): (r: WState)
    requires it.kind.Property?
    ensures Extends(w, r)
    decreases ISize(it), 3
  {
    PartSizes(it);
    var w1 := Write(st, env, BreakIf(st, w, Layout(it) == Block), it.kind.propertyName);
    Write(st, env, Emit(w1, ": "), it.kind.value)
  }

  /** XsText.OnRender: the rendered text, encoded. */
  function OnRenderText(st: Settings, env: Env, w: WState, it: Item): (r: WState)
    requires it.kind.Text?
    ensures Extends(w, r)
    decreases ISize(it), 3
  {
    PartSizes(it);
    var sub := SubRender(st, env, it.kind.text);
    Emit(BreakIf(st, w, Layout(it) == Block), XmlEncoding.EncodeText(sub))
  }

  /** XsAttribute.OnRender: the encoded name, "=", and the encoded rendered value in double quotes. */
  function OnRenderAttribute(st: Settings, env: Env, w: WState, it: Item): (r: WState)
    requires it.kind.Attribute?
    ensures Extends(w, r)
    decreases ISize(it), 3
  {
    PartSizes(it);
    var sub := SubRender(st, env, it.kind.value);
    var w1 := Emit(BreakIf(st, w, Layout(it) == Block), env.encodeName(it.kind.name) + "=\"");
    Emit(Emit(w1, XmlEncoding.EncodeAttribute(env.platformNewLine, sub)), "\"")
  }

  /** XsCData.OnRender: the rendered data in a CDATA section. */
  function OnRenderCData(st: Settings, env: Env, w: WState, it: Item): (r: WState)
    requires it.kind.CData?
    ensures Extends(w, r)
    decreases ISize(it), 3
  {
    PartSizes(it);
    var sub := SubRender(st, env, it.kind.data);
    var w1 := Emit(BreakIf(st, w, Layout(it) == Block), "<![CDATA[");
    Emit(Emit(w1, XmlEncoding.EscapeCData(sub)), "]]>")
  }

  /**
   * JsQuote.OnRender as the source has it: when Text is null it writes an
   * empty pair of quotes and then goes on to write the (empty) literal as
   * well.
   */
  function QuoteAsWritten(st: Settings, env: Env, w: WState, it: Item): (r: WState)
    requires it.kind.Quote?
    ensures Extends(w, r)
  {
    var q := JsQuoting.QuoteChar(it.kind.doubleQuotes);
    var w1 := BreakIf(st, w, Layout(it) == Block);
    var w2 := if it.kind.text == Null then Emit(w1, [q, q]) else w1;
    Emit(w2, JsQuoting.Literal(q, env.platformNewLine, SubRender(st, env, it.kind.text)))
  }

  /** XsAttribute.OnRender as the source has it: the value goes through the encoder that writes "&quote;". */
  function AttributeAsWritten(st: Settings, env: Env, w: WState, it: Item): (r: WState)
    requires it.kind.Attribute?
    ensures Extends(w, r)
  {
    var sub := SubRender(st, env, it.kind.value);
    var w1 := Emit(BreakIf(st, w, Layout(it) == Block), env.encodeName(it.kind.name) + "=\"");
    Emit(Emit(w1, XmlEncoding.EncodeAttributeAsWritten(env.platformNewLine, sub)), "\"")
  }

  /**
   * ScriptSet.OnRender: a Block set with content starts on a new line, then
   * the render list is written by the loop below.
   */
  function OnRenderSet(st: Settings, env: Env, w: WState, it: Item): (r: WState)
    requires it.kind.Set?
    ensures Extends(w, r)
    decreases ISize(it), 1
  {
    var lay := Layout(it);
    var w1 := BreakIf(st, w, lay == Block && ItemHasContent(env, it));
    SetLoop(st, env, w1, RenderList(it), true, it.kind.separator, lay, ISize(it))
  }

  /**
   * The loop of ScriptSet.OnRender over the rest of the render list.  A null
   * entry, and a node without content, neither writes nor clears `first`
   * (writing such a node changes nothing).  Any other entry after the first
   * counted one is preceded by the separator, and then by a new line when
   * the set is multi-line and the entry is not a multi-line node.
   */
  function SetLoop(st: Settings, env: Env, w: WState, list: seq<Value>, first: bool,
                   separator: string, lay: ConcreteLayout, bound: nat): (r: WState)
    requires forall x :: x in list ==> VSize(x) < bound
    ensures Extends(w, r)
    decreases bound, 0, |list|
  {
    if list == [] then w
    else
      var x := list[0];
      if !Counted(env, x) then SetLoop(st, env, w, list[1..], first, separator, lay, bound)
      else
        var w1 := if first then w
                  else BreakIf(st, Emit(w, separator), BreaksBefore(lay, x));
        SetLoop(st, env, Write(st, env, w1, x), list[1..], false, separator, lay, bound)
  }

  /**
   * After a separator, a new line follows when the set is multi-line and
   * the entry is a plain value or an Inline node: a multi-line node breaks
   * its own line.
   */
  predicate BreaksBefore(lay: ConcreteLayout, x: Value)
  {
    IsMultiLine(lay) && !(x.Node? && Layout(x.item) != Inline)
  }

  /** Entries of a render list that take part in the separator logic: anything but null and nodes without content. */
  predicate Counted(env: Env, x: Value)
  {
    x != Null && !(x.Node? && !ItemHasContent(env, x.item))
  }

  /** The raw items of an element that are attributes, in order. */
  function Attributes(items: seq<Value>): (r: seq<Value>)
    ensures forall x :: x in r ==> IsAttributeNode(x) && VSize(x) <= SSize(items)
    ensures |r| <= |items|
    decreases |items|
  {
    if items == [] then []
    else
      assert SSize(items) == VSize(items[0]) + SSize(items[1..]);
      (if IsAttributeNode(items[0]) then [items[0]] else []) + Attributes(items[1..])
  }

  /** Some raw item is not an attribute: the element has inner nodes. */
  predicate HasInnerNodes(items: seq<Value>)
  {
    exists k :: 0 <= k < |items| && !IsAttributeNode(items[k])
  }

  /** Some raw item is an element. */
  predicate HasChildElement(items: seq<Value>)
  {
    exists k :: 0 <= k < |items| && IsElementNode(items[k])
  }

  /** The element after the first-wins request for Block that a child element triggers. */
  function ElementForRender(it: Item): (r: Item)
    ensures ISize(r) == ISize(it) && r.kind.Set? == it.kind.Set?
    ensures it.kind.Set? ==> r.kind.setFlavor == it.kind.setFlavor && r.kind.items == it.kind.items
  {
    if it.kind.Set? && HasChildElement(it.kind.items) then SetLayout(it, Block, true) else it
  }

  /**
   * XsElement.OnRender: the start tag with the attributes, then either "/>"
   * or ">" with the inner nodes one level deeper and the end tag.
   */
  function OnRenderElement(st: Settings, env: Env, w: WState, it: Item): (r: WState)
    requires it.kind.Set? && it.kind.setFlavor.Element?
    ensures Extends(w, r)
    decreases ISize(it), 3
  {
    var items := it.kind.items;
    var name := env.encodeName(it.kind.setFlavor.name);
    var it1 := ElementForRender(it);
    var w1 := Emit(BreakIf(st, w, Layout(it1) == Block && ItemHasContent(env, it1)), "<" + name);
    SetItemSize(it);
    var w2 := AttrLoop(st, env, w1, Attributes(items), ISize(it));
    if HasInnerNodes(items) then ElementInner(st, env, w2, it1, name) else Emit(w2, "/>")
  }

  /** The rest of an element with inner nodes: ">", the inner nodes one level deeper, and the end tag. */
  function ElementInner(st: Settings, env: Env, w: WState, it: Item, name: string): (r: WState)
    requires it.kind.Set?
    ensures Extends(w, r)
    decreases ISize(it), 2
  {
    var lay := Layout(it);
    var w1 := BreakIf(st, Emit(w, ">"), lay == InlineBlock);
    var w2 := EndIndent(OnRenderSet(st, env, BeginIndent(w1, 1), it), 1);
    Emit(BreakIf(st, w2, IsMultiLine(lay)), "</" + name + ">")
  }

  /** The attributes of an element, each after a space. */
  function AttrLoop(st: Settings, env: Env, w: WState, attrs: seq<Value>, bound: nat): (r: WState)
    requires forall x :: x in attrs ==> VSize(x) < bound
    ensures Extends(w, r)
    decreases bound, 0, |attrs|
  {
    if attrs == [] then w
    else AttrLoop(st, env, Write(st, env, Emit(w, " "), attrs[0]), attrs[1..], bound)
  }

  /**
   * ScriptWrapper.OnRender: the content is offered ContentLayout, Before
   * and After are written when they are not null (each after a new line
   * when the layout asks for one and the content has something to show),
   * and the content sits InternalIndents levels deeper.
   */
  function OnRenderWrapper(st: Settings, env: Env, w: WState, it: Item): (r: WState)
    requires it.kind.Wrapper?
    ensures Extends(w, r)
    decreases ISize(it), 1
  {
    PartSizes(it);
    var k := it.kind;
    var lay := Layout(it);
    var content := OfferLayout(k.content, k.contentLayout);
    var shows := HasContent(env, content);
    var w1 := if k.before != Null then Write(st, env, BreakIf(st, w, lay == Block && shows), k.before) else w;
    var w2 := EndIndent(Write(st, env, BeginIndent(w1, k.internalIndents), content), k.internalIndents);
    if k.after != Null then Write(st, env, BreakIf(st, w2, IsMultiLine(lay) && shows), k.after) else w2
  }

  /** The keyword JsFunction writes: "function", followed by a space and the name when there is one. */
  function FunctionKeyword(name: string): (r: string)
    ensures name == "" ==> r == "function"
    ensures name != "" ==> r == "function " + name
  {
    if name == "" then "function" else "function " + name
  }

  /**
   * JsFunction.OnRender: the keyword, the parameters one level deeper, a
   * space and the block, whose layout was settled by FunctionBlock.
   */
  function OnRenderFunction(st: Settings, env: Env, w: WState, it: Item): (r: WState)
    requires it.kind.Function?
    ensures Extends(w, r)
    decreases ISize(it), 1
  {
    PartSizes(it);
    var w1 := Emit(BreakIf(st, w, Layout(it) == Block), FunctionKeyword(it.kind.name));
    var w2 := EndIndent(Write(st, env, BeginIndent(w1, 1), Node(FunctionParameters(it.kind))), 1);
    Write(st, env, Emit(w2, " "), Node(FunctionBlock(it.kind)))
  }

  /**
   * JsIf.OnRender: "if (", the condition one level deeper, ") ", the true
   * block, and " else " with the false block only when a false block
   * exists and has content.
   */
  function OnRenderIf(st: Settings, env: Env, w: WState, it: Item): (r: WState)
    requires it.kind.JsIf?
    ensures Extends(w, r)
    decreases ISize(it), 1
  {
    PartSizes(it);
    var k := it.kind;
    var w1 := Emit(BreakIf(st, w, Layout(it) == Block), "if (");
    var w2 := EndIndent(Write(st, env, BeginIndent(w1, 1), k.condition), 1);
    var w3 := Write(st, env, Emit(w2, ") "), Node(k.trueBlock));
    match k.falseBlock
    case Some(fb) => if ItemHasContent(env, fb) then Write(st, env, Emit(w3, " else "), Node(fb)) else w3
    case None => w3
  }

  // ---------------------------------------------------------------------------
  // Entry points.

  /** Sb.Render(o, indentations): a new writer at the given level writes the object. */
  function RenderAt(env: Env, v: Value, indentations: int): (r: string)
    ensures !HasContent(env, v) ==> r == ""
  {
    Write(DefaultSettings(env), env, Fresh().(level := indentations), v).out
  }

  /** Sb.Render(o): a new writer at level 0 writes the object. */
  function RenderToString(env: Env, v: Value): (r: string)
    ensures !HasContent(env, v) ==> r == ""
    ensures v.Str? ==> r == v.s
  {
    RenderAt(env, v, 0)
  }

  /**
   * ScriptWriter.Format(object): null is the empty string; a node goes to
   * ScriptItem.Render(formatProvider), which renders it by a new writer that
   * uses this writer's format provider, with no check of render content; a
   * string is itself and an array its type name.
   */
  function Format(st: Settings, env: Env, v: Value): (r: string)
    ensures v == Null ==> r == ""
    ensures !v.Node? && HasContent(env, v) ==> Write(st, env, Fresh(), v).out == r
    ensures v.Node? && HasContent(env, v) ==> Write(DefaultSettings(env).(format := st.format), env, Fresh(), v).out == r
  {
    match v
    case Null => ""
    case Str(s) => s
    case Scalar(x) => st.format(x)
    case Arr(_) => ArrayText
    case Node(it) => RenderItem(DefaultSettings(env).(format := st.format), env, Fresh(), it).out
  }
}
