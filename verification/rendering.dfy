/**
 * The render methods, written against a ScriptWriter object the way the
 * source writes them: step by step, with the set and element loops as
 * loops.  Each method is proved to leave the writer in the state the
 * matching function of RenderSpec computes, so everything proved about
 * those functions holds of the writer.
 */
module Rendering {
  import opened Wrappers
  import opened Layouts
  import opened Values
  import opened Writer
  import WriterSpec
  import RenderSpec
  import XmlEncoding
  import JsQuoting

  /** WriteNewLineAndIndent() when a condition holds. */
  method BreakIf(w: ScriptWriter, cond: bool)
    requires w.Valid()
    modifies w
    ensures w.Valid() && w.Config() == old(w.Config())
    ensures w.State() == RenderSpec.BreakIf(w.Config(), old(w.State()), cond)
  {
    if cond {
      w.WriteNewLineAndIndent(true);
    }
  }

  /** ScriptWriter.Write(object). */
  method Write(w: ScriptWriter, env: Env, v: Value)
    requires w.Valid()
    modifies w
    ensures w.Valid() && w.Config() == old(w.Config())
    ensures w.State() == RenderSpec.Write(w.Config(), env, old(w.State()), v)
    decreases VSize(v), 6
  {
    match v
    case Null =>
    case Str(s) =>
      w.Write(s);
    case Scalar(x) =>
      w.WriteFormatted(w.format(x));
    case Arr(_) =>
      w.Write(RenderSpec.ArrayText);
    case Node(it) =>
      if ItemHasContent(env, it) {
        RenderItem(w, env, it);
        w.SetStartOfLine(false);
      }
  }

  /** ScriptItem.Render(writer, 0): OnRender inside a balanced indent of the node's Indents when it is multi-line. */
  method RenderItem(w: ScriptWriter, env: Env, it: Item)
    requires w.Valid()
    modifies w
    ensures w.Valid() && w.Config() == old(w.Config())
    ensures w.State() == RenderSpec.RenderItem(w.Config(), env, old(w.State()), it)
    decreases ISize(it), 5
  {
    var total := if IsMultiLine(Layout(it)) then it.indents else 0;
    w.BeginIndent(total);
    OnRender(w, env, it);
    w.EndIndent(total);
  }

  /** A new writer with this writer's settings writes the value; its text is the result. */
  method SubRender(w: ScriptWriter, env: Env, v: Value) returns (text: string)
    ensures text == RenderSpec.SubRender(w.Config(), env, v)
    decreases VSize(v), 7
  {
    var sub := new ScriptWriter.CopyOf(w);
    Write(sub, env, v);
    text := sub.out;
  }

  /** The OnRender of each kind of node. */
  method OnRender(w: ScriptWriter, env: Env, it: Item)
    requires w.Valid()
    modifies w
    ensures w.Valid() && w.Config() == old(w.Config())
    ensures w.State() == RenderSpec.OnRender(w.Config(), env, old(w.State()), it)
    decreases ISize(it), 4
  {
    RenderSpec.PartSizes(it);
    match it.kind
    case Plain =>
    case Set(_, _, flavor, _) =>
      if flavor.Element? {
        OnRenderElement(w, env, it);
      } else {
        OnRenderSet(w, env, it);
      }
    case Wrapper(_, _, _, _, _, _, _) =>
      OnRenderWrapper(w, env, it);
    case If(t, x, y) =>
      Write(w, env, Winner(env, t, x, y));
    case Compressible(full, compressed) =>
      if w.compress {
        Write(w, env, compressed);
      } else {
        Write(w, env, full);
      }
    case Function(_, _, _, _) =>
      OnRenderFunction(w, env, it);
    case JsIf(_, _, _) =>
      OnRenderIf(w, env, it);
    case Quote(_, _) =>
      OnRenderQuote(w, env, it);
    case Property(_, _) =>
      OnRenderProperty(w, env, it);
    case Text(_) =>
      OnRenderText(w, env, it);
    case Attribute(_, _) =>
      OnRenderAttribute(w, env, it);
    case CData(_) =>
      OnRenderCData(w, env, it);
  }

  /** JsQuote.OnRender: the text is rendered by a writer of its own, escaped, and written in quotes. */
  method OnRenderQuote(w: ScriptWriter, env: Env, it: Item)
    requires it.kind.Quote? && w.Valid()
    modifies w
    ensures w.Valid() && w.Config() == old(w.Config())
    ensures w.State() == RenderSpec.OnRenderQuote(w.Config(), env, old(w.State()), it)
    decreases ISize(it), 3
  {
    RenderSpec.PartSizes(it);
    BreakIf(w, Layout(it) == Block);
    var q := JsQuoting.QuoteChar(it.kind.doubleQuotes);
    var sub := SubRender(w, env, it.kind.text);
    w.Write(JsQuoting.Literal(q, env.platformNewLine, sub));
  }

  /** JsProperty.OnRender: the name, ": " and the value. */
  method OnRenderProperty(w: ScriptWriter, env: Env, it: Item)
    requires it.kind.Property? && w.Valid()
    modifies w
    ensures w.Valid() && w.Config() == old(w.Config())
    ensures w.State() == RenderSpec.OnRenderProperty(w.Config(), env, old(w.State()), it)
    decreases ISize(it), 3
  {
    RenderSpec.PartSizes(it);
    BreakIf(w, Layout(it) == Block);
    Write(w, env, it.kind.propertyName);
    w.Write(": ");
    Write(w, env, it.kind.value);
  }

  /** XsText.OnRender: the text is rendered by a writer of its own and written encoded. */
  method OnRenderText(w: ScriptWriter, env: Env, it: Item)
    requires it.kind.Text? && w.Valid()
    modifies w
    ensures w.Valid() && w.Config() == old(w.Config())
    ensures w.State() == RenderSpec.OnRenderText(w.Config(), env, old(w.State()), it)
    decreases ISize(it), 3
  {
    RenderSpec.PartSizes(it);
    BreakIf(w, Layout(it) == Block);
    var sub := SubRender(w, env, it.kind.text);
    w.Write(XmlEncoding.EncodeText(sub));
  }

  /** XsAttribute.OnRender: name="value", the value rendered by a writer of its own and encoded. */
  method OnRenderAttribute(w: ScriptWriter, env: Env, it: Item)
    requires it.kind.Attribute? && w.Valid()
    modifies w
    ensures w.Valid() && w.Config() == old(w.Config())
    ensures w.State() == RenderSpec.OnRenderAttribute(w.Config(), env, old(w.State()), it)
    decreases ISize(it), 3
  {
    RenderSpec.PartSizes(it);
    BreakIf(w, Layout(it) == Block);
    var sub := SubRender(w, env, it.kind.value);
    w.Write(env.encodeName(it.kind.name) + "=\"");
    w.Write(XmlEncoding.EncodeAttribute(env.platformNewLine, sub));
    w.Write("\"");
  }

  /** XsCData.OnRender: the data is rendered by a writer of its own and written as CDATA. */
  method OnRenderCData(w: ScriptWriter, env: Env, it: Item)
    requires it.kind.CData? && w.Valid()
    modifies w
    ensures w.Valid() && w.Config() == old(w.Config())
    ensures w.State() == RenderSpec.OnRenderCData(w.Config(), env, old(w.State()), it)
    decreases ISize(it), 3
  {
    RenderSpec.PartSizes(it);
    BreakIf(w, Layout(it) == Block);
    var sub := SubRender(w, env, it.kind.data);
    w.Write("<![CDATA[");
    w.Write(XmlEncoding.EscapeCData(sub));
    w.Write("]]>");
  }

  /**
   * ScriptSet.OnRender: a Block set with content starts on a new line; then
   * every entry of the render list is written, null entries skipped, and
   * every entry with content after the first one is preceded by the
   * separator and, in a multi-line set, by a new line unless it is a
   * multi-line node.
   */
  method OnRenderSet(w: ScriptWriter, env: Env, it: Item)
    requires it.kind.Set? && w.Valid()
    modifies w
    ensures w.Valid() && w.Config() == old(w.Config())
    ensures w.State() == RenderSpec.OnRenderSet(w.Config(), env, old(w.State()), it)
    decreases ISize(it), 1
  {
    var lay := Layout(it);
    BreakIf(w, lay == Block && ItemHasContent(env, it));
    var list := RenderList(it);
    var separator := it.kind.separator;
    ghost var st := w.Config();
    ghost var target := RenderSpec.SetLoop(st, env, w.State(), list, true, separator, lay, ISize(it));
    var first := true;
    var i := 0;
    while i < |list|
      invariant 0 <= i <= |list|
      invariant w.Valid() && w.Config() == st
      invariant RenderSpec.SetLoop(st, env, w.State(), list[i..], first, separator, lay, ISize(it)) == target
    {
      var line := list[i];
      assert list[i..][0] == line && list[i..][1..] == list[i + 1..];
      if line != Null {
        if line.Node? {
          if ItemHasContent(env, line.item) {
            if first {
              first := false;
            } else {
              w.Write(separator);
              BreakIf(w, Layout(line.item) == Inline && IsMultiLine(lay));
            }
          }
        } else {
          if first {
            first := false;
          } else {
            w.Write(separator);
            BreakIf(w, IsMultiLine(lay));
          }
        }
        Write(w, env, line);
      }
      i := i + 1;
    }
    assert list[i..] == [];
  }

  lemma {:induction false} AttributesAppend(a: seq<Value>, b: seq<Value>)
    ensures RenderSpec.Attributes(a + b) == RenderSpec.Attributes(a) + RenderSpec.Attributes(b)
    decreases |a|
  {
    if a != [] {
      assert (a + b)[0] == a[0] && (a + b)[1..] == a[1..] + b;
      AttributesAppend(a[1..], b);
    } else {
      assert a + b == b;
    }
  }

  lemma AttributesStep(items: seq<Value>, i: int)
    requires 0 <= i < |items|
    ensures RenderSpec.Attributes(items[..i + 1])
         == RenderSpec.Attributes(items[..i]) + if IsAttributeNode(items[i]) then [items[i]] else []
  {
    AttributesAppend(items[..i], [items[i]]);
    assert items[..i + 1] == items[..i] + [items[i]];
    assert RenderSpec.Attributes([items[i]]) == (if IsAttributeNode(items[i]) then [items[i]] else []) + RenderSpec.Attributes([]);
  }

  /** One more item settles both flags of the first loop of XsElement.OnRender. */
  lemma FlagsStep(items: seq<Value>, i: int)
    requires 0 <= i < |items|
    ensures (exists k :: 0 <= k < i + 1 && !IsAttributeNode(items[k]))
        <==> (exists k :: 0 <= k < i && !IsAttributeNode(items[k])) || !IsAttributeNode(items[i])
    ensures (exists k :: 0 <= k < i + 1 && IsElementNode(items[k]))
        <==> (exists k :: 0 <= k < i && IsElementNode(items[k])) || IsElementNode(items[i])
  {
  }

  /**
   * The first loop of XsElement.OnRender: the attributes in order, whether
   * some item is not an attribute, and whether some item is an element.
   */
  method Partition(items: seq<Value>) returns (attributes: seq<Value>, hasInnerNodes: bool, hasElements: bool)
    ensures attributes == RenderSpec.Attributes(items)
    ensures hasInnerNodes == RenderSpec.HasInnerNodes(items)
    ensures hasElements == RenderSpec.HasChildElement(items)
  {
    attributes := [];
    hasInnerNodes := false;
    hasElements := false;
    var i := 0;
    while i < |items|
      invariant 0 <= i <= |items|
      invariant attributes == RenderSpec.Attributes(items[..i])
      invariant hasInnerNodes <==> exists k :: 0 <= k < i && !IsAttributeNode(items[k])
      invariant hasElements <==> exists k :: 0 <= k < i && IsElementNode(items[k])
    {
      var o := items[i];
      AttributesStep(items, i);
      FlagsStep(items, i);
      if IsAttributeNode(o) {
        attributes := attributes + [o];
      } else {
        hasInnerNodes := true;
      }
      if IsElementNode(o) {
        hasElements := true;
      }
      i := i + 1;
    }
    assert items[..i] == items;
  }

  /**
   * XsElement.OnRender: the items are partitioned, a child element asks for
   * Block, the start tag and the attributes (each after a space) are
   * written, then either "/>" or the inner nodes and the end tag.
   */
  method OnRenderElement(w: ScriptWriter, env: Env, it: Item)
    requires it.kind.Set? && it.kind.setFlavor.Element? && w.Valid()
    modifies w
    ensures w.Valid() && w.Config() == old(w.Config())
    ensures w.State() == RenderSpec.OnRenderElement(w.Config(), env, old(w.State()), it)
    decreases ISize(it), 3
  {
    var items := it.kind.items;
    var attributes, hasInnerNodes, hasElements := Partition(items);
    var it1 := if hasElements then SetLayout(it, Block, true) else it;
    assert it1 == RenderSpec.ElementForRender(it);
    var name := env.encodeName(it.kind.setFlavor.name);
    BreakIf(w, Layout(it1) == Block && ItemHasContent(env, it1));
    w.Write("<" + name);
    SetItemSize(it);
    WriteAttributes(w, env, attributes, ISize(it));
    if hasInnerNodes {
      ElementInner(w, env, it1, name);
    } else {
      w.Write("/>");
    }
  }

  /** The second loop of XsElement.OnRender: each attribute after a space. */
  method WriteAttributes(w: ScriptWriter, env: Env, attributes: seq<Value>, bound: nat)
    requires w.Valid() && forall x :: x in attributes ==> VSize(x) < bound
    modifies w
    ensures w.Valid() && w.Config() == old(w.Config())
    ensures w.State() == RenderSpec.AttrLoop(w.Config(), env, old(w.State()), attributes, bound)
    decreases bound, 0
  {
    ghost var st := w.Config();
    ghost var target := RenderSpec.AttrLoop(st, env, w.State(), attributes, bound);
    var i := 0;
    while i < |attributes|
      invariant 0 <= i <= |attributes|
      invariant w.Valid() && w.Config() == st
      invariant RenderSpec.AttrLoop(st, env, w.State(), attributes[i..], bound) == target
    {
      assert attributes[i..][0] == attributes[i] && attributes[i..][1..] == attributes[i + 1..];
      w.Write(" ");
      Write(w, env, attributes[i]);
      i := i + 1;
    }
    assert attributes[i..] == [];
  }

  /** The inner part of an element: ">", the items one level deeper, and the end tag. */
  method ElementInner(w: ScriptWriter, env: Env, it: Item, name: string)
    requires it.kind.Set? && w.Valid()
    modifies w
    ensures w.Valid() && w.Config() == old(w.Config())
    ensures w.State() == RenderSpec.ElementInner(w.Config(), env, old(w.State()), it, name)
    decreases ISize(it), 2
  {
    var lay := Layout(it);
    w.Write(">");
    BreakIf(w, lay == InlineBlock);
    w.BeginIndent(1);
    OnRenderSet(w, env, it);
    w.EndIndent(1);
    BreakIf(w, IsMultiLine(lay));
    w.Write("</" + name + ">");
  }

  /**
   * ScriptWrapper.OnRender: the content is offered ContentLayout; Before,
   * the content InternalIndents levels deeper, and After are written.
   */
  method OnRenderWrapper(w: ScriptWriter, env: Env, it: Item)
    requires it.kind.Wrapper? && w.Valid()
    modifies w
    ensures w.Valid() && w.Config() == old(w.Config())
    ensures w.State() == RenderSpec.OnRenderWrapper(w.Config(), env, old(w.State()), it)
    decreases ISize(it), 1
  {
    RenderSpec.PartSizes(it);
    var k := it.kind;
    var lay := Layout(it);
    var content := OfferLayout(k.content, k.contentLayout);
    var shows := HasContent(env, content);
    if k.before != Null {
      BreakIf(w, lay == Block && shows);
      Write(w, env, k.before);
    }
    w.BeginIndent(k.internalIndents);
    Write(w, env, content);
    w.EndIndent(k.internalIndents);
    if k.after != Null {
      BreakIf(w, IsMultiLine(lay) && shows);
      Write(w, env, k.after);
    }
  }

  /** JsFunction.OnRender: keyword, parameters one level deeper, a space and the block. */
  method OnRenderFunction(w: ScriptWriter, env: Env, it: Item)
    requires it.kind.Function? && w.Valid()
    modifies w
    ensures w.Valid() && w.Config() == old(w.Config())
    ensures w.State() == RenderSpec.OnRenderFunction(w.Config(), env, old(w.State()), it)
    decreases ISize(it), 1
  {
    RenderSpec.PartSizes(it);
    var block := FunctionBlock(it.kind);
    BreakIf(w, Layout(it) == Block);
    w.Write(RenderSpec.FunctionKeyword(it.kind.name));
    w.BeginIndent(1);
    Write(w, env, Node(FunctionParameters(it.kind)));
    w.EndIndent(1);
    w.Write(" ");
    Write(w, env, Node(block));
  }

  /** JsIf.OnRender: "if (", the condition one level deeper, ") ", the true block, and the else part when it has content. */
  method OnRenderIf(w: ScriptWriter, env: Env, it: Item)
    requires it.kind.JsIf? && w.Valid()
    modifies w
    ensures w.Valid() && w.Config() == old(w.Config())
    ensures w.State() == RenderSpec.OnRenderIf(w.Config(), env, old(w.State()), it)
    decreases ISize(it), 1
  {
    RenderSpec.PartSizes(it);
    var k := it.kind;
    BreakIf(w, Layout(it) == Block);
    w.Write("if (");
    w.BeginIndent(1);
    Write(w, env, k.condition);
    w.EndIndent(1);
    w.Write(") ");
    Write(w, env, Node(k.trueBlock));
    if k.falseBlock.Some? && ItemHasContent(env, k.falseBlock.value) {
      w.Write(" else ");
      Write(w, env, Node(k.falseBlock.value));
    }
  }

  /** Sb.Render(o, indentations): a new writer at the given level writes the object; its text is the result. */
  method RenderAt(env: Env, v: Value, indentations: int) returns (text: string)
    ensures text == RenderSpec.RenderAt(env, v, indentations)
    ensures !HasContent(env, v) ==> text == ""
  {
    var w := new ScriptWriter(env);
    w.SetIndentLevel(indentations);
    Write(w, env, v);
    text := w.out;
  }
}
