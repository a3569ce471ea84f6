/**
 * The objects a script is built from.  A script item is a tree of values:
 * null, strings, other .NET scalars (numbers, booleans, anything formatted
 * through the writer's format provider), object[] arrays and script items.
 * Each script item carries its stored layout, its extra indentation and the
 * data of its own kind of node.
 */
module Values {
  import opened Wrappers
  import opened Layouts
  import Strings

  /** A .NET object that is neither a string, an array nor a script item. */
  datatype Scalar = Number(n: int) | Boolean(b: bool) | Other(id: nat)

  datatype Value =
    | Null
    | Str(s: string)
    | Scalar(x: Scalar)
    | Arr(elems: seq<Value>)
    | Node(item: Item)

  /** A ScriptItem: its layout field, its Indents and what kind of node it is. */
  datatype Item = Item(stored: StoredLayout, indents: nat, kind: Kind)

  /**
   * The ScriptSet subclasses other code tells apart: JsList (the parameter
   * list a JsFunction reads), JsPropertyList and XsElement.
   */
  datatype SetFlavor = PlainSet | JsListSet | PropertyList | Element(name: string)

  /**
   * The ScriptWrapper subclasses other code tells apart: JsBlock (JsIf),
   * JsObject (JsPropertyList) and JsParameters with its ListLayout field.
   */
  datatype WrapperFlavor = PlainWrapper | BlockWrapper | ObjectLiteral | Parameters(listLayout: ScriptLayout)

  datatype Kind =
      /** A bare ScriptItem: its Rendering event has no subscribers here. */
    | Plain
      /** ScriptSet and its configured subclasses (Script, ScriptLine, JsList, JsPropertyList, XsElement). */
    | Set(defaultLayout: ConcreteLayout, separator: string, setFlavor: SetFlavor, items: seq<Value>)
      /** ScriptWrapper and ScriptSetWrapper (JsBlock, JsObject, JsParameters). */
    | Wrapper(defaultLayout: ConcreteLayout, before: Value, content: Value, after: Value,
              contentLayout: ScriptLayout, internalIndents: nat, wrapperFlavor: WrapperFlavor)
    | If(test: Value, trueValue: Value, falseValue: Value)
    | Compressible(full: Value, compressed: Value)
      /** JsFunction; the parameters and the block are created on first use when unset. */
    | Function(name: string, parameters: Option<Item>, block: Option<Item>, blockLayout: ScriptLayout)
      /** JsIf after Initialise: the true block always exists, the false block only when given. */
    | JsIf(condition: Value, trueBlock: Item, falseBlock: Option<Item>)
    | Quote(text: Value, doubleQuotes: bool)
    | Property(propertyName: Value, value: Value)
    | Text(text: Value)
    | Attribute(name: string, value: Value)
    | CData(data: Value)

  // ---------------------------------------------------------------------------
  // Sizes.  They ignore layouts, so a layout change keeps the size of a node;
  // the rendering functions use them as their termination measure.  An unset
  // JsFunction part weighs more than the part the getter creates for it.

  function VSize(v: Value): (r: nat)
    ensures r >= 1
  {
    match v
    case Arr(es) => 1 + SSize(es)
    case Node(it) => 1 + ISize(it)
    case _ => 1
  }

  function SSize(s: seq<Value>): nat
  {
    if s == [] then 0 else VSize(s[0]) + SSize(s[1..])
  }

  function ISize(it: Item): nat
  {
    1 + KSize(it.kind)
  }

  function OSize(o: Option<Item>): nat
  {
    match o
    case None => 40
    case Some(it) => 1 + ISize(it)
  }

  function KSize(k: Kind): nat
  {
    match k
    case Plain => 1
    case Set(_, _, _, items) => 4 + SSize(items)
    case Wrapper(_, b, c, a, _, _, _) => 1 + VSize(b) + VSize(c) + VSize(a)
    case If(t, x, y) => 1 + VSize(t) + VSize(x) + VSize(y)
    case Compressible(f, c) => 1 + VSize(f) + VSize(c)
    case Function(_, p, b, _) => 1 + OSize(p) + OSize(b)
    case JsIf(c, t, f) => 1 + VSize(c) + ISize(t) + OSize(f)
    case Quote(t, _) => 1 + VSize(t)
    case Property(n, v) => 1 + VSize(n) + VSize(v)
    case Text(t) => 1 + VSize(t)
    case Attribute(_, v) => 1 + VSize(v)
    case CData(d) => 1 + VSize(d)
  }

  lemma SetItemSize(it: Item)
    requires it.kind.Set?
    ensures ISize(it) == 5 + SSize(it.kind.items)
  {
  }

  lemma WrapperItemSize(it: Item)
    requires it.kind.Wrapper?
    ensures ISize(it) == 2 + VSize(it.kind.before) + VSize(it.kind.content) + VSize(it.kind.after)
  {
  }

  /** Every element of a sequence is smaller than the sequence. */
  lemma {:induction false} ElementSize(s: seq<Value>, k: int)
    requires 0 <= k < |s|
    ensures VSize(s[k]) <= SSize(s)
    decreases |s|
  {
    if k > 0 {
      ElementSize(s[1..], k - 1);
    }
  }

  lemma {:induction false} SSizeAppend(a: seq<Value>, b: seq<Value>)
    ensures SSize(a + b) == SSize(a) + SSize(b)
    decreases |a|
  {
    if a == [] {
      assert a + b == b;
    } else {
      assert (a + b)[1..] == a[1..] + b;
      SSizeAppend(a[1..], b);
    }
  }

  // ---------------------------------------------------------------------------
  // Layout of a node.

  /** DefaultLayout: Inline unless the subclass says otherwise. */
  function DefaultLayout(k: Kind): ConcreteLayout
  {
    match k
    case Set(d, _, _, _) => d
    case Wrapper(d, _, _, _, _, _, _) => d
    case _ => Inline
  }

  /** The Layout getter of a node. */
  function Layout(it: Item): (r: ConcreteLayout)
    ensures IsConcrete(it.stored) ==> r == it.stored
    ensures !IsConcrete(it.stored) ==> r == DefaultLayout(it.kind)
  {
    Effective(it.stored, DefaultLayout(it.kind))
  }

  /**
   * OnLayoutChanged of each subclass.  ScriptWrapper hands the new layout on
   * to its ContentLayout through the cascade table and JsParameters does the
   * same for its ListLayout; JsFunction copies it verbatim into BlockLayout.
   */
  function LayoutChanged(k: Kind, l: StoredLayout): (r: Kind)
    ensures KSize(r) == KSize(k)
    ensures r.Wrapper? <==> k.Wrapper?
    ensures r.Set? <==> k.Set?
    ensures k.Function? ==> r == k.(blockLayout := l)
    ensures !k.Wrapper? && !k.Function? ==> r == k
  {
    match k
    case Wrapper(d, b, c, a, cl, n, f) =>
      var f' := match f
                case Parameters(ll) => Parameters(Cascade(ll, l))
                case _ => f;
      Wrapper(d, b, c, a, Cascade(cl, l), n, f')
    case Function(name, p, bl, _) => Function(name, p, bl, l)
    case _ => k
  }

  /**
   * TrySetLayout(layout, onlyIfNotAlreadyEstablished) on a node: the layout
   * field changes as TrySet says, and when it changes the node's
   * OnLayoutChanged runs once with the new value.
   */
  function SetLayout(it: Item, layout: ScriptLayout, onlyIfNotEstablished: bool): (r: Item)
    ensures r.stored == TrySet(it.stored, layout, onlyIfNotEstablished).stored
    ensures r.indents == it.indents
    ensures ISize(r) == ISize(it)
    ensures !TrySet(it.stored, layout, onlyIfNotEstablished).fired ==> r == it
    ensures TrySet(it.stored, layout, onlyIfNotEstablished).fired ==> r.kind == LayoutChanged(it.kind, r.stored)
  {
    var c := TrySet(it.stored, layout, onlyIfNotEstablished);
    if c.fired then Item(c.stored, it.indents, LayoutChanged(it.kind, c.stored)) else it
  }

  /** The ScriptItem(layout) constructor: TrySetLayout(layout, false) on a fresh node. */
  function Construct(layout: ScriptLayout, indents: nat, k: Kind): (r: Item)
    ensures IsEstablished(r.stored) <==> layout != ScriptLayout.None && layout != NotAlreadyEstablished
    ensures layout != ScriptLayout.None ==> r.stored == layout
    ensures r.indents == indents
  {
    SetLayout(Item(NotAlreadyEstablished, indents, k), layout, false)
  }

  /** ObjectTrySetLayout / Sb.TrySetLayout: a first-wins request, ignored for anything but a node. */
  function OfferLayout(v: Value, layout: ScriptLayout): (r: Value)
    ensures VSize(r) == VSize(v)
    ensures r.Node? <==> v.Node?
    ensures !v.Node? ==> r == v
  {
    match v
    case Node(it) => Node(SetLayout(it, layout, true))
    case _ => v
  }

  // ---------------------------------------------------------------------------
  // The host: what the model leaves to the .NET platform.

  /**
   * Environment.NewLine, XmlConvert.EncodeName, Convert.ToBoolean (None when
   * it throws) and the default ScriptFormatProvider's formatting of scalars.
   */
  datatype Env = Env(
    platformNewLine: Strings.PlatformNewLine,
    encodeName: string -> string,
    toBoolean: Value -> Option<bool>,
    defaultFormat: Scalar -> string)

  // ---------------------------------------------------------------------------
  // Render content and ScriptIf results.

  /** ObjectHasRenderContent (Sb.HasRenderContent). */
  function HasContent(env: Env, v: Value): bool
    decreases VSize(v), 1
  {
    match v
    case Null => false
    case Str(s) => s != ""
    case Node(it) => ItemHasContent(env, it)
    case _ => true
  }

  /** The HasRenderContent property of each kind of node. */
  function ItemHasContent(env: Env, it: Item): bool
    decreases ISize(it), 1
  {
    match it.kind
    case Set(_, _, _, items) => AnyContent(env, items)
    case Wrapper(_, b, c, a, _, _, _) =>
      assert ISize(it) == 2 + VSize(b) + VSize(c) + VSize(a);
      HasContent(env, b) || HasContent(env, a) || HasContent(env, c)
    case If(t, x, y) =>
      assert ISize(it) == 2 + VSize(t) + VSize(x) + VSize(y);
      HasContent(env, Winner(env, t, x, y))
    case Property(n, _) => HasContent(env, n)
    case _ => true
  }

  /** HasRenderContentInSet: some raw item has content (nested arrays are not looked into). */
  function AnyContent(env: Env, items: seq<Value>): bool
    decreases SSize(items), 2
  {
    if items == [] then false else HasContent(env, items[0]) || AnyContent(env, items[1..])
  }

  /** ScriptIf.ObjectScriptIfResult. */
  function IfResult(env: Env, v: Value): bool
    decreases VSize(v), 3
  {
    match v
    case Null => false
    case Node(it) => ItemIfResult(env, it)
    case _ =>
      match env.toBoolean(v)
      case Some(b) => b
      case None => false
  }

  /** The ScriptIfResult property of each kind of node. */
  function ItemIfResult(env: Env, it: Item): bool
    decreases ISize(it), 2
  {
    match it.kind
    case Wrapper(_, b, c, a, _, _, _) =>
      assert ISize(it) == 2 + VSize(b) + VSize(c) + VSize(a);
      IfResult(env, c)
    case _ => ItemHasContent(env, it)
  }

  /** ScriptIf.Winner: the true value when the test holds, the false value otherwise. */
  function Winner(env: Env, test: Value, trueValue: Value, falseValue: Value): (r: Value)
    ensures r == trueValue || r == falseValue
    decreases VSize(test) + 1, 0
  {
    if IfResult(env, test) then trueValue else falseValue
  }

  /** HasRenderContentInSet holds exactly when some raw item has content. */
  lemma {:induction false} AnyContentIsSome(env: Env, items: seq<Value>)
    ensures AnyContent(env, items) <==> exists k :: 0 <= k < |items| && HasContent(env, items[k])
    decreases |items|
  {
    if items != [] {
      AnyContentIsSome(env, items[1..]);
      if AnyContent(env, items[1..]) {
        var k :| 0 <= k < |items[1..]| && HasContent(env, items[1..][k]);
        assert HasContent(env, items[k + 1]);
      }
      forall k | 1 <= k < |items| && HasContent(env, items[k])
        ensures AnyContent(env, items[1..])
      {
        assert items[1..][k - 1] == items[k];
      }
    }
  }

  /** Whether a node has content never depends on its layout. */
  lemma LayoutKeepsContent(env: Env, it: Item, layout: ScriptLayout, only: bool)
    ensures ItemHasContent(env, SetLayout(it, layout, only)) == ItemHasContent(env, it)
    ensures ItemIfResult(env, SetLayout(it, layout, only)) == ItemIfResult(env, it)
  {
  }

  lemma OfferKeepsContent(env: Env, v: Value, layout: ScriptLayout)
    ensures HasContent(env, OfferLayout(v, layout)) == HasContent(env, v)
  {
    if v.Node? {
      LayoutKeepsContent(env, v.item, layout, true);
    }
  }

  /** A first-wins offer to an established node changes nothing. */
  lemma OfferToEstablished(v: Value, layout: ScriptLayout)
    requires v.Node? && IsEstablished(v.item.stored)
    ensures OfferLayout(v, layout) == v
  {
    FirstWins(v.item.stored, layout);
  }

  /** A wrapper's ScriptIfResult looks only at its content, never at Before or After. */
  lemma WrapperIfResultIgnoresBrackets(env: Env, it: Item, before: Value, after: Value)
    requires it.kind.Wrapper?
    ensures ItemIfResult(env, it.(kind := it.kind.(before := before, after := after))) == ItemIfResult(env, it)
  {
  }

  /** Non-empty brackets alone make a wrapper visible, whatever its content. */
  lemma BracketsAreContent(env: Env, it: Item)
    requires it.kind.Wrapper? && it.kind.before.Str? && it.kind.before.s != ""
    ensures ItemHasContent(env, it)
  {
  }

  /** A ScriptIf has content exactly when its winner has, and its ScriptIfResult is that content. */
  lemma IfContentIsWinnerContent(env: Env, it: Item)
    requires it.kind.If?
    ensures ItemHasContent(env, it) == HasContent(env, Winner(env, it.kind.test, it.kind.trueValue, it.kind.falseValue))
    ensures ItemIfResult(env, it) == ItemHasContent(env, it)
  {
  }

  /** A null test, or a test Convert.ToBoolean rejects, selects the false value. */
  lemma FailedTestSelectsFalse(env: Env, test: Value, x: Value, y: Value)
    requires test == Null || (!test.Node? && env.toBoolean(test).None?)
    ensures Winner(env, test, x, y) == y
  {
  }

  /** A node test selects the true value exactly when its own ScriptIfResult holds. */
  lemma NodeTestSelects(env: Env, it: Item, x: Value, y: Value)
    requires x != y
    ensures Winner(env, Node(it), x, y) == x <==> ItemIfResult(env, it)
  {
  }


  // ---------------------------------------------------------------------------
  // Render lists: what a set hands to its render loop.

  /** ScriptSet.AddToRenderList over the items: object[] entries are spliced in, recursively, in order. */
  function Flatten(s: seq<Value>): (r: seq<Value>)
    ensures forall x :: x in r ==> !x.Arr?
    ensures forall x :: x in r ==> VSize(x) <= SSize(s)
    decreases SSize(s)
  {
    if s == [] then []
    else
      assert SSize(s) == VSize(s[0]) + SSize(s[1..]);
      (if s[0].Arr? then Flatten(s[0].elems) else [s[0]]) + Flatten(s[1..])
  }

  /** The JsPropertyList of a JsObject's content, if its content is one. */
  function PropertiesOf(content: Value): Option<seq<Value>>
  {
    match content
    case Node(c) =>
      if c.kind.Set? && c.kind.setFlavor == PropertyList then Some(c.kind.items) else Option.None
    case _ => Option.None
  }

  /**
   * JsPropertyList.AddToRenderList over the items: a JsObject contributes
   * its properties and a nested property list its items, recursively;
   * arrays are spliced as in a plain set.
   */
  function PropFlatten(s: seq<Value>): (r: seq<Value>)
    ensures forall x :: x in r ==> VSize(x) <= SSize(s)
    decreases SSize(s), 1
  {
    if s == [] then [] else PropEntry(s[0]) + PropFlatten(s[1..])
  }

  function PropEntry(v: Value): (r: seq<Value>)
    ensures forall x :: x in r ==> VSize(x) <= VSize(v)
    decreases VSize(v), 0
  {
    match v
    case Arr(es) => PropFlatten(es)
    case Node(it) =>
      (match it.kind
       case Wrapper(_, _, c, _, _, _, ObjectLiteral) =>
         WrapperItemSize(it);
         (match PropertiesOf(c)
          case Some(items) =>
            SetItemSize(c.item);
            PropFlatten(items)
          case None => [])
       case Set(_, _, PropertyList, items) =>
         SetItemSize(it);
         PropFlatten(items)
       case _ => [v])
    case _ => [v]
  }

  /** Flattening a concatenation flattens each part: the order of the items is kept. */
  lemma {:induction false} FlattenAppend(a: seq<Value>, b: seq<Value>)
    ensures Flatten(a + b) == Flatten(a) + Flatten(b)
    decreases |a|
  {
    if a == [] {
      assert a + b == b;
    } else {
      assert (a + b)[0] == a[0];
      assert (a + b)[1..] == a[1..] + b;
      SSizeAppend(a, b);
      FlattenAppend(a[1..], b);
    }
  }

  /** A flattened list has no array left to splice: flattening it again changes nothing. */
  lemma {:induction false} FlattenIsIdempotent(s: seq<Value>)
    ensures Flatten(Flatten(s)) == Flatten(s)
    decreases SSize(s)
  {
    if s != [] {
      assert SSize(s) == VSize(s[0]) + SSize(s[1..]);
      var head := if s[0].Arr? then Flatten(s[0].elems) else [s[0]];
      FlattenAppend(head, Flatten(s[1..]));
      FlattenIsIdempotent(s[1..]);
      if s[0].Arr? {
        FlattenIsIdempotent(s[0].elems);
      } else {
        assert [s[0]][1..] == [];
      }
    }
  }

  /** The property-list render list of a concatenation is the concatenation of the render lists. */
  lemma {:induction false} PropFlattenAppend(a: seq<Value>, b: seq<Value>)
    ensures PropFlatten(a + b) == PropFlatten(a) + PropFlatten(b)
    decreases |a|
  {
    if a == [] {
      assert a + b == b;
    } else {
      assert (a + b)[0] == a[0];
      assert (a + b)[1..] == a[1..] + b;
      SSizeAppend(a, b);
      PropFlattenAppend(a[1..], b);
    }
  }

  predicate IsAttributeNode(v: Value)
  {
    v.Node? && v.item.kind.Attribute?
  }

  predicate IsElementNode(v: Value)
  {
    v.Node? && v.item.kind.Set? && v.item.kind.setFlavor.Element?
  }

  /** The classes that declare IXmlRenderer: XsElement, XsAttribute and XsCData. */
  predicate IsXmlRendererAsWritten(v: Value)
  {
    v.Node? && (IsElementNode(v) || v.item.kind.Attribute? || v.item.kind.CData?)
  }

  /** XsText also renders XML itself, so it is taken as an XML node too. */
  predicate IsXmlRenderer(v: Value)
  {
    IsXmlRendererAsWritten(v) || (v.Node? && v.item.kind.Text?)
  }

  /** A new XsText around an object, as Xs.Text makes it. */
  function TextItem(v: Value): (r: Item)
    ensures r.kind == Text(v) && !IsEstablished(r.stored) && r.indents == 0
    ensures ISize(r) == 2 + VSize(v)
  {
    Item(NotAlreadyEstablished, 0, Text(v))
  }

  /**
   * XsElement.AddToRenderList for one raw item: attributes are left out,
   * XML nodes go in as they are and anything else (null and object[]
   * included) is wrapped in a new XsText.  The flag says whether XsText
   * itself counts as an XML node.
   */
  function ElementEntry(textIsXml: bool, v: Value): (r: seq<Value>)
    ensures IsAttributeNode(v) <==> r == []
    ensures forall x :: x in r ==> !IsAttributeNode(x) && VSize(x) <= VSize(v) + 3
  {
    if IsAttributeNode(v) then []
    else if IsXmlRendererAsWritten(v) || (textIsXml && IsXmlRenderer(v)) then [v]
    else [Node(TextItem(v))]
  }

  function ElementListWith(textIsXml: bool, s: seq<Value>): (r: seq<Value>)
    ensures forall x :: x in r ==> !IsAttributeNode(x) && VSize(x) <= SSize(s) + 3
    decreases |s|
  {
    if s == [] then [] else ElementEntry(textIsXml, s[0]) + ElementListWith(textIsXml, s[1..])
  }

  /** The render list of an element as the source builds it: an XsText child is wrapped in a second XsText. */
  function ElementListAsWritten(s: seq<Value>): (r: seq<Value>)
    ensures forall x :: x in r ==> !IsAttributeNode(x)
  {
    ElementListWith(false, s)
  }

  /** The render list of an element with XsText taken as an XML node. */
  function ElementList(s: seq<Value>): (r: seq<Value>)
    ensures forall x :: x in r ==> !IsAttributeNode(x)
  {
    ElementListWith(true, s)
  }

  /** An XsText child: wrapped in a second XsText as the source builds the list, kept as it is when taken as an XML node. */
  lemma TextChildList(v: Value)
    requires v.Node? && v.item.kind.Text?
    ensures ElementListAsWritten([v]) == [Node(TextItem(v))]
    ensures ElementList([v]) == [v]
  {
    assert [v][0] == v && [v][1..] == [];
    assert ElementEntry(false, v) == [Node(TextItem(v))];
    assert ElementEntry(true, v) == [v];
    assert ElementListWith(false, []) == [] && ElementListWith(true, []) == [];
    assert ElementListWith(false, [v]) == ElementEntry(false, v) + ElementListWith(false, []);
    assert ElementListWith(true, [v]) == ElementEntry(true, v) + ElementListWith(true, []);
  }

  /** A list without XsText children is the same whether or not XsText is taken as an XML node. */
  lemma {:induction false} ElementListsAgree(s: seq<Value>)
    requires forall x :: x in s ==> !(x.Node? && x.item.kind.Text?)
    ensures ElementListAsWritten(s) == ElementList(s)
    decreases |s|
  {
    if s != [] {
      assert s[0] in s;
      assert forall x :: x in s[1..] ==> x in s;
      ElementListsAgree(s[1..]);
    }
  }

  /**
   * An element renders an XsText child once: its render list holds the
   * child itself, where the list as the source builds it holds the child
   * wrapped in a second XsText.
   */
  lemma ElementRendersTextChildOnce(layout: ScriptLayout, name: string, v: Value)
    requires v.Node? && v.item.kind.Text?
    ensures RenderList(ElementNode(layout, name, [v])) == [v]
    ensures ElementListAsWritten(ElementNode(layout, name, [v]).kind.items) == [Node(TextItem(v))]
  {
    TextChildList(v);
  }

  /** GetRenderList of a set, by the subclass's AddToRenderList. */
  function RenderList(it: Item): (r: seq<Value>)
    requires it.kind.Set?
    ensures forall x :: x in r ==> VSize(x) < ISize(it)
    ensures it.kind.setFlavor.Element? ==> forall x :: x in r ==> !IsAttributeNode(x)
  {
    match it.kind.setFlavor
    case Element(_) => ElementList(it.kind.items)
    case PropertyList => PropFlatten(it.kind.items)
    case _ => Flatten(it.kind.items)
  }

  // ---------------------------------------------------------------------------
  // AllItems, the DEBUG check against a set that contains itself.

  /** AllItems: every node among the raw items, each followed by the AllItems of a nested set. */
  function AllItems(s: seq<Value>): (r: seq<Item>)
    ensures forall x :: x in r ==> ISize(x) < SSize(s)
    decreases SSize(s)
  {
    if s == [] then []
    else
      assert SSize(s) == VSize(s[0]) + SSize(s[1..]);
      var here := match s[0]
                  case Node(it) =>
                    if it.kind.Set? then
                      SetItemSize(it);
                      [it] + AllItems(it.kind.items)
                    else [it]
                  case _ => [];
      here + AllItems(s[1..])
  }

  /** A set never occurs among its own AllItems, so the DEBUG Assert of a set built from values never throws. */
  lemma SetNeverContainsItself(it: Item)
    requires it.kind.Set?
    ensures it !in AllItems(it.kind.items)
  {
    SetItemSize(it);
  }

  // ---------------------------------------------------------------------------
  // The configured subclasses, as their constructors leave them.

  /** ScriptCompressible(full, compressed): both forms stored as given, no layout established. */
  function CompressibleNode(full: Value, compressed: Value): (r: Item)
    ensures r.kind.Compressible? && r.kind.full == full && r.kind.compressed == compressed
    ensures !IsEstablished(r.stored) && Layout(r) == Inline
  {
    Item(NotAlreadyEstablished, 0, Compressible(full, compressed))
  }

  /** Script: a set laid out as a Block by default, with no separator. */
  function ScriptNode(items: seq<Value>): (r: Item)
    ensures Layout(r) == Block && r.kind == Set(Block, "", PlainSet, items)
  {
    Item(NotAlreadyEstablished, 0, Set(Block, "", PlainSet, items))
  }

  /** ScriptIndent: a Script with one extra indent. */
  function IndentNode(items: seq<Value>): (r: Item)
    ensures Layout(r) == Block && r.indents == 1
  {
    ScriptNode(items).(indents := 1)
  }

  /** ScriptLine: a plain inline set. */
  function LineNode(items: seq<Value>): (r: Item)
    ensures Layout(r) == Inline && r.kind.Set? && r.kind.separator == ""
  {
    Item(NotAlreadyEstablished, 0, Set(Inline, "", PlainSet, items))
  }

  /** JsList: an inline set separated by ", ". */
  function JsListNode(items: seq<Value>): (r: Item)
    ensures Layout(r) == Inline && r.kind == Set(Inline, ", ", JsListSet, items)
  {
    Item(NotAlreadyEstablished, 0, Set(Inline, ", ", JsListSet, items))
  }

  /** JsPropertyList: a JsList whose render list opens up objects and nested lists. */
  function PropertyListNode(items: seq<Value>): (r: Item)
    ensures Layout(r) == Inline && r.kind == Set(Inline, ", ", PropertyList, items)
  {
    Item(NotAlreadyEstablished, 0, Set(Inline, ", ", PropertyList, items))
  }

  /** XsElement: an inline set with the element name. */
  function ElementNode(layout: ScriptLayout, name: string, items: seq<Value>): (r: Item)
    ensures r.kind == Set(Inline, "", Element(name), items)
  {
    Construct(layout, 0, Set(Inline, "", Element(name), items))
  }

  /** ScriptWrapper(layout, before, content, after): one internal indent, no content layout yet. */
  function WrapperNode(layout: ScriptLayout, before: Value, content: Value, after: Value): (r: Item)
    ensures r.kind.Wrapper? && r.kind.internalIndents == 1
    ensures r.kind.contentLayout == Cascade(ScriptLayout.None, layout)
  {
    Construct(layout, 0, Wrapper(Inline, before, content, after, ScriptLayout.None, 1, PlainWrapper))
  }

  /** JsBlock(layout, lines): braces around a Script, Block by default. */
  function BlockNode(layout: ScriptLayout, lines: seq<Value>): (r: Item)
    ensures r.kind.Wrapper? && r.kind.wrapperFlavor == BlockWrapper
    ensures r.kind.before == Str("{") && r.kind.after == Str("}") && r.kind.internalIndents == 1
    ensures r.kind.content == Node(ScriptNode(lines))
    ensures layout == ScriptLayout.None || layout == NotAlreadyEstablished ==> Layout(r) == Block
    ensures ISize(r) == 10 + SSize(lines)
  {
    var shell := Item(NotAlreadyEstablished, 0, Wrapper(Block, Str("{"), Node(ScriptNode(lines)), Str("}"), ScriptLayout.None, 1, BlockWrapper));
    SetItemSize(ScriptNode(lines));
    WrapperItemSize(shell);
    SetLayout(shell, layout, false)
  }

  /** JsObject(layout, properties): braces around a JsPropertyList. */
  function ObjectNode(layout: ScriptLayout, properties: seq<Value>): (r: Item)
    ensures r.kind.Wrapper? && r.kind.wrapperFlavor == ObjectLiteral
    ensures PropertiesOf(r.kind.content) == Some(properties)
  {
    Construct(layout, 0, Wrapper(Inline, Str("{"), Node(PropertyListNode(properties)), Str("}"), ScriptLayout.None, 1, ObjectLiteral))
  }

  /** JsParameters(layout, items): parentheses around a JsList. */
  function ParametersNode(layout: ScriptLayout, items: seq<Value>): (r: Item)
    ensures r.kind.Wrapper? && r.kind.wrapperFlavor.Parameters?
    ensures r.kind.before == Str("(") && r.kind.after == Str(")") && r.kind.internalIndents == 1
    ensures r.kind.content == Node(JsListNode(items))
    ensures r.kind.wrapperFlavor.listLayout == Cascade(ScriptLayout.None, layout)
    ensures ISize(r) == 10 + SSize(items)
  {
    var shell := Item(NotAlreadyEstablished, 0, Wrapper(Inline, Str("("), Node(JsListNode(items)), Str(")"), ScriptLayout.None, 1, Parameters(ScriptLayout.None)));
    SetItemSize(JsListNode(items));
    WrapperItemSize(shell);
    SetLayout(shell, layout, false)
  }

  /** JsFunction(layout, name, parameters, block): BlockLayout starts unestablished and takes every layout change. */
  function FunctionNode(layout: ScriptLayout, name: string, parameters: Option<Item>, block: Option<Item>): (r: Item)
    ensures r.kind.Function?
    ensures r.kind.blockLayout == if layout == ScriptLayout.None then NotAlreadyEstablished else layout
  {
    Construct(layout, 0, Function(name, parameters, block, NotAlreadyEstablished))
  }

  predicate IsBlockNode(v: Value)
  {
    v.Node? && v.item.kind.Wrapper? && v.item.kind.wrapperFlavor == BlockWrapper
  }

  /**
   * JsIf's Initialise: a JsBlock is used as the branch itself; anything else
   * is added to a new block, an InlineBlock one for the true branch and a
   * default one for the false branch.  A null false item leaves no false block.
   */
  function IfNode(layout: ScriptLayout, condition: Value, trueItem: Value, falseItem: Value): (r: Item)
    ensures r.kind.JsIf? && r.kind.condition == condition
    ensures IsBlockNode(trueItem) ==> r.kind.trueBlock == trueItem.item
    ensures !IsBlockNode(trueItem) ==> r.kind.trueBlock == BlockNode(InlineBlock, [trueItem])
    ensures falseItem == Null <==> r.kind.falseBlock.None?
    ensures IsBlockNode(falseItem) ==> r.kind.falseBlock == Some(falseItem.item)
    ensures falseItem != Null && !IsBlockNode(falseItem) ==>
              r.kind.falseBlock == Some(BlockNode(ScriptLayout.None, [falseItem]))
  {
    var t := if IsBlockNode(trueItem) then trueItem.item else BlockNode(InlineBlock, [trueItem]);
    var f := if falseItem == Null then Option.None
             else if IsBlockNode(falseItem) then Some(falseItem.item)
             else Some(BlockNode(ScriptLayout.None, [falseItem]));
    Construct(layout, 0, JsIf(condition, t, f))
  }

  /** The Parameters getter of a JsFunction: the stored parameters, or an empty list on first use. */
  function FunctionParameters(k: Kind): (r: Item)
    requires k.Function?
    ensures k.parameters.Some? ==> r == k.parameters.value
    ensures k.parameters.None? ==> r == ParametersNode(ScriptLayout.None, [])
  {
    match k.parameters
    case Some(p) => p
    case None => ParametersNode(ScriptLayout.None, [])
  }

  /** The Block getter of a JsFunction: the stored block, or an empty block laid out by BlockLayout. */
  function FunctionBlockOrDefault(k: Kind): (r: Item)
    requires k.Function?
    ensures k.block.Some? ==> r == k.block.value
    ensures k.block.None? ==> r == BlockNode(k.blockLayout, [])
  {
    match k.block
    case Some(b) => b
    case None => BlockNode(k.blockLayout, [])
  }

  /** Parameters.List.Layout: the layout of the JsList inside the parameters; anything else reads as Inline. */
  function ListLayoutOf(p: Item): ConcreteLayout
  {
    if p.kind.Wrapper? && p.kind.content.Node? && p.kind.content.item.kind.Set?
       && p.kind.content.item.kind.setFlavor in {JsListSet, PropertyList}
    then Layout(p.kind.content.item)
    else Inline
  }

  /**
   * The block a JsFunction renders: without an established BlockLayout the
   * block is offered Block when the parameter list is not Inline and
   * InlineBlock when it is; otherwise it is offered BlockLayout.  Either
   * offer is first-wins.
   */
  function FunctionBlock(k: Kind): (r: Item)
    requires k.Function?
    ensures ISize(r) == ISize(FunctionBlockOrDefault(k))
  {
    var b := FunctionBlockOrDefault(k);
    if k.blockLayout == NotAlreadyEstablished then
      SetLayout(b, if ListLayoutOf(FunctionParameters(k)) != Inline then Block else InlineBlock, true)
    else SetLayout(b, k.blockLayout, true)
  }
}
