/**
 * The mutable builders: ScriptSet, whose item list is changed in place by
 * the IList operations, and ScriptSetWrapper, which forwards them to the
 * set it wraps.  ToItem() reads a builder back as the node value the
 * render functions work on.
 */
module ScriptSets {
  import opened Wrappers
  import opened Layouts
  import opened Values

  // ---------------------------------------------------------------------------
  // List search and removal.

  /** List.IndexOf: the position of the first entry equal to x, or -1. */
  function IndexIn(s: seq<Value>, x: Value): (r: int)
    ensures -1 <= r < |s|
    ensures r < 0 <==> x !in s
    ensures r >= 0 ==> s[r] == x && x !in s[..r]
    decreases |s|
  {
    if s == [] then -1
    else if s[0] == x then 0
    else
      var k := IndexIn(s[1..], x);
      assert s == [s[0]] + s[1..];
      if k < 0 then -1
      else
        assert s[..k + 1] == [s[0]] + s[1..][..k];
        k + 1
  }

  /** List.Remove: the first entry equal to x taken out; the list as it was when there is none. */
  function RemoveFirst(s: seq<Value>, x: Value): seq<Value>
  {
    var k := IndexIn(s, x);
    if k < 0 then s else s[..k] + s[k + 1..]
  }

  /**
   * Remove takes out exactly one copy of the value when there is one: the
   * list is one shorter and has one occurrence fewer of that value and the
   * same number of every other value, so a second copy stays.
   */
  lemma RemoveFirstTakesOne(s: seq<Value>, x: Value)
    ensures x !in s ==> RemoveFirst(s, x) == s
    ensures x in s ==> |RemoveFirst(s, x)| == |s| - 1
    ensures x in s ==> multiset(RemoveFirst(s, x)) == multiset(s) - multiset{x}
    ensures x in s ==> RemoveFirst(s, x)[..IndexIn(s, x)] == s[..IndexIn(s, x)]
  {
    var k := IndexIn(s, x);
    if k >= 0 {
      assert RemoveFirst(s, x) == s[..k] + s[k + 1..];
      RemoveAtIndex(s, k);
    }
  }

  /** Taking out the entry at one position. */
  lemma RemoveAtIndex(s: seq<Value>, k: int)
    requires 0 <= k < |s|
    ensures |s[..k] + s[k + 1..]| == |s| - 1
    ensures multiset(s[..k] + s[k + 1..]) == multiset(s) - multiset{s[k]}
    ensures (s[..k] + s[k + 1..])[..k] == s[..k]
  {
    var a, b := s[..k], s[k + 1..];
    assert s == a + [s[k]] + b;
    assert multiset(s) == multiset(a) + multiset{s[k]} + multiset(b);
    assert (a + b)[..k] == a;
  }

  // ---------------------------------------------------------------------------
  // AddToRenderList: the three overrides, each appending what one raw item
  // contributes to the render list being built.

  /** What one raw item contributes to a plain set's render list. */
  lemma FlattenOne(x: Value)
    ensures Flatten([x]) == if x.Arr? then Flatten(x.elems) else [x]
  {
    assert [x][0] == x && [x][1..] == [];
    assert Flatten([]) == [];
  }

  lemma FlattenStep(dest: seq<Value>, s: seq<Value>, i: int, r: seq<Value>)
    requires 0 <= i < |s|
    ensures r == dest + Flatten(s[..i]) ==> r + Flatten([s[i]]) == dest + Flatten(s[..i + 1])
  {
    FlattenAppend(s[..i], [s[i]]);
    assert s[..i + 1] == s[..i] + [s[i]];
  }

  /** ScriptSet.AddToRenderList: an object[] has each of its elements added in turn, recursively; anything else is appended. */
  method AddToRenderList(dest: seq<Value>, o: Value) returns (r: seq<Value>)
    ensures r == dest + Flatten([o])
    decreases VSize(o), 0
  {
    FlattenOne(o);
    if o.Arr? {
      r := AddEach(dest, o.elems);
    } else {
      r := dest + [o];
    }
  }

  /** Each element of an object[] added in turn by the plain override. */
  method AddEach(dest: seq<Value>, s: seq<Value>) returns (r: seq<Value>)
    ensures r == dest + Flatten(s)
    decreases SSize(s), 1
  {
    r := dest;
    var i := 0;
    while i < |s|
      invariant 0 <= i <= |s|
      invariant r == dest + Flatten(s[..i])
    {
      ElementSize(s, i);
      FlattenStep(dest, s, i, r);
      r := AddToRenderList(r, s[i]);
      i := i + 1;
    }
    assert s[..i] == s;
  }

  /** Each item of a sequence added in turn by the property-list override. */
  method AddEachProperty(dest: seq<Value>, s: seq<Value>) returns (r: seq<Value>)
    ensures r == dest + PropFlatten(s)
    decreases SSize(s), 1
  {
    r := dest;
    var i := 0;
    while i < |s|
      invariant 0 <= i <= |s|
      invariant r == dest + PropFlatten(s[..i])
    {
      var p := s[i];
      ElementSize(s, i);
      r := AddPropertyToRenderList(r, p);
      PropFlattenAppend(s[..i], [p]);
      assert s[..i + 1] == s[..i] + [p];
      assert PropFlatten([p]) == PropEntry(p) + PropFlatten([p][1..]);
      assert [p][1..] == [];
      i := i + 1;
    }
    assert s[..i] == s;
  }

  /**
   * JsPropertyList.AddToRenderList: a JsObject adds each of its properties,
   * a nested property list each of its items, an object[] each of its
   * elements, all through this same override; anything else is appended.
   */
  method AddPropertyToRenderList(dest: seq<Value>, o: Value) returns (r: seq<Value>)
    ensures r == dest + PropEntry(o)
    decreases VSize(o), 0
  {
    match o
    case Node(it) =>
      match it.kind {
        case Wrapper(_, _, c, _, _, _, ObjectLiteral) =>
          WrapperItemSize(it);
          match PropertiesOf(c) {
            case Some(props) =>
              SetItemSize(c.item);
              r := AddEachProperty(dest, props);
            case None =>
              r := dest;
          }
        case Set(_, _, PropertyList, items) =>
          SetItemSize(it);
          r := AddEachProperty(dest, items);
        case _ =>
          r := dest + [o];
      }
    case Arr(es) =>
      r := AddEachProperty(dest, es);
    case _ =>
      r := dest + [o];
  }

  /**
   * XsElement.AddToRenderList: an attribute is skipped, an XML node is
   * appended, and anything else is appended wrapped in a new XsText.
   */
  method AddElementToRenderList(dest: seq<Value>, o: Value) returns (r: seq<Value>)
    ensures r == dest + ElementEntry(true, o)
  {
    if IsAttributeNode(o) {
      r := dest;
    } else if IsXmlRenderer(o) {
      r := dest + [o];
    } else {
      r := dest + [Node(TextItem(o))];
    }
  }

  /** The render list a set of the given flavour builds from raw items. */
  function RenderListOf(flavor: SetFlavor, s: seq<Value>): (r: seq<Value>)
    ensures forall d, sep, st, n :: r == RenderList(Item(st, n, Set(d, sep, flavor, s)))
  {
    match flavor
    case Element(_) => ElementList(s)
    case PropertyList => PropFlatten(s)
    case _ => Flatten(s)
  }

  /** Adding one more raw item extends the render list by what that item contributes. */
  lemma RenderListStep(flavor: SetFlavor, s: seq<Value>, x: Value)
    ensures flavor.Element? ==> RenderListOf(flavor, s + [x]) == RenderListOf(flavor, s) + ElementEntry(true, x)
    ensures flavor == PropertyList ==> RenderListOf(flavor, s + [x]) == RenderListOf(flavor, s) + PropEntry(x)
    ensures !flavor.Element? && flavor != PropertyList ==> RenderListOf(flavor, s + [x]) == RenderListOf(flavor, s) + Flatten([x])
  {
    match flavor
    case Element(_) =>
      ElementListAppend(s, [x]);
      assert [x][0] == x && [x][1..] == [];
      assert ElementList([x]) == ElementEntry(true, x) + ElementList([]);
    case PropertyList =>
      PropFlattenAppend(s, [x]);
      assert [x][0] == x && [x][1..] == [];
      assert PropFlatten([x]) == PropEntry(x) + PropFlatten([]);
    case _ =>
      FlattenAppend(s, [x]);
  }

  lemma {:induction false} ElementListAppend(a: seq<Value>, b: seq<Value>)
    ensures ElementList(a + b) == ElementList(a) + ElementList(b)
    decreases |a|
  {
    if a == [] {
      assert a + b == b;
    } else {
      assert (a + b)[0] == a[0] && (a + b)[1..] == a[1..] + b;
      ElementListAppend(a[1..], b);
    }
  }

  // ---------------------------------------------------------------------------
  // ScriptSet.

  class ScriptSet {
    /** Items, the raw list the IList operations change. */
    var items: seq<Value>
    /** The stored _Layout. */
    var stored: StoredLayout
    var indents: nat
    /** Seperator, written between entries. */
    var separator: string
    /** DefaultLayout of the class: Inline for a plain set, Block for a Script. */
    const defaultLayout: ConcreteLayout
    const flavor: SetFlavor
    /** The registry of RegisterItem: names already used. */
    var registry: map<string, Value>

    /** The set as a node value. */
    function ToItem(): (it: Item)
      reads this
      ensures it.kind.Set? && it.kind.items == items && it.kind.setFlavor == flavor
      ensures it.stored == stored && it.indents == indents && it.kind.separator == separator
    {
      Item(stored, indents, Set(defaultLayout, separator, flavor, items))
    }

    /** ScriptSet(layout, items): the items as given and the layout requested by the constructor. */
    constructor (layout: ScriptLayout, items: seq<Value>)
      ensures ToItem() == Construct(layout, 0, Set(Inline, "", PlainSet, items))
      ensures registry == map[]
    {
      this.items := items;
      stored := Constructed(layout);
      indents := 0;
      separator := "";
      defaultLayout := Inline;
      flavor := PlainSet;
      registry := map[];
    }

    /** Script(lines): a set whose layout defaults to Block, nothing established. */
    constructor Script(lines: seq<Value>)
      ensures ToItem() == ScriptNode(lines) && registry == map[]
    {
      items := lines;
      stored := NotAlreadyEstablished;
      indents := 0;
      separator := "";
      defaultLayout := Block;
      flavor := PlainSet;
      registry := map[];
    }

    /** Count. */
    method Count() returns (n: nat)
      ensures n == |items|
    {
      n := |items|;
    }

    /** IndexOf(item): a linear search for the first equal entry. */
    method IndexOf(x: Value) returns (i: int)
      ensures i == IndexIn(items, x)
      ensures i < 0 <==> x !in items
      ensures i >= 0 ==> items[i] == x && x !in items[..i]
    {
      i := 0;
      while i < |items| && items[i] != x
        invariant 0 <= i <= |items|
        invariant x !in items[..i]
      {
        assert items[..i + 1] == items[..i] + [items[i]];
        i := i + 1;
      }
      if i == |items| {
        assert items[..i] == items;
        i := -1;
      }
    }

    /** Contains(item). */
    method Contains(x: Value) returns (b: bool)
      ensures b <==> x in items
    {
      var i := IndexOf(x);
      b := i >= 0;
    }

    /** The indexer's getter. */
    method Get(index: int) returns (x: Value)
      requires 0 <= index < |items|
      ensures x == items[index] && x in items
    {
      x := items[index];
    }

    /** The indexer's setter: that entry replaced, nothing else changed. */
    method Put(index: int, x: Value)
      requires 0 <= index < |items|
      modifies this`items
      ensures items == old(items)[index := x]
    {
      items := items[index := x];
    }

    /** Insert(index, item): the item at that position, the entries from there on one place later. */
    method Insert(index: int, x: Value)
      requires 0 <= index <= |items|
      modifies this`items
      ensures items == old(items)[..index] + [x] + old(items)[index..]
    {
      items := items[..index] + [x] + items[index..];
    }

    /** RemoveAt(index). */
    method RemoveAt(index: int)
      requires 0 <= index < |items|
      modifies this`items
      ensures items == old(items)[..index] + old(items)[index + 1..]
    {
      items := items[..index] + items[index + 1..];
    }

    /** Remove(item): the first equal entry is taken out; the result says whether there was one. */
    method Remove(x: Value) returns (removed: bool)
      modifies this`items
      ensures removed <==> x in old(items)
      ensures items == RemoveFirst(old(items), x)
    {
      var i := IndexOf(x);
      if i >= 0 {
        RemoveAt(i);
        removed := true;
      } else {
        removed := false;
      }
    }

    /** Clear(). */
    method Clear()
      modifies this`items
      ensures items == []
    {
      items := [];
    }

    /** Add(item): appended at the end. */
    method Add(x: Value)
      modifies this`items
      ensures items == old(items) + [x]
    {
      items := items + [x];
    }

    /** AddRange(params items): appended in order. */
    method AddRange(xs: seq<Value>)
      modifies this`items
      ensures items == old(items) + xs
    {
      items := items + xs;
    }

    /** InsertRange(params items): put in front, in order. */
    method InsertRange(xs: seq<Value>)
      modifies this`items
      ensures items == xs + old(items)
    {
      items := xs + items;
    }

    /**
     * RegisterItem(name, item): false and nothing added when the name is
     * already registered; otherwise the name is registered and the item
     * appended.
     */
    method RegisterItem(name: string, x: Value) returns (added: bool)
      modifies this`items, this`registry
      ensures added <==> name !in old(registry)
      ensures added ==> registry == old(registry)[name := x] && items == old(items) + [x]
      ensures !added ==> registry == old(registry) && items == old(items)
    {
      if name in registry {
        return false;
      }
      registry := registry[name := x];
      Add(x);
      added := true;
    }

    /** TrySetLayout(layout, onlyIfNotAlreadyEstablished); a set has nothing to do when its layout changes. */
    method TrySetLayout(layout: ScriptLayout, onlyIfNotEstablished: bool)
      modifies this`stored
      ensures ToItem() == SetLayout(old(ToItem()), layout, onlyIfNotEstablished)
    {
      if (!onlyIfNotEstablished || !IsEstablished(stored)) && stored != layout && layout != ScriptLayout.None {
        stored := layout;
      }
    }

    /** HasRenderContentInSet: true as soon as some raw item has content. */
    method HasRenderContentInSet(env: Env) returns (b: bool)
      ensures b == AnyContent(env, items)
      ensures b == ItemHasContent(env, ToItem())
    {
      var i := 0;
      while i < |items|
        invariant 0 <= i <= |items|
        invariant AnyContent(env, items) == AnyContent(env, items[i..])
      {
        assert items[i..][0] == items[i] && items[i..][1..] == items[i + 1..];
        if HasContent(env, items[i]) {
          return true;
        }
        i := i + 1;
      }
      assert items[i..] == [];
      b := false;
    }

    /** GetRenderList: every raw item handed to the AddToRenderList of the set's class, in order. */
    method GetRenderList() returns (r: seq<Value>)
      ensures r == RenderList(ToItem())
    {
      r := [];
      var i := 0;
      while i < |items|
        invariant 0 <= i <= |items|
        invariant r == RenderListOf(flavor, items[..i])
      {
        var o := items[i];
        RenderListStep(flavor, items[..i], o);
        assert items[..i + 1] == items[..i] + [o];
        match flavor {
          case Element(_) =>
            r := AddElementToRenderList(r, o);
          case PropertyList =>
            r := AddPropertyToRenderList(r, o);
          case _ =>
            r := AddToRenderList(r, o);
        }
        i := i + 1;
      }
      assert items[..i] == items;
    }
  }

  // ---------------------------------------------------------------------------
  // ScriptSetWrapper.

  class ScriptSetWrapper {
    var stored: StoredLayout
    var indents: nat
    var before: Value
    var after: Value
    /** ContentLayout, kept by the layout cascade. */
    var contentLayout: ScriptLayout
    var internalIndents: nat
    /** Set: the wrapped set, which is the wrapper's Content. */
    var scriptSet: ScriptSet

    /** The wrapper as a node value, with the set's current items as its content. */
    function ToItem(): (it: Item)
      reads this, scriptSet
      ensures it.kind.Wrapper? && it.kind.content == Node(scriptSet.ToItem())
      ensures it.kind.before == before && it.kind.after == after
    {
      Item(stored, indents, Wrapper(Inline, before, Node(scriptSet.ToItem()), after, contentLayout, internalIndents, PlainWrapper))
    }

    /** ScriptSetWrapper(layout, before, set, after): the given set becomes the content. */
    constructor (layout: ScriptLayout, before: Value, s: ScriptSet, after: Value)
      ensures scriptSet == s
      ensures ToItem() == WrapperNode(layout, before, Node(s.ToItem()), after)
    {
      var it := WrapperNode(layout, before, Node(s.ToItem()), after);
      stored := it.stored;
      indents := 0;
      this.before := before;
      this.after := after;
      contentLayout := it.kind.contentLayout;
      internalIndents := 1;
      scriptSet := s;
    }

    /** ScriptSetWrapper(layout, before, after): a new empty Script becomes the content. */
    constructor Empty(layout: ScriptLayout, before: Value, after: Value)
      ensures fresh(scriptSet) && scriptSet.items == [] && scriptSet.registry == map[]
      ensures ToItem() == WrapperNode(layout, before, Node(ScriptNode([])), after)
    {
      var s := new ScriptSet.Script([]);
      var it := WrapperNode(layout, before, Node(s.ToItem()), after);
      stored := it.stored;
      indents := 0;
      this.before := before;
      this.after := after;
      contentLayout := it.kind.contentLayout;
      internalIndents := 1;
      scriptSet := s;
    }

    /** The Set setter: the content is replaced by another set. */
    method SetSet(s: ScriptSet)
      modifies this`scriptSet
      ensures scriptSet == s
      ensures ToItem() == old(ToItem()).(kind := old(ToItem()).kind.(content := Node(s.ToItem())))
    {
      scriptSet := s;
    }

    /** TrySetLayout: a change of layout cascades into ContentLayout. */
    method TrySetLayout(layout: ScriptLayout, onlyIfNotEstablished: bool)
      modifies this`stored, this`contentLayout
      ensures ToItem() == SetLayout(old(ToItem()), layout, onlyIfNotEstablished)
    {
      if (!onlyIfNotEstablished || !IsEstablished(stored)) && stored != layout && layout != ScriptLayout.None {
        stored := layout;
        contentLayout := Cascade(contentLayout, layout);
      }
    }

    method Count() returns (n: nat)
      ensures n == |scriptSet.items|
    {
      n := scriptSet.Count();
    }

    method IndexOf(x: Value) returns (i: int)
      ensures i == IndexIn(scriptSet.items, x)
    {
      i := scriptSet.IndexOf(x);
    }

    method Contains(x: Value) returns (b: bool)
      ensures b <==> x in scriptSet.items
    {
      b := scriptSet.Contains(x);
    }

    method Get(index: int) returns (x: Value)
      requires 0 <= index < |scriptSet.items|
      ensures x == scriptSet.items[index]
    {
      x := scriptSet.Get(index);
    }

    method Put(index: int, x: Value)
      requires 0 <= index < |scriptSet.items|
      modifies scriptSet`items
      ensures scriptSet.items == old(scriptSet.items)[index := x]
    {
      scriptSet.Put(index, x);
    }

    method Add(x: Value)
      modifies scriptSet`items
      ensures scriptSet.items == old(scriptSet.items) + [x]
    {
      scriptSet.Add(x);
    }

    method Insert(index: int, x: Value)
      requires 0 <= index <= |scriptSet.items|
      modifies scriptSet`items
      ensures scriptSet.items == old(scriptSet.items)[..index] + [x] + old(scriptSet.items)[index..]
    {
      scriptSet.Insert(index, x);
    }

    method RemoveAt(index: int)
      requires 0 <= index < |scriptSet.items|
      modifies scriptSet`items
      ensures scriptSet.items == old(scriptSet.items)[..index] + old(scriptSet.items)[index + 1..]
    {
      scriptSet.RemoveAt(index);
    }

    method Remove(x: Value) returns (removed: bool)
      modifies scriptSet`items
      ensures removed <==> x in old(scriptSet.items)
      ensures scriptSet.items == RemoveFirst(old(scriptSet.items), x)
    {
      removed := scriptSet.Remove(x);
    }

    method Clear()
      modifies scriptSet`items
      ensures scriptSet.items == []
    {
      scriptSet.Clear();
    }

    method AddRange(xs: seq<Value>)
      modifies scriptSet`items
      ensures scriptSet.items == old(scriptSet.items) + xs
    {
      scriptSet.AddRange(xs);
    }

    /**
     * InsertRange(params items) as the source has it: Set.InsertRange(0,
     * items) binds to the params overload, so the set gets two new entries
     * in front, the number 0 and the array of items.
     */
    method InsertRangeAsWritten(xs: seq<Value>)
      modifies scriptSet`items
      ensures scriptSet.items == [Scalar(Number(0)), Arr(xs)] + old(scriptSet.items)
    {
      scriptSet.InsertRange([Scalar(Number(0)), Arr(xs)]);
    }

    /** InsertRange(params items): the items put in front of the set's items, in order. */
    method InsertRange(xs: seq<Value>)
      modifies scriptSet`items
      ensures scriptSet.items == xs + old(scriptSet.items)
    {
      scriptSet.InsertRange(xs);
    }
  }

  /**
   * What the set renders after InsertRangeAsWritten: a 0 in front of the
   * intended render list, so the wrapper writes "0" and a separator before
   * the inserted items.
   */
  lemma InsertRangeAsWrittenWritesZero(xs: seq<Value>, rest: seq<Value>)
    ensures Flatten([Scalar(Number(0)), Arr(xs)] + rest) == [Scalar(Number(0))] + Flatten(xs + rest)
    ensures Flatten(xs + rest) == Flatten(xs) + Flatten(rest)
  {
    var s := [Scalar(Number(0)), Arr(xs)] + rest;
    assert s[0] == Scalar(Number(0)) && s[1..] == [Arr(xs)] + rest;
    assert ([Arr(xs)] + rest)[0] == Arr(xs) && ([Arr(xs)] + rest)[1..] == rest;
    FlattenAppend(xs, rest);
  }
}
