/**
 * JsPropertyList's search for a property by name.  The search runs depth
 * first through nested property lists, the property lists of JsObjects
 * and object[] entries; it is proved to find exactly the first property
 * of that name in the list the property list renders.
 */
module JsPropertyLists {
  import opened Wrappers
  import opened Layouts
  import opened Values
  import opened RenderSpec

  /** Js.Property(name, value): a property with no layout of its own. */
  function PropertyNode(name: Value, value: Value): (r: Item)
    ensures r.kind == Property(name, value) && !IsEstablished(r.stored) && Layout(r) == Inline
  {
    Item(NotAlreadyEstablished, 0, Property(name, value))
  }

  /** The property `v` is, when it is one whose name renders as `name`. */
  predicate IsNamed(env: Env, v: Value, name: string)
  {
    v.Node? && v.item.kind.Property? && RenderToString(env, v.item.kind.propertyName) == name
  }

  /** The first property named `name` in a render list, if any: the reference the search is held to. */
  function FirstNamed(env: Env, flat: seq<Value>, name: string): (r: Option<Item>)
    ensures r.Some? ==> Node(r.value) in flat && IsNamed(env, Node(r.value), name)
    ensures r.None? <==> forall x :: x in flat ==> !IsNamed(env, x, name)
  {
    if flat == [] then Option.None
    else if IsNamed(env, flat[0], name) then Some(flat[0].item)
    else FirstNamed(env, flat[1..], name)
  }

  /**
   * FindProperty(o, name): a property matches when its name renders as
   * `name`; a property list is searched item by item, a JsObject through
   * its property list and an object[] element by element; anything else
   * has no property.
   */
  function FindIn(env: Env, v: Value, name: string): (r: Option<Item>)
    decreases VSize(v), 0
  {
    match v
    case Arr(es) => FindInSeq(env, es, name)
    case Node(it) =>
      (match it.kind
       case Property(n, _) => if RenderToString(env, n) == name then Some(it) else Option.None
       case Set(_, _, PropertyList, items) =>
         SetItemSize(it);
         FindInSeq(env, items, name)
       case Wrapper(_, _, c, _, _, _, ObjectLiteral) =>
         WrapperItemSize(it);
         (match PropertiesOf(c)
          case Some(items) =>
            SetItemSize(c.item);
            FindInSeq(env, items, name)
          case None => Option.None)
       case _ => Option.None)
    case _ => Option.None
  }

  /** The first hit among the items, in order. */
  function FindInSeq(env: Env, s: seq<Value>, name: string): (r: Option<Item>)
    decreases SSize(s), 1
  {
    if s == [] then Option.None
    else
      match FindIn(env, s[0], name)
      case Some(p) => Some(p)
      case None => FindInSeq(env, s[1..], name)
  }

  lemma {:induction false} FirstNamedAppend(env: Env, a: seq<Value>, b: seq<Value>, name: string)
    ensures FirstNamed(env, a + b, name)
         == if FirstNamed(env, a, name).Some? then FirstNamed(env, a, name) else FirstNamed(env, b, name)
    decreases |a|
  {
    if a == [] {
      assert a + b == b;
    } else {
      assert (a + b)[0] == a[0];
      assert (a + b)[1..] == a[1..] + b;
      FirstNamedAppend(env, a[1..], b, name);
    }
  }

  /** The search finds, for one entry, the first named property of what that entry adds to the render list. */
  lemma {:induction false} FindInIsFirstRendered(env: Env, v: Value, name: string)
    ensures FindIn(env, v, name) == FirstNamed(env, PropEntry(v), name)
    decreases VSize(v), 0
  {
    match v
    case Arr(es) =>
      FindInSeqIsFirstRendered(env, es, name);
    case Node(it) =>
      match it.kind {
        case Property(n, _) =>
          assert PropEntry(v) == [v];
          assert [v][1..] == [];
        case Set(_, _, PropertyList, items) =>
          SetItemSize(it);
          FindInSeqIsFirstRendered(env, items, name);
        case Wrapper(_, _, c, _, _, _, ObjectLiteral) =>
          WrapperItemSize(it);
          match PropertiesOf(c) {
            case Some(items) =>
              SetItemSize(c.item);
              FindInSeqIsFirstRendered(env, items, name);
            case None =>
          }
        case _ =>
          assert PropEntry(v) == [v];
          assert [v][1..] == [];
      }
    case _ =>
      assert PropEntry(v) == [v];
      assert [v][1..] == [];
  }

  lemma {:induction false} FindInSeqIsFirstRendered(env: Env, s: seq<Value>, name: string)
    ensures FindInSeq(env, s, name) == FirstNamed(env, PropFlatten(s), name)
    decreases SSize(s), 1
  {
    if s != [] {
      assert SSize(s) == VSize(s[0]) + SSize(s[1..]);
      FindInIsFirstRendered(env, s[0], name);
      FindInSeqIsFirstRendered(env, s[1..], name);
      FirstNamedAppend(env, PropEntry(s[0]), PropFlatten(s[1..]), name);
    }
  }

  /**
   * JsPropertyList.FindProperty(name): the first property, depth first in
   * list order, whose name renders as `name`; it is the first such property
   * in the list the property list renders, and there is none exactly when
   * no property in that list has the name.
   */
  function FindProperty(env: Env, list: Item, name: string): (r: Option<Item>)
    requires list.kind.Set? && list.kind.setFlavor == PropertyList
    ensures r == FirstNamed(env, RenderList(list), name)
    ensures r.Some? ==> r.value.kind.Property? && RenderToString(env, r.value.kind.propertyName) == name
    ensures r.None? <==> forall x :: x in RenderList(list) ==> !IsNamed(env, x, name)
  {
    FindInSeqIsFirstRendered(env, list.kind.items, name);
    FindInSeq(env, list.kind.items, name)
  }

  /** FindPropertyValue(name): the found property's value, or null when there is none. */
  function FindPropertyValue(env: Env, list: Item, name: string): (r: Value)
    requires list.kind.Set? && list.kind.setFlavor == PropertyList
    ensures FirstNamed(env, RenderList(list), name).None? ==> r == Null
    ensures FirstNamed(env, RenderList(list), name).Some? ==> r == FirstNamed(env, RenderList(list), name).value.kind.value
  {
    match FindProperty(env, list, name)
    case Some(p) => p.kind.value
    case None => Null
  }

  /**
   * Add(name, value) appends Js.Property(name, value).  The search then
   * finds the new property when no earlier one has the name, and still
   * finds the earlier one when there is one.
   */
  lemma AddedPropertyIsFound(env: Env, items: seq<Value>, name: string, value: Value)
    ensures FindInSeq(env, items, name).None? ==>
              FindInSeq(env, items + [Node(PropertyNode(Str(name), value))], name) == Some(PropertyNode(Str(name), value))
    ensures FindInSeq(env, items, name).Some? ==>
              FindInSeq(env, items + [Node(PropertyNode(Str(name), value))], name) == FindInSeq(env, items, name)
  {
    var p := Node(PropertyNode(Str(name), value));
    FindInSeqIsFirstRendered(env, items, name);
    FindInSeqIsFirstRendered(env, items + [p], name);
    PropFlattenAppend(items, [p]);
    FirstNamedAppend(env, PropFlatten(items), PropFlatten([p]), name);
    assert PropEntry(p) == [p];
    assert [p][1..] == [];
    assert PropFlatten([p]) == [p];
  }
}
