/**
 * Layouts of script items: the ScriptLayout enumeration, the Layout getter,
 * TrySetLayout and the way containers cascade a layout change to their content.
 */
module Layouts {

  datatype ScriptLayout = None | NotAlreadyEstablished | Default | Inline | InlineBlock | Block

  /** The three layouts the Layout getter can return. */
  predicate IsConcrete(l: ScriptLayout)
  {
    l == Inline || l == InlineBlock || l == Block
  }

  type ConcreteLayout = l: ScriptLayout | IsConcrete(l) witness Inline

  /**
   * What an item's layout field can hold.  It starts as NotAlreadyEstablished
   * and TrySetLayout refuses None, so None is never stored.
   */
  type StoredLayout = l: ScriptLayout | l != None witness NotAlreadyEstablished

  /** Multi-line layouts: the ones that indent and break lines. */
  predicate IsMultiLine(l: ScriptLayout)
  {
    l == Block || l == InlineBlock
  }

  /** IsLayoutEstablished: anything but the initial marker counts, Default included. */
  predicate IsEstablished(stored: StoredLayout)
  {
    stored != NotAlreadyEstablished
  }

  /**
   * The Layout getter: a stored concrete layout is returned as is; the two
   * meta values NotAlreadyEstablished and Default fall back to the item's
   * default layout.
   */
  function Effective(stored: StoredLayout, defaultLayout: ConcreteLayout): (r: ConcreteLayout)
    ensures IsConcrete(stored) ==> r == stored
    ensures !IsConcrete(stored) ==> r == defaultLayout
  {
    if IsConcrete(stored) then stored else defaultLayout
  }

  /** The outcome of TrySetLayout: the new stored layout and whether OnLayoutChanged fired. */
  datatype Change = Change(stored: StoredLayout, fired: bool)

  /**
   * TrySetLayout(layout, onlyIfNotAlreadyEstablished).  The request is
   * considered when it is forced or nothing is established yet; it changes
   * the field (and fires the change notification once) only when it differs
   * from the stored value and is not None.
   */
  function TrySet(stored: StoredLayout, layout: ScriptLayout, onlyIfNotEstablished: bool): (r: Change)
    ensures r.fired ==> r.stored == layout && r.stored != stored
    ensures !r.fired ==> r.stored == stored
  {
    if (!onlyIfNotEstablished || !IsEstablished(stored)) && stored != layout && layout != None
    then Change(layout, true)
    else Change(stored, false)
  }

  /** The layout field right after the ScriptItem(layout) constructor ran TrySetLayout(layout, false). */
  function Constructed(layout: ScriptLayout): (r: StoredLayout)
    ensures IsEstablished(r) <==> layout != None && layout != NotAlreadyEstablished
    ensures layout != None ==> r == layout
  {
    TrySet(NotAlreadyEstablished, layout, false).stored
  }

  /** Once a layout is established, a first-wins request neither changes it nor notifies. */
  lemma FirstWins(stored: StoredLayout, layout: ScriptLayout)
    requires IsEstablished(stored)
    ensures TrySet(stored, layout, true) == Change(stored, false)
  {
  }

  /** A request for None never changes anything, forced or not. */
  lemma NoneIsIgnored(stored: StoredLayout, only: bool)
    ensures TrySet(stored, None, only) == Change(stored, false)
  {
  }

  /** A forced request for a different, real layout always takes effect and notifies exactly once. */
  lemma ForcedRequestWins(stored: StoredLayout, layout: ScriptLayout)
    requires layout != None && layout != stored
    ensures TrySet(stored, layout, false) == Change(layout, true)
  {
  }

  /** Repeating a request changes nothing the second time: the notification fires at most once. */
  lemma RequestIsIdempotent(stored: StoredLayout, layout: ScriptLayout, only: bool)
    ensures var once := TrySet(stored, layout, only);
            TrySet(once.stored, layout, only) == Change(once.stored, false)
  {
  }

  /** A series of first-wins requests (TrySetLayout(layout)), applied in order. */
  function OfferAll(stored: StoredLayout, offers: seq<ScriptLayout>): (r: StoredLayout)
    ensures IsEstablished(stored) ==> r == stored
    decreases offers
  {
    if offers == [] then stored
    else OfferAll(TrySet(stored, offers[0], true).stored, offers[1..])
  }

  /** The position of the first request that establishes a layout, if any. */
  function FirstReal(offers: seq<ScriptLayout>): (r: int)
    ensures -1 <= r < |offers|
    ensures r >= 0 ==> offers[r] != None && offers[r] != NotAlreadyEstablished
    ensures forall k :: 0 <= k < |offers| && (r < 0 || k < r) ==>
              offers[k] == None || offers[k] == NotAlreadyEstablished
  {
    if offers == [] then -1
    else if offers[0] != None && offers[0] != NotAlreadyEstablished then 0
    else
      var k := FirstReal(offers[1..]);
      if k < 0 then -1 else k + 1
  }

  /**
   * Layout precedence: starting from an unestablished item, the first request
   * for a layout other than None and NotAlreadyEstablished wins and every
   * later request is ignored.
   */
  lemma {:induction false} FirstRealOfferWins(offers: seq<ScriptLayout>)
    ensures FirstReal(offers) < 0 ==> OfferAll(NotAlreadyEstablished, offers) == NotAlreadyEstablished
    ensures FirstReal(offers) >= 0 ==> OfferAll(NotAlreadyEstablished, offers) == offers[FirstReal(offers)]
  {
    if offers != [] {
      var next := TrySet(NotAlreadyEstablished, offers[0], true).stored;
      if offers[0] != None && offers[0] != NotAlreadyEstablished {
        assert next == offers[0];
      } else {
        assert next == NotAlreadyEstablished;
        FirstRealOfferWins(offers[1..]);
      }
    }
  }

  /**
   * The layout a container hands on to its content when its own layout
   * changes (ScriptWrapper and JsParameters): an inline container keeps its
   * content inline, a multi-line one makes it Block; the meta values leave
   * the current choice alone.
   */
  function Cascade(current: ScriptLayout, changed: ScriptLayout): (r: ScriptLayout)
    ensures IsConcrete(changed) ==> r == (if changed == Inline then Inline else Block)
    ensures !IsConcrete(changed) ==> r == current
  {
    match changed
    case Inline => Inline
    case InlineBlock => Block
    case Block => Block
    case _ => current
  }
}
