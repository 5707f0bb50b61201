/**
 * Wielding: which of the nine hotbar spots the bot holds, and `wield`, which
 * switches to a hotbar spot matching a request and tells the server with a
 * HeldItemChange packet only when the held spot changes.
 */
module Wielding {
  import opened Wrappers
  import opened Spots
  import opened Packets
  import opened Windows

  /** An index into the hotbar, as HeldItemChange carries it. */
  type HotbarIndex = k: int | 0 <= k < 9

  /** What `wield` is asked to hold: a particular spot, an exact item stack, or any stack of an item type. */
  datatype WieldSpec = SpotSpec(spot: SpotRef) | ItemSpec(item: Item) | TypeSpec(itemType: int)

  /** Whether a spot, with the given contents, satisfies a request. */
  predicate Matches(contents: map<SpotRef, Item>, s: SpotRef, spec: WieldSpec)
  {
    match spec
    case SpotSpec(x) => s == x
    case ItemSpec(i) => Get(contents, s) == Some(i)
    case TypeSpec(ty) => Get(contents, s).Some? && Get(contents, s).value.itemType == ty
  }

  /** The first hotbar index from `k` on whose spot satisfies the request. */
  function FirstMatch(contents: map<SpotRef, Item>, spec: WieldSpec, k: nat): (r: Option<HotbarIndex>)
    requires k <= 9
    ensures r.Some? ==> k <= r.value && Matches(contents, HotbarSpots()[r.value], spec)
    ensures r.Some? ==> forall j :: k <= j < r.value ==> !Matches(contents, HotbarSpots()[j], spec)
    ensures r.None? ==> forall j :: k <= j < 9 ==> !Matches(contents, HotbarSpots()[j], spec)
    decreases 9 - k
  {
    if k == 9 then None
    else if Matches(contents, HotbarSpots()[k], spec) then Some(k)
    else FirstMatch(contents, spec, k + 1)
  }

  /**
   * The hotbar index `wield` ends up holding: the current one when it already
   * satisfies the request, otherwise the first one that does; `None` when no
   * hotbar spot does.
   */
  function Choice(contents: map<SpotRef, Item>, current: HotbarIndex, spec: WieldSpec): (r: Option<HotbarIndex>)
    ensures r.Some? ==> Matches(contents, HotbarSpots()[r.value], spec)
    ensures Matches(contents, HotbarSpots()[current], spec) ==> r == Some(current)
    ensures r.Some? && r.value != current ==> forall j :: 0 <= j < r.value ==> !Matches(contents, HotbarSpots()[j], spec)
    ensures r.None? <==> forall j :: 0 <= j < 9 ==> !Matches(contents, HotbarSpots()[j], spec)
  {
    if Matches(contents, HotbarSpots()[current], spec) then Some(current) else FirstMatch(contents, spec, 0)
  }

  /** Asking for the spot already held, or for what it already holds, keeps it. */
  lemma WieldCurrentKeepsIt(contents: map<SpotRef, Item>, current: HotbarIndex)
    ensures Choice(contents, current, SpotSpec(HotbarSpots()[current])) == Some(current)
    ensures Get(contents, HotbarSpots()[current]).Some? ==>
      var item := Get(contents, HotbarSpots()[current]).value;
      Choice(contents, current, ItemSpec(item)) == Some(current) && Choice(contents, current, TypeSpec(item.itemType)) == Some(current)
  {
  }

  /** Asking for a hotbar spot always holds exactly that spot. */
  lemma WieldHotbarSpot(contents: map<SpotRef, Item>, current: HotbarIndex, k: HotbarIndex)
    ensures Choice(contents, current, SpotSpec(HotbarSpots()[k])) == Some(k)
  {
    InventoryNoDuplicates();
  }

  /** A spot outside the hotbar cannot be held by switching hotbar index. */
  lemma WieldOutsideHotbar(contents: map<SpotRef, Item>, current: HotbarIndex, s: SpotRef)
    requires s !in HotbarSpots()
    ensures Choice(contents, current, SpotSpec(s)) == None
  {
  }

  // ---------------------------------------------------------------------
  // The inventory the wielding examples load

  const WheatItem: int := 296
  const Bread: int := 297
  const IronShovel: int := 256

  /** A 45-entry inventory snapshot: a shovel at id 10, two bread at 12, 31 wheat at 36 and 44 bread at 37. */
  function ExampleItems(): (r: Items)
    ensures |r| == 45
  {
    seq(45, i requires 0 <= i =>
      if i == 10 then Some(Item(IronShovel, 1))
      else if i == 12 then Some(Item(Bread, 2))
      else if i == 36 then Some(Item(WheatItem, 31))
      else if i == 37 then Some(Item(Bread, 44))
      else None)
  }

  /** Once the inventory window has loaded, hotbar spot `k` holds snapshot entry `36 + k`. */
  lemma LoadedHotbar(types: map<int, WindowClass>, t: Tracker, items: Items, k: nat)
    requires TargetOf(t, 0) == Some(InventoryTarget) && |items| == 45 && k < 9
    ensures Run(types, t, LoadPackets(0, items, 45)).Ok?
    ensures Get(Run(types, t, LoadPackets(0, items, 45)).value.contents, HotbarSpots()[k]) == items[36 + k]
  {
    InventoryTail();
    WindowLoads(types, t, InventoryTarget, 0, items);
    var u := Loading(t, InventoryTarget, items, 45);
    var l := Layout(InventoryWindow);
    LayoutAt(InventoryWindow, 36 + k);
    HotbarIsLastNine(k);
    assert ItemsOf(u.contents, l)[36 + k] == Get(u.contents, l[36 + k]);
  }

  /**
   * With an inventory loaded whose first two hotbar spots hold 31 wheat and
   * 44 bread, as in the example snapshot, and hotbar index 0 held: the held
   * item is the wheat; asking for hotbar spot 0, for the 31 wheat or for wheat
   * keeps index 0; asking for hotbar spot 1, or for bread, switches to index 1.
   */
  lemma WieldingExamples(types: map<int, WindowClass>, t: Tracker, items: Items)
    requires TargetOf(t, 0) == Some(InventoryTarget) && |items| == 45
    requires items[36] == ExampleItems()[36] && items[37] == ExampleItems()[37]
    ensures Run(types, t, LoadPackets(0, items, 45)).Ok?
    ensures var c := Run(types, t, LoadPackets(0, items, 45)).value.contents;
      && Get(c, HotbarSpots()[0]) == Some(Item(WheatItem, 31))
      && Choice(c, 0, SpotSpec(HotbarSpots()[0])) == Some(0)
      && Choice(c, 0, ItemSpec(Item(WheatItem, 31))) == Some(0)
      && Choice(c, 0, TypeSpec(WheatItem)) == Some(0)
      && Choice(c, 0, SpotSpec(HotbarSpots()[1])) == Some(1)
      && Choice(c, 0, TypeSpec(Bread)) == Some(1)
  {
    assert items[36] == Some(Item(WheatItem, 31)) && items[37] == Some(Item(Bread, 44));
    LoadedHotbar(types, t, items, 0);
    LoadedHotbar(types, t, items, 1);
    var c := Run(types, t, LoadPackets(0, items, 45)).value.contents;
    ChoiceExamples(c);
  }

  /** The choices of the examples, for any contents whose first two hotbar spots hold 31 wheat and 44 bread. */
  lemma ChoiceExamples(c: map<SpotRef, Item>)
    requires Get(c, HotbarSpots()[0]) == Some(Item(WheatItem, 31)) && Get(c, HotbarSpots()[1]) == Some(Item(Bread, 44))
    ensures Choice(c, 0, SpotSpec(HotbarSpots()[0])) == Some(0)
    ensures Choice(c, 0, ItemSpec(Item(WheatItem, 31))) == Some(0)
    ensures Choice(c, 0, TypeSpec(WheatItem)) == Some(0)
    ensures Choice(c, 0, SpotSpec(HotbarSpots()[1])) == Some(1)
    ensures Choice(c, 0, TypeSpec(Bread)) == Some(1)
  {
    WieldCurrentKeepsIt(c, 0);
    WieldHotbarSpot(c, 0, 1);
    assert !Matches(c, HotbarSpots()[0], TypeSpec(Bread));
    assert Matches(c, HotbarSpots()[1], TypeSpec(Bread));
  }

  /** A new tracker addresses window 0 to the inventory, so the examples apply to it. */
  lemma ExamplesApplyToNewTracker()
    ensures TargetOf(Initial(), 0) == Some(InventoryTarget)
    ensures |ExampleItems()| == 45
  {
  }

  // ---------------------------------------------------------------------
  // The bot

  /**
   * The wielding part of a bot: its window tracker, the hotbar index it holds
   * (hotbar spot 0 at first) and the packets it has sent to the server.
   */
  class Bot {
    const tracker: WindowTracker
    var wieldedIndex: HotbarIndex
    var sent: seq<Packet>

    constructor (tracker: WindowTracker)
      ensures this.tracker == tracker && wieldedIndex == 0 && sent == []
    {
      this.tracker := tracker;
      wieldedIndex := 0;
      sent := [];
    }

    /** `wielded_spot`: the hotbar spot held. */
    function WieldedSpot(): (s: SpotRef)
      reads this
      ensures s in HotbarSpots()
    {
      HotbarSpots()[wieldedIndex]
    }

    /** `wielded_item`: what the held spot holds, nil when it is empty. */
    function WieldedItem(): (r: Option<Item>)
      reads this, tracker
      ensures r.Some? <==> WieldedSpot() in tracker.contents
      ensures r.Some? ==> r.value == tracker.contents[WieldedSpot()]
    {
      Get(tracker.contents, WieldedSpot())
    }

    /**
     * `wield(spec)`: holds a hotbar spot satisfying the request, keeping the
     * current one when it does, and sends one HeldItemChange with the new
     * index only when the index changes. The tracker is left alone, so it is
     * exactly as synced as before.
     */
    method Wield(spec: WieldSpec) returns (ok: bool)
      modifies this
      ensures ok <==> Choice(tracker.contents, old(wieldedIndex), spec).Some?
      ensures ok ==> wieldedIndex == Choice(tracker.contents, old(wieldedIndex), spec).value
      ensures !ok ==> wieldedIndex == old(wieldedIndex)
      ensures ok ==> Matches(tracker.contents, WieldedSpot(), spec)
      ensures sent == old(sent) + (if wieldedIndex != old(wieldedIndex) then [HeldItemChange(wieldedIndex)] else [])
      ensures tracker.State() == old(tracker.State())
    {
      if Matches(tracker.contents, HotbarSpots()[wieldedIndex], spec) {
        return true;
      }
      var k := 0;
      while k < 9
        invariant 0 <= k <= 9
        invariant forall j :: 0 <= j < k ==> !Matches(tracker.contents, HotbarSpots()[j], spec)
        invariant wieldedIndex == old(wieldedIndex) && sent == old(sent)
      {
        if Matches(tracker.contents, HotbarSpots()[k], spec) {
          wieldedIndex := k;
          sent := sent + [HeldItemChange(k)];
          return true;
        }
        k := k + 1;
      }
      return false;
    }
  }
}
