/**
 * The window tracker: the client-side copy of the server's windows. It owns
 * the permanent inventory window and at most one open chest, fills their
 * spots from SetWindowItems snapshots and SetSlot updates, and knows when a
 * window has finished loading.
 *
 * `Step` is the tracker's reaction to one inbound packet, as a function of
 * the tracker's state; the class `WindowTracker` holds that state in fields
 * and is proved to update them as `Step` says.
 */
module Windows {
  import opened Wrappers
  import opened HasTids
  import opened Spots
  import opened Packets

  /** The family name of the window classes, as error messages spell it. */
  const WindowFamily: string := "RedstoneBot::WindowTracker::Window"

  /** The classes of the window family that a server can open by tid. */
  datatype WindowClass = ChestWindowClass

  /** The tid the chest window class is registered under. */
  const ChestTid: int := 0

  /**
   * How far a window has loaded: it waits for its snapshot, then for a SetSlot
   * for each slot id the snapshot reported non-empty (`@awaiting_set_spots`).
   */
  datatype Load = AwaitingSnapshot | AwaitingSlots(spotIds: seq<nat>)
  {
    predicate Loaded()
    {
      AwaitingSlots? && spotIds == []
    }
  }

  /** The open chest window: its server-assigned id, its number of chest spots and its loading. */
  datatype OpenChest = OpenChest(windowId: int, size: nat, load: Load)

  /**
   * The tracker's state. `contents` holds the item of every non-empty spot of
   * the open windows (a spot that is not a key is empty); the chest window's
   * regular spots are the inventory's own, so they are stored once.
   */
  datatype Tracker = Tracker(inventoryLoad: Load, chest: Option<OpenChest>, contents: map<SpotRef, Item>,
                             cursor: Option<Item>, pending: seq<int>)

  /** A new tracker: the inventory window not loaded, no chest, every spot empty. */
  function Initial(): Tracker
  {
    Tracker(AwaitingSnapshot, None, map[], None, [])
  }

  // ---------------------------------------------------------------------
  // Spot contents

  /** The item in a spot, `None` when it is empty. */
  function Get(c: map<SpotRef, Item>, s: SpotRef): Option<Item>
  {
    if s in c then Some(c[s]) else None
  }

  /** Sets one spot's contents and leaves every other spot as it was. */
  function Put(c: map<SpotRef, Item>, s: SpotRef, item: Option<Item>): (r: map<SpotRef, Item>)
    ensures Get(r, s) == item
    ensures forall o :: o != s ==> Get(r, o) == Get(c, o)
    ensures forall o :: o in r ==> o in c || o == s
  {
    match item
    case Some(i) => c[s := i]
    case None => c - {s}
  }

  /** The entry for slot id `i` of a snapshot; ids past its end are empty. */
  function ItemAt(items: Items, i: nat): Option<Item>
  {
    if i < |items| then items[i] else None
  }

  /** Writes snapshot entry `i` into `spots[i]`, for every spot of the list, in order. */
  function Fill(c: map<SpotRef, Item>, spots: seq<SpotRef>, items: Items): (r: map<SpotRef, Item>)
    ensures forall o :: o in r ==> o in c || o in spots
    decreases |spots|
  {
    if spots == [] then c
    else Put(Fill(c, spots[..|spots| - 1], items), spots[|spots| - 1], ItemAt(items, |spots| - 1))
  }

  /** After a fill, each listed spot holds its entry of the snapshot and every other spot is unchanged. */
  lemma {:induction false} FillSets(c: map<SpotRef, Item>, spots: seq<SpotRef>, items: Items)
    requires NoDuplicates(spots)
    ensures forall i :: 0 <= i < |spots| ==> Get(Fill(c, spots, items), spots[i]) == ItemAt(items, i)
    ensures forall s :: s !in spots ==> Get(Fill(c, spots, items), s) == Get(c, s)
    decreases |spots|
  {
    if spots != [] {
      var init := spots[..|spots| - 1];
      assert NoDuplicates(init);
      FillSets(c, init, items);
      forall i | 0 <= i < |init|
        ensures init[i] != spots[|spots| - 1] && init[i] == spots[i]
      {
      }
      forall s | s !in spots
        ensures s !in init
      {
      }
    }
  }

  /** `spots.items`: the item of each spot of a list, in order. */
  function ItemsOf(c: map<SpotRef, Item>, spots: seq<SpotRef>): (r: Items)
    ensures |r| == |spots|
    ensures forall i :: 0 <= i < |spots| ==> r[i] == Get(c, spots[i])
  {
    seq(|spots|, i requires 0 <= i < |spots| => Get(c, spots[i]))
  }

  /** Filling one spot more: the fill of the shorter list, then the next spot. */
  lemma FillLast(c: map<SpotRef, Item>, spots: seq<SpotRef>, items: Items, i: nat)
    requires i < |spots|
    ensures Fill(c, spots[..i + 1], items) == Put(Fill(c, spots[..i], items), spots[i], ItemAt(items, i))
  {
    assert spots[..i + 1][..i] == spots[..i];
  }

  /** Reading back the spots just filled gives the snapshot. */
  lemma FillThenRead(c: map<SpotRef, Item>, spots: seq<SpotRef>, items: Items)
    requires NoDuplicates(spots) && |items| == |spots|
    ensures ItemsOf(Fill(c, spots, items), spots) == items
  {
    FillSets(c, spots, items);
  }

  // ---------------------------------------------------------------------
  // Loading

  /** The slot ids from `lo` up to `hi` whose snapshot entry is not empty, in increasing order. */
  function Awaited(items: Items, lo: nat, hi: nat): seq<nat>
    requires hi <= |items|
    decreases hi - lo
  {
    if lo >= hi then [] else (if items[lo].Some? then [lo] else []) + Awaited(items, lo + 1, hi)
  }

  /** The awaited ids are exactly the ids in range whose entry is not empty. */
  lemma {:induction false} AwaitedMembers(items: Items, lo: nat, hi: nat)
    requires hi <= |items|
    ensures forall id :: id in Awaited(items, lo, hi) <==> lo <= id < hi && items[id].Some?
    decreases hi - lo
  {
    if lo < hi {
      AwaitedMembers(items, lo + 1, hi);
    }
  }

  /** The awaited ids up to `hi + 1` are those up to `hi`, then `hi` itself if its entry is not empty. */
  lemma {:induction false} AwaitedLast(items: Items, lo: nat, hi: nat)
    requires lo <= hi < |items|
    ensures Awaited(items, lo, hi + 1) == Awaited(items, lo, hi) + (if items[hi].Some? then [hi] else [])
    decreases hi - lo
  {
    var last := if items[hi].Some? then [hi] else [];
    if lo < hi {
      var head := if items[lo].Some? then [lo] else [];
      AwaitedLast(items, lo + 1, hi);
      assert Awaited(items, lo, hi + 1) == head + (Awaited(items, lo + 1, hi) + last);
      ConcatAssoc(head, Awaited(items, lo + 1, hi), last);
    } else {
      assert Awaited(items, lo, hi + 1) == last + [];
    }
  }

  lemma ConcatAssoc(a: seq<nat>, b: seq<nat>, c: seq<nat>)
    ensures a + (b + c) == (a + b) + c
  {
  }

  /** `Array#delete`: every occurrence of `id` removed, the rest in order. */
  function Remove(ids: seq<nat>, id: nat): (r: seq<nat>)
    ensures forall x :: x in r <==> x in ids && x != id
  {
    if ids == [] then [] else (if ids[0] == id then [] else [ids[0]]) + Remove(ids[1..], id)
  }

  /** A SetSlot for slot id `id` arrived: it is no longer awaited. */
  function Received(load: Load, id: nat): (r: Load)
    ensures load.AwaitingSnapshot? ==> r == load
    ensures load.AwaitingSlots? ==> r.AwaitingSlots? && (forall x :: x in r.spotIds <==> x in load.spotIds && x != id)
  {
    match load
    case AwaitingSnapshot => AwaitingSnapshot
    case AwaitingSlots(ids) => AwaitingSlots(Remove(ids, id))
  }

  /** The SetSlot for the first awaited id leaves the ids after it awaited. */
  lemma {:induction false} ReceiveFirst(items: Items, lo: nat, hi: nat)
    requires lo < hi <= |items| && items[lo].Some?
    ensures Remove(Awaited(items, lo, hi), lo) == Awaited(items, lo + 1, hi)
  {
    var rest := Awaited(items, lo + 1, hi);
    assert Awaited(items, lo, hi) == [lo] + rest;
    AwaitedMembers(items, lo + 1, hi);
    assert lo !in rest;
    RemoveAbsent(rest, lo);
  }

  lemma {:induction false} RemoveAbsent(ids: seq<nat>, id: nat)
    requires id !in ids
    ensures Remove(ids, id) == ids
  {
    if ids != [] {
      RemoveAbsent(ids[1..], id);
      assert ids == [ids[0]] + ids[1..];
    }
  }

  // ---------------------------------------------------------------------
  // Addressing a window by id

  /** The windows a packet can address. */
  datatype Target = InventoryTarget | ChestTarget

  /** The window a window id addresses: the open chest if the id is its id, else the inventory for id 0. */
  function TargetOf(t: Tracker, windowId: int): (r: Option<Target>)
    ensures r == Some(ChestTarget) ==> t.chest.Some?
  {
    if t.chest.Some? && t.chest.value.windowId == windowId then Some(ChestTarget)
    else if windowId == 0 then Some(InventoryTarget)
    else None
  }

  /**
   * The open chest's id addresses the chest, even when it is 0; id 0 otherwise
   * addresses the inventory; every other id addresses nothing.
   */
  lemma TargetOfCases(t: Tracker, windowId: int)
    ensures TargetOf(t, windowId) == Some(ChestTarget) <==> t.chest.Some? && t.chest.value.windowId == windowId
    ensures TargetOf(t, windowId) == Some(InventoryTarget)
            <==> windowId == 0 && !(t.chest.Some? && t.chest.value.windowId == 0)
    ensures TargetOf(t, windowId).None? <==> windowId != 0 && !(t.chest.Some? && t.chest.value.windowId == windowId)
  {
  }

  /** The target exists in this tracker: a chest target needs an open chest. */
  predicate Present(t: Tracker, g: Target)
  {
    g.ChestTarget? ==> t.chest.Some?
  }

  function WindowOf(t: Tracker, g: Target): Window
    requires Present(t, g)
  {
    match g
    case InventoryTarget => InventoryWindow
    case ChestTarget => ChestWindow(t.chest.value.size)
  }

  function LoadOf(t: Tracker, g: Target): Load
    requires Present(t, g)
  {
    match g
    case InventoryTarget => t.inventoryLoad
    case ChestTarget => t.chest.value.load
  }

  /** The tracker with the target window's loading replaced and everything else kept. */
  function WithLoad(t: Tracker, g: Target, load: Load): (r: Tracker)
    requires Present(t, g)
    ensures Present(r, g) && LoadOf(r, g) == load && WindowOf(r, g) == WindowOf(t, g)
    ensures r.contents == t.contents && r.cursor == t.cursor && r.pending == t.pending
    ensures g.InventoryTarget? ==> r.chest == t.chest
    ensures g.ChestTarget? ==> r.inventoryLoad == t.inventoryLoad && r.chest.value.windowId == t.chest.value.windowId
  {
    match g
    case InventoryTarget => t.(inventoryLoad := load)
    case ChestTarget => t.(chest := Some(t.chest.value.(load := load)))
  }

  /** The chest's spots dropped from the contents: a closed or replaced chest takes its spots with it. */
  function WithoutChestSpots(c: map<SpotRef, Item>): (r: map<SpotRef, Item>)
    ensures forall s :: s in r <==> s in c && !s.Chest?
    ensures forall s :: s in r ==> r[s] == c[s]
  {
    map s | s in c && !s.Chest? :: c[s]
  }

  // ---------------------------------------------------------------------
  // Reacting to one packet

  /**
   * SetWindowItems: every spot of the window takes its snapshot entry (empty
   * past the snapshot's end); the window now awaits a SetSlot for each slot id
   * whose entry is not empty. Spots of no other window change.
   */
  function Snapshot(t: Tracker, g: Target, items: Items): (r: Tracker)
    requires Present(t, g)
    ensures Present(r, g) && WindowOf(r, g) == WindowOf(t, g) && LoadOf(r, g).AwaitingSlots?
    ensures r.cursor == t.cursor && r.pending == t.pending
    ensures g.InventoryTarget? ==> r.chest == t.chest
    ensures g.ChestTarget? ==> r.inventoryLoad == t.inventoryLoad && r.chest.value.windowId == t.chest.value.windowId
  {
    var layout := Layout(WindowOf(t, g));
    var n := if |items| < |layout| then |items| else |layout|;
    WithLoad(t.(contents := Fill(t.contents, layout, items)), g, AwaitingSlots(Awaited(items, 0, n)))
  }

  /**
   * After a snapshot, slot id `i` of the window holds entry `i`, spots the
   * window does not show keep their items, and the awaited ids are exactly
   * the window's slot ids whose entry is not empty.
   */
  lemma SnapshotFills(t: Tracker, g: Target, items: Items)
    requires Present(t, g)
    ensures var r := Snapshot(t, g, items);
      && (forall i :: 0 <= i < |Layout(WindowOf(t, g))| ==> Get(r.contents, Layout(WindowOf(t, g))[i]) == ItemAt(items, i))
      && (forall s :: s !in Layout(WindowOf(t, g)) ==> Get(r.contents, s) == Get(t.contents, s))
      && (forall id: nat :: id in LoadOf(r, g).spotIds <==> id < |Layout(WindowOf(t, g))| && ItemAt(items, id).Some?)
  {
    var layout := Layout(WindowOf(t, g));
    var n := if |items| < |layout| then |items| else |layout|;
    LayoutNoDuplicates(WindowOf(t, g));
    FillSets(t.contents, layout, items);
    AwaitedMembers(items, 0, n);
  }

  /**
   * SetSlot for a window: the spot at `spotId` takes the item and the id is no
   * longer awaited; every other spot keeps its item. An id outside the
   * window's layout changes nothing.
   */
  function SlotUpdate(t: Tracker, g: Target, spotId: int, item: Option<Item>): (r: Tracker)
    requires Present(t, g)
    ensures Present(r, g) && WindowOf(r, g) == WindowOf(t, g)
    ensures 0 <= spotId < |Layout(WindowOf(t, g))| ==>
      && Get(r.contents, Layout(WindowOf(t, g))[spotId]) == item
      && LoadOf(r, g) == Received(LoadOf(t, g), spotId)
    ensures !(0 <= spotId < |Layout(WindowOf(t, g))|) ==> r == t
    ensures r.cursor == t.cursor && r.pending == t.pending
  {
    var layout := Layout(WindowOf(t, g));
    if 0 <= spotId < |layout| then
      WithLoad(t.(contents := Put(t.contents, layout[spotId], item)), g, Received(LoadOf(t, g), spotId))
    else t
  }
  /** A SetSlot changes at most the one spot it names. */
  lemma SlotUpdateKeepsOthers(t: Tracker, g: Target, spotId: int, item: Option<Item>, s: SpotRef)
    requires Present(t, g)
    requires !(0 <= spotId < |Layout(WindowOf(t, g))|) || s != Layout(WindowOf(t, g))[spotId]
    ensures Get(SlotUpdate(t, g, spotId, item).contents, s) == Get(t.contents, s)
  {
  }


  /**
   * The tracker's reaction to one inbound packet (`tracker << packet`), given
   * the window family's tid table. OpenWindow builds the window through the
   * table and fails, leaving the tracker as it was, for a tid with no class.
   * Packets for a window id that is not open, and packets of other kinds,
   * change nothing.
   */
  function Step(types: map<int, WindowClass>, t: Tracker, p: Packet): (r: Result<Tracker, string>)
    ensures r.Err? <==> p.OpenWindow? && p.inventoryType !in types
    ensures r.Err? ==> r.error == UnrecognizedMessage(WindowFamily, p.inventoryType)
    ensures r.Ok? ==> r.value.pending == t.pending
  {
    match p
    case OpenWindow(windowId, inventoryType, _, spotCount) =>
      var made :- Lookup(WindowFamily, types, inventoryType, spotCount);
      Ok(t.(chest := Some(OpenChest(windowId, made.args, AwaitingSnapshot)),
            contents := WithoutChestSpots(t.contents)))
    case CloseWindow(windowId) =>
      if t.chest.Some? && t.chest.value.windowId == windowId then
        Ok(t.(chest := None, contents := WithoutChestSpots(t.contents)))
      else Ok(t)
    case SetWindowItems(windowId, items) =>
      (match TargetOf(t, windowId)
       case None => Ok(t)
       case Some(g) => Ok(Snapshot(t, g, items)))
    case SetSlot(windowId, spotId, item) =>
      if windowId == -1 then Ok(t.(cursor := item))
      else (match TargetOf(t, windowId)
            case None => Ok(t)
            case Some(g) => Ok(SlotUpdate(t, g, spotId, item)))
    case _ => Ok(t)
  }

  /** A sequence of packets pushed one after the other; the first failure stops the run. */
  function Run(types: map<int, WindowClass>, t: Tracker, ps: seq<Packet>): (r: Result<Tracker, string>)
    ensures r.Ok? ==> r.value.pending == t.pending
    decreases |ps|
  {
    if ps == [] then Ok(t)
    else
      var before :- Run(types, t, ps[..|ps| - 1]);
      Step(types, before, ps[|ps| - 1])
  }

  /** A run fails only at an OpenWindow whose tid has no window class. */
  lemma {:induction false} RunFailsOnlyOnUnknownWindow(types: map<int, WindowClass>, t: Tracker, ps: seq<Packet>)
    ensures Run(types, t, ps).Err? ==>
      exists i :: 0 <= i < |ps| && ps[i].OpenWindow? && ps[i].inventoryType !in types
    decreases |ps|
  {
    if ps != [] && Run(types, t, ps).Err? {
      var init := ps[..|ps| - 1];
      RunFailsOnlyOnUnknownWindow(types, t, init);
      if Run(types, t, init).Err? {
        var i :| 0 <= i < |init| && init[i].OpenWindow? && init[i].inventoryType !in types;
        assert ps[i] == init[i];
      } else {
        assert ps[|ps| - 1].OpenWindow? && ps[|ps| - 1].inventoryType !in types;
      }
    }
  }

  /** Pushing `ps` and then `qs` is pushing `ps + qs`. */
  lemma {:induction false} RunAppend(types: map<int, WindowClass>, t: Tracker, ps: seq<Packet>, qs: seq<Packet>)
    ensures Run(types, t, ps + qs) == match Run(types, t, ps)
                                      case Ok(u) => Run(types, u, qs)
                                      case Err(e) => Err(e)
    decreases |qs|
  {
    if qs == [] {
      assert ps + qs == ps;
    } else {
      var init := qs[..|qs| - 1];
      var last := qs[|qs| - 1];
      assert ps + qs == (ps + init) + [last];
      assert init + [last] == qs;
      RunAppend(types, t, ps, init);
      RunLast(types, t, ps + init, last);
      if Run(types, t, ps).Ok? {
        RunLast(types, Run(types, t, ps).value, init, last);
      }
    }
  }

  // ---------------------------------------------------------------------
  // What the tracker shows

  /** `open_windows`: the inventory under id 0, and the chest under its id. */
  function OpenWindows(t: Tracker): (r: map<int, Window>)
    ensures 0 in r
    ensures forall id :: id in r <==> TargetOf(t, id).Some?
    ensures forall id :: id in r ==> r[id] == WindowOf(t, TargetOf(t, id).value)
  {
    match t.chest
    case None => map[0 := InventoryWindow]
    case Some(c) => map[0 := InventoryWindow][c.windowId := ChestWindow(c.size)]
  }

  /** `inventory`: the items of the inventory's armor and regular spots once it has loaded, else nil. */
  function InventoryView(t: Tracker): (r: Option<Items>)
    ensures r.Some? <==> t.inventoryLoad.Loaded()
    ensures r.Some? ==> |r.value| == 40
  {
    if t.inventoryLoad.Loaded() then Some(ItemsOf(t.contents, InventorySpots())) else None
  }

  /** The inventory view lists the armor spots' items, then the regular spots' items in index order. */
  lemma InventoryViewSpots(t: Tracker)
    ensures InventoryView(t).Some? ==> InventoryView(t).value[..4] == ItemsOf(t.contents, ArmorSpots())
                                       && InventoryView(t).value[4..] == ItemsOf(t.contents, RegularSpots())
  {
  }

  /** `chest_spots`: the items of the open chest's spots once it has loaded, else nil. */
  function ChestView(t: Tracker): (r: Option<Items>)
    ensures r.Some? <==> t.chest.Some? && t.chest.value.load.Loaded()
    ensures r.Some? ==> |r.value| == t.chest.value.size
  {
    if t.chest.Some? && t.chest.value.load.Loaded() then Some(ItemsOf(t.contents, ChestSpots(t.chest.value.size)))
    else None
  }

  /** The chest view lists the item of chest spot `i` at position `i`. */
  lemma ChestViewSpots(t: Tracker)
    ensures ChestView(t).Some? ==> forall i :: 0 <= i < |ChestView(t).value| ==> ChestView(t).value[i] == Get(t.contents, Chest(i))
  {
  }

  /** `synced?`: no action of the bot waits for the server's answer. */
  predicate Synced(t: Tracker)
  {
    t.pending == []
  }

  /** Only spots of open windows hold items. */
  predicate InOpenWindows(t: Tracker)
  {
    forall s :: s in t.contents ==>
      Shows(InventoryWindow, s) || (t.chest.Some? && Shows(ChestWindow(t.chest.value.size), s))
  }

  // ---------------------------------------------------------------------
  // Properties of the tracker

  /** A new tracker: one open window (the inventory), nothing loaded, no chest spots, every spot empty. */
  lemma InitialState()
    ensures InOpenWindows(Initial()) && Synced(Initial())
    ensures OpenWindows(Initial()) == map[0 := InventoryWindow]
    ensures InventoryView(Initial()) == None && ChestView(Initial()) == None
    ensures forall s :: Get(Initial().contents, s) == None
  {
  }

  /** Packets the tracker does not handle leave it exactly as it was. */
  lemma IgnoresOtherPackets(types: map<int, WindowClass>, t: Tracker, p: Packet)
    requires p.KeepAlive? || p.ChatMessage? || p.HeldItemChange?
    ensures Step(types, t, p) == Ok(t)
  {
  }

  /** OpenWindow with a tid that has no window class fails with the family's message and opens nothing. */
  lemma UnknownWindowType(types: map<int, WindowClass>, t: Tracker, windowId: int, tid: int, title: string, n: nat)
    ensures Step(types, t, OpenWindow(windowId, tid, title, n)).Err? <==> tid !in types
    ensures tid !in types ==> Step(types, t, OpenWindow(windowId, tid, title, n)).error == UnrecognizedMessage(WindowFamily, tid)
  {
  }

  /** Only a chest is registered, so tid 66 is refused with a message that names the window family and spells out 66. */
  lemma UnknownWindowTypeExample(t: Tracker)
    ensures Step(map[ChestTid := ChestWindowClass], t, OpenWindow(1, 66, "x", 27)) == Err(UnrecognizedMessage(WindowFamily, 66))
    ensures UnrecognizedMessage(WindowFamily, 66) == "Unrecognized type of " + WindowFamily + ": " + "66"
  {
    var types := map[ChestTid := ChestWindowClass];
    assert 66 !in types;
    UnknownWindowType(types, t, 1, 66, "x", 27);
    SixtySix();
  }

  lemma SixtySix()
    ensures IntToDecimal(66) == "66"
  {
    assert DigitChar(6) == '6';
    assert NatToDecimal(6) == "6";
  }

  /** Spots that are not chest spots read the same once the chest's spots are dropped. */
  lemma {:induction false} ItemsOfWithoutChest(c: map<SpotRef, Item>, spots: seq<SpotRef>)
    requires forall i :: 0 <= i < |spots| ==> !spots[i].Chest?
    ensures ItemsOf(WithoutChestSpots(c), spots) == ItemsOf(c, spots)
  {
  }

  lemma InventorySpotsNotChest()
    ensures forall i :: 0 <= i < |InventorySpots()| ==> !InventorySpots()[i].Chest?
  {
    InventoryWindowLayout();
    forall i | 0 <= i < |InventorySpots()|
      ensures !InventorySpots()[i].Chest?
    {
      assert InventorySpots()[i] == Layout(InventoryWindow)[5 + i];
      SlotIsPosition(InventoryWindow, 5 + i);
    }
  }

  /**
   * OpenWindow for the registered chest tid: the window id now shows a chest
   * of the announced size, which waits for its snapshot, so there are no chest
   * spots yet; the inventory is as it was.
   */
  lemma OpenChestWindow(types: map<int, WindowClass>, t: Tracker, windowId: int, title: string, n: nat)
    requires ChestTid in types && windowId != 0
    ensures Step(types, t, OpenWindow(windowId, ChestTid, title, n)).Ok?
    ensures var u := Step(types, t, OpenWindow(windowId, ChestTid, title, n)).value;
      && OpenWindows(u) == map[0 := InventoryWindow, windowId := ChestWindow(n)]
      && |OpenWindows(u)| == 2
      && u.chest == Some(OpenChest(windowId, n, AwaitingSnapshot))
      && ChestView(u) == None
      && InventoryView(u) == InventoryView(t)
  {
    InventorySpotsNotChest();
    ItemsOfWithoutChest(t.contents, InventorySpots());
  }

  /**
   * CloseWindow for the open chest's id: only the inventory window is left
   * open, there are no chest spots, and the inventory is as it was. A
   * CloseWindow for any other id changes nothing.
   */
  lemma CloseChestWindow(types: map<int, WindowClass>, t: Tracker, windowId: int)
    ensures Step(types, t, CloseWindow(windowId)).Ok?
    ensures var u := Step(types, t, CloseWindow(windowId)).value;
      if t.chest.Some? && t.chest.value.windowId == windowId then
        && OpenWindows(u) == map[0 := InventoryWindow]
        && ChestView(u) == None
        && InventoryView(u) == InventoryView(t)
      else u == t
  {
    InventorySpotsNotChest();
    ItemsOfWithoutChest(t.contents, InventorySpots());
  }

  /** Filling a window's layout keeps every stored spot inside the open windows. */
  lemma FillKeepsInOpenWindows(t: Tracker, g: Target, items: Items)
    requires InOpenWindows(t) && Present(t, g)
    ensures InOpenWindows(t.(contents := Fill(t.contents, Layout(WindowOf(t, g)), items)))
  {
    var w := WindowOf(t, g);
    forall s | s in Layout(w)
      ensures Shows(w, s)
    {
      LayoutShows(w, s);
    }
  }

  /** Every packet keeps items only in spots of open windows. */
  lemma StepKeepsInOpenWindows(types: map<int, WindowClass>, t: Tracker, p: Packet)
    requires InOpenWindows(t)
    ensures Step(types, t, p).Ok? ==> InOpenWindows(Step(types, t, p).value)
  {
    match p
    case SetWindowItems(windowId, items) =>
      if TargetOf(t, windowId).Some? {
        FillKeepsInOpenWindows(t, TargetOf(t, windowId).value, items);
      }
    case SetSlot(windowId, spotId, item) =>
      if windowId != -1 && TargetOf(t, windowId).Some? {
        var g := TargetOf(t, windowId).value;
        var w := WindowOf(t, g);
        if 0 <= spotId < |Layout(w)| {
          SlotIsPosition(w, spotId);
        }
      }
    case _ =>
  }

  // ---------------------------------------------------------------------
  // Loading a window

  /** The SetSlot packets that follow a snapshot: one per non-empty entry below `k`, in slot id order. */
  function SlotPackets(windowId: int, items: Items, k: nat): (r: seq<Packet>)
    requires k <= |items|
    ensures forall i :: 0 <= i < |r| ==> r[i].SetSlot? && r[i].windowId == windowId
  {
    if k == 0 then []
    else SlotPackets(windowId, items, k - 1)
         + (if items[k - 1].Some? then [SetSlot(windowId, k - 1, items[k - 1])] else [])
  }

  /** What the server sends to load a window: the snapshot, then the SetSlots for the entries below `k`. */
  function LoadPackets(windowId: int, items: Items, k: nat): seq<Packet>
    requires k <= |items|
  {
    [SetWindowItems(windowId, items)] + SlotPackets(windowId, items, k)
  }

  /** The tracker once a window has its snapshot and the SetSlots below `k`: filled, awaiting the non-empty ids from `k` on. */
  function Loading(t: Tracker, g: Target, items: Items, k: nat): (r: Tracker)
    requires Present(t, g) && |items| == |Layout(WindowOf(t, g))| && k <= |items|
    ensures Present(r, g) && WindowOf(r, g) == WindowOf(t, g) && r.chest.Some? == t.chest.Some?
    ensures r.chest.Some? ==> r.chest.value.windowId == t.chest.value.windowId
    ensures OpenWindows(r) == OpenWindows(t)
  {
    WithLoad(t.(contents := Fill(t.contents, Layout(WindowOf(t, g)), items)), g,
             AwaitingSlots(Awaited(items, k, |items|)))
  }

  /**
   * Each SetSlot of the load finds its spot already holding the snapshot's
   * item and removes its id from the awaited ids; after the SetSlots below
   * `k`, exactly the non-empty ids from `k` on are awaited.
   */
  lemma {:induction false} LoadProgress(types: map<int, WindowClass>, t: Tracker, g: Target, windowId: int, items: Items, k: nat)
    requires windowId != -1 && TargetOf(t, windowId) == Some(g)
    requires |items| == |Layout(WindowOf(t, g))| && k <= |items|
    ensures Run(types, t, LoadPackets(windowId, items, k)) == Ok(Loading(t, g, items, k))
    decreases k
  {
    if k == 0 {
      SnapshotStep(types, t, g, windowId, items);
    } else {
      LoadProgress(types, t, g, windowId, items, k - 1);
      NextSlot(types, t, g, windowId, items, k - 1);
    }
  }

  /** One entry further: a SetSlot for a non-empty entry moves the load on; an empty entry sends nothing and awaits nothing. */
  lemma NextSlot(types: map<int, WindowClass>, t: Tracker, g: Target, windowId: int, items: Items, k: nat)
    requires windowId != -1 && TargetOf(t, windowId) == Some(g)
    requires |items| == |Layout(WindowOf(t, g))| && k < |items|
    requires Run(types, t, LoadPackets(windowId, items, k)) == Ok(Loading(t, g, items, k))
    ensures Run(types, t, LoadPackets(windowId, items, k + 1)) == Ok(Loading(t, g, items, k + 1))
  {
    if items[k].Some? {
      NextSlotFilled(types, t, g, windowId, items, k);
    } else {
      NextSlotEmpty(types, t, g, windowId, items, k);
    }
  }

  /** A non-empty entry: its SetSlot moves the load on by one id. */
  lemma NextSlotFilled(types: map<int, WindowClass>, t: Tracker, g: Target, windowId: int, items: Items, k: nat)
    requires windowId != -1 && TargetOf(t, windowId) == Some(g)
    requires |items| == |Layout(WindowOf(t, g))| && k < |items| && items[k].Some?
    requires Run(types, t, LoadPackets(windowId, items, k)) == Ok(Loading(t, g, items, k))
    ensures Run(types, t, LoadPackets(windowId, items, k + 1)) == Ok(Loading(t, g, items, k + 1))
  {
    var prev := LoadPackets(windowId, items, k);
    var p := SetSlot(windowId, k, items[k]);
    assert LoadPackets(windowId, items, k + 1) == prev + [p];
    RunLast(types, t, prev, p);
    SlotStep(types, t, g, windowId, items, k);
  }

  /** An empty entry: no SetSlot is sent, and it was never awaited. */
  lemma NextSlotEmpty(types: map<int, WindowClass>, t: Tracker, g: Target, windowId: int, items: Items, k: nat)
    requires Present(t, g)
    requires |items| == |Layout(WindowOf(t, g))| && k < |items| && items[k].None?
    requires Run(types, t, LoadPackets(windowId, items, k)) == Ok(Loading(t, g, items, k))
    ensures Run(types, t, LoadPackets(windowId, items, k + 1)) == Ok(Loading(t, g, items, k + 1))
  {
    assert LoadPackets(windowId, items, k + 1) == LoadPackets(windowId, items, k);
    assert Awaited(items, k, |items|) == Awaited(items, k + 1, |items|);
  }

  /** The snapshot on its own: the window is filled and awaits every non-empty id. */
  lemma SnapshotStep(types: map<int, WindowClass>, t: Tracker, g: Target, windowId: int, items: Items)
    requires TargetOf(t, windowId) == Some(g)
    requires |items| == |Layout(WindowOf(t, g))|
    ensures Run(types, t, LoadPackets(windowId, items, 0)) == Ok(Loading(t, g, items, 0))
  {
    RunLast(types, t, [], SetWindowItems(windowId, items));
    assert LoadPackets(windowId, items, 0) == [] + [SetWindowItems(windowId, items)];
    assert Step(types, t, SetWindowItems(windowId, items)) == Ok(Snapshot(t, g, items));
  }

  /** Pushing one packet and then `qs`: that packet's step, then the run of `qs`. */
  lemma RunFirst(types: map<int, WindowClass>, t: Tracker, p: Packet, qs: seq<Packet>)
    ensures Step(types, t, p).Ok? ==> Run(types, t, [p] + qs) == Run(types, Step(types, t, p).value, qs)
    ensures Step(types, t, p).Err? ==> Run(types, t, [p] + qs) == Step(types, t, p)
  {
    RunLast(types, t, [], p);
    assert [] + [p] == [p];
    RunAppend(types, t, [p], qs);
  }

  /** Pushing one more packet: the run so far, then that packet's step. */
  lemma RunLast(types: map<int, WindowClass>, t: Tracker, ps: seq<Packet>, p: Packet)
    ensures Run(types, t, ps + [p]) == match Run(types, t, ps)
                                       case Ok(u) => Step(types, u, p)
                                       case Err(e) => Err(e)
  {
    assert (ps + [p])[..|ps|] == ps;
  }

  /** The SetSlot for the next non-empty entry moves the load on by one id and leaves the spots as the snapshot set them. */
  lemma SlotStep(types: map<int, WindowClass>, t: Tracker, g: Target, windowId: int, items: Items, k: nat)
    requires windowId != -1 && TargetOf(t, windowId) == Some(g)
    requires |items| == |Layout(WindowOf(t, g))| && k < |items| && items[k].Some?
    ensures Step(types, Loading(t, g, items, k), SetSlot(windowId, k, items[k])) == Ok(Loading(t, g, items, k + 1))
  {
    var u := Loading(t, g, items, k);
    assert TargetOf(u, windowId) == Some(g);
    StepSetSlot(types, u, g, windowId, k, items[k]);
    SlotUpdateLoading(t, g, items, k);
  }

  lemma StepSetSlot(types: map<int, WindowClass>, t: Tracker, g: Target, windowId: int, spotId: int, item: Option<Item>)
    requires windowId != -1 && TargetOf(t, windowId) == Some(g)
    ensures Step(types, t, SetSlot(windowId, spotId, item)) == Ok(SlotUpdate(t, g, spotId, item))
  {
  }

  lemma SlotUpdateLoading(t: Tracker, g: Target, items: Items, k: nat)
    requires Present(t, g)
    requires |items| == |Layout(WindowOf(t, g))| && k < |items| && items[k].Some?
    ensures SlotUpdate(Loading(t, g, items, k), g, k, items[k]) == Loading(t, g, items, k + 1)
  {
    var layout := Layout(WindowOf(t, g));
    LayoutNoDuplicates(WindowOf(t, g));
    FillSets(t.contents, layout, items);
    var filled := Fill(t.contents, layout, items);
    assert Put(filled, layout[k], items[k]) == filled;
    ReceiveFirst(items, k, |items|);
  }

  /** A window has loaded exactly when no non-empty entry from `k` on is still awaited. */
  lemma LoadedWhenNothingAwaited(t: Tracker, g: Target, items: Items, k: nat)
    requires Present(t, g) && |items| == |Layout(WindowOf(t, g))| && k <= |items|
    ensures LoadOf(Loading(t, g, items, k), g).Loaded() <==> forall i :: k <= i < |items| ==> items[i].None?
  {
    var ids := Awaited(items, k, |items|);
    AwaitedMembers(items, k, |items|);
    if ids != [] {
      assert ids[0] in ids;
    }
  }

  /**
   * Loading a window: after its snapshot and all its SetSlots it has loaded
   * and its spots hold the snapshot's items, slot id by slot id.
   */
  lemma WindowLoads(types: map<int, WindowClass>, t: Tracker, g: Target, windowId: int, items: Items)
    requires windowId != -1 && TargetOf(t, windowId) == Some(g)
    requires |items| == |Layout(WindowOf(t, g))|
    ensures Run(types, t, LoadPackets(windowId, items, |items|)) == Ok(Loading(t, g, items, |items|))
    ensures var u := Loading(t, g, items, |items|);
      LoadOf(u, g).Loaded() && ItemsOf(u.contents, Layout(WindowOf(u, g))) == items
  {
    LoadProgress(types, t, g, windowId, items, |items|);
    LoadedWhenNothingAwaited(t, g, items, |items|);
    LayoutNoDuplicates(WindowOf(t, g));
    FillThenRead(t.contents, Layout(WindowOf(t, g)), items);
  }

  /** A snapshot with no items loads the window at once: there is nothing to await and every spot is empty. */
  lemma EmptySnapshotLoads(types: map<int, WindowClass>, t: Tracker, g: Target, windowId: int, items: Items)
    requires windowId != -1 && TargetOf(t, windowId) == Some(g)
    requires |items| == |Layout(WindowOf(t, g))|
    requires forall i :: 0 <= i < |items| ==> items[i].None?
    ensures Step(types, t, SetWindowItems(windowId, items)).Ok?
    ensures var u := Step(types, t, SetWindowItems(windowId, items)).value;
      LoadOf(u, g).Loaded() && forall s :: s in Layout(WindowOf(t, g)) ==> Get(u.contents, s) == None
  {
    LoadProgress(types, t, g, windowId, items, 0);
    assert LoadPackets(windowId, items, 0) == [SetWindowItems(windowId, items)];
    LoadedWhenNothingAwaited(t, g, items, 0);
    LayoutNoDuplicates(WindowOf(t, g));
    FillSets(t.contents, Layout(WindowOf(t, g)), items);
  }

  /** Until the last SetSlot of a non-empty snapshot arrives, the window has not loaded. */
  lemma NotLoadedWhileAwaiting(types: map<int, WindowClass>, t: Tracker, g: Target, windowId: int, items: Items, k: nat)
    requires windowId != -1 && TargetOf(t, windowId) == Some(g)
    requires |items| == |Layout(WindowOf(t, g))| && k < |items| && items[k].Some?
    ensures Run(types, t, LoadPackets(windowId, items, k)) == Ok(Loading(t, g, items, k))
    ensures !LoadOf(Loading(t, g, items, k), g).Loaded()
  {
    LoadProgress(types, t, g, windowId, items, k);
    LoadedWhenNothingAwaited(t, g, items, k);
  }

  /** The inventory window (id 0) loaded from a 45-entry snapshot: `inventory` is the snapshot from slot id 5 on. */
  lemma InventoryLoads(types: map<int, WindowClass>, t: Tracker, items: Items)
    requires TargetOf(t, 0) == Some(InventoryTarget) && |items| == 45
    ensures Run(types, t, LoadPackets(0, items, 45)).Ok?
    ensures InventoryView(Run(types, t, LoadPackets(0, items, 45)).value) == Some(items[5..])
  {
    InventoryTail();
    WindowLoads(types, t, InventoryTarget, 0, items);
    var u := Loading(t, InventoryTarget, items, 45);
    var l := Layout(InventoryWindow);
    ItemsOfSlice(u.contents, l, 5, 45);
    assert ItemsOf(u.contents, InventorySpots()) == items[5..45];
    assert items[5..] == items[5..45];
  }

  lemma InventoryTail()
    ensures |Layout(InventoryWindow)| == 45 && Layout(InventoryWindow)[5..45] == InventorySpots()
  {
    InventoryWindowLayout();
    assert Layout(InventoryWindow)[5..45] == Layout(InventoryWindow)[5..];
  }

  /** Reading a slice of a spot list is slicing what the whole list reads. */
  lemma ItemsOfSlice(c: map<SpotRef, Item>, spots: seq<SpotRef>, lo: nat, hi: nat)
    requires lo <= hi <= |spots|
    ensures ItemsOf(c, spots[lo..hi]) == ItemsOf(c, spots)[lo..hi]
  {
  }

  /** The open chest loaded from a snapshot of its `n` spots plus the 36 regular ones: `chest_spots` is the first `n` entries. */
  lemma ChestLoads(types: map<int, WindowClass>, t: Tracker, items: Items)
    requires t.chest.Some? && t.chest.value.windowId != -1
    requires |items| == t.chest.value.size + 36
    ensures Run(types, t, LoadPackets(t.chest.value.windowId, items, |items|)).Ok?
    ensures var u := Run(types, t, LoadPackets(t.chest.value.windowId, items, |items|)).value;
      && ChestView(u) == Some(items[..t.chest.value.size])
      && OpenWindows(u) == OpenWindows(t) && u.chest.Some? && u.chest.value.windowId == t.chest.value.windowId
  {
    var n := t.chest.value.size;
    ChestWindowLayout(n);
    WindowLoads(types, t, ChestTarget, t.chest.value.windowId, items);
    var u := Loading(t, ChestTarget, items, |items|);
    ItemsOfSlice(u.contents, Layout(ChestWindow(n)), 0, n);
  }

  /** Every member of the lifecycle in turn: open a chest, load it, close it. */
  lemma ChestLifecycle(types: map<int, WindowClass>, t: Tracker, windowId: int, title: string, items: Items)
    requires ChestTid in types && windowId != 0 && windowId != -1 && |items| >= 36
    ensures var ran := OpenAndLoad(windowId, title, items);
      && Run(types, t, ran).Ok?
      && OpenWindows(Run(types, t, ran).value) == map[0 := InventoryWindow, windowId := ChestWindow(|items| - 36)]
      && ChestView(Run(types, t, ran).value) == Some(items[..|items| - 36])
      && Run(types, t, ran + [CloseWindow(windowId)]).Ok?
      && OpenWindows(Run(types, t, ran + [CloseWindow(windowId)]).value) == map[0 := InventoryWindow]
      && ChestView(Run(types, t, ran + [CloseWindow(windowId)]).value) == None
  {
    ChestOpensAndLoads(types, t, windowId, title, items);
    var ran := OpenAndLoad(windowId, title, items);
    var u := Run(types, t, ran).value;
    RunLast(types, t, ran, CloseWindow(windowId));
    CloseChestWindow(types, u, windowId);
  }

  /** The server opens a chest of `|items| - 36` spots under `windowId` and loads it from `items`. */
  function OpenAndLoad(windowId: int, title: string, items: Items): seq<Packet>
    requires |items| >= 36
  {
    [OpenWindow(windowId, ChestTid, title, |items| - 36)] + LoadPackets(windowId, items, |items|)
  }

  /** Opening the chest succeeds, and the loading packets then act on the tracker it leaves. */
  lemma OpenThenLoad(types: map<int, WindowClass>, t: Tracker, windowId: int, title: string, items: Items)
    requires ChestTid in types && windowId != 0 && |items| >= 36
    ensures Step(types, t, OpenWindow(windowId, ChestTid, title, |items| - 36)).Ok?
    ensures Run(types, t, OpenAndLoad(windowId, title, items))
         == Run(types, Step(types, t, OpenWindow(windowId, ChestTid, title, |items| - 36)).value,
                LoadPackets(windowId, items, |items|))
  {
    var opening := OpenWindow(windowId, ChestTid, title, |items| - 36);
    var loads := LoadPackets(windowId, items, |items|);
    assert OpenAndLoad(windowId, title, items) == [opening] + loads;
    OpenChestWindow(types, t, windowId, title, |items| - 36);
    RunFirst(types, t, opening, loads);
  }

  lemma ChestOpensAndLoads(types: map<int, WindowClass>, t: Tracker, windowId: int, title: string, items: Items)
    requires ChestTid in types && windowId != 0 && windowId != -1 && |items| >= 36
    ensures Run(types, t, OpenAndLoad(windowId, title, items)).Ok?
    ensures var u := Run(types, t, OpenAndLoad(windowId, title, items)).value;
      && u.chest.Some? && u.chest.value.windowId == windowId
      && OpenWindows(u) == map[0 := InventoryWindow, windowId := ChestWindow(|items| - 36)]
      && ChestView(u) == Some(items[..|items| - 36])
  {
    var n := |items| - 36;
    OpenThenLoad(types, t, windowId, title, items);
    OpenChestWindow(types, t, windowId, title, n);
    var t1 := Step(types, t, OpenWindow(windowId, ChestTid, title, n)).value;
    assert t1.chest == Some(OpenChest(windowId, n, AwaitingSnapshot));
    ChestLoads(types, t1, items);
    var u := Run(types, t1, LoadPackets(windowId, items, |items|)).value;
    assert OpenWindows(u) == OpenWindows(t1);
  }

  // ---------------------------------------------------------------------
  // The tracker object

  /** The window family's tid table as the bot sets it up: the chest window class under tid 0. */
  method NewWindowTypes() returns (r: Registry<WindowClass>)
    ensures fresh(r) && r.name == WindowFamily && r.types == map[ChestTid := ChestWindowClass]
  {
    r := new Registry(WindowFamily);
    r.TidIs(ChestWindowClass, ChestTid);
  }

  /**
   * A snapshot applied spot by spot: each spot of the layout takes its entry,
   * and the slot id of each non-empty entry joins the awaited ids, in order.
   */
  method ApplySnapshot(c0: map<SpotRef, Item>, layout: seq<SpotRef>, items: Items)
    returns (c: map<SpotRef, Item>, awaiting: seq<nat>)
    ensures c == Fill(c0, layout, items)
    ensures awaiting == Awaited(items, 0, if |items| < |layout| then |items| else |layout|)
  {
    var n := if |items| < |layout| then |items| else |layout|;
    c := c0;
    awaiting := [];
    var i := 0;
    assert layout[..0] == [];
    while i < |layout|
      invariant 0 <= i <= |layout|
      invariant c == Fill(c0, layout[..i], items)
      invariant awaiting == Awaited(items, 0, if i < n then i else n)
    {
      var item := ItemAt(items, i);
      FillLast(c0, layout, items, i);
      c := Put(c, layout[i], item);
      if i < n {
        AwaitedLast(items, 0, i);
        if item.Some? {
          awaiting := awaiting + [i];
        }
      }
      i := i + 1;
    }
    assert layout[..i] == layout;
  }

  /**
   * `WindowTracker`: the tracker's state held in fields, updated in place by
   * each inbound packet exactly as `Step` says.
   */
  class WindowTracker {
    const windowTypes: Registry<WindowClass>
    var inventoryLoad: Load
    var chest: Option<OpenChest>
    var contents: map<SpotRef, Item>
    var cursor: Option<Item>
    var pending: seq<int>

    function State(): Tracker
      reads this
    {
      Tracker(inventoryLoad, chest, contents, cursor, pending)
    }

    /** The tid table is the window family's, and items are stored only in spots of open windows. */
    predicate Valid()
      reads this
    {
      windowTypes.name == WindowFamily && InOpenWindows(State())
    }

    constructor ()
      ensures Valid() && State() == Initial()
      ensures fresh(windowTypes) && windowTypes.types == map[ChestTid := ChestWindowClass]
    {
      var r := NewWindowTypes();
      windowTypes := r;
      inventoryLoad := AwaitingSnapshot;
      chest := None;
      contents := map[];
      cursor := None;
      pending := [];
    }

    /** `tracker << packet`: the new state is the step's, or on an error the old state and the error's message. */
    method Push(p: Packet) returns (error: Option<string>)
      requires Valid()
      modifies this
      ensures Valid()
      ensures match Step(windowTypes.types, old(State()), p)
              case Ok(u) => State() == u && error == None
              case Err(e) => State() == old(State()) && error == Some(e)
    {
      StepKeepsInOpenWindows(windowTypes.types, State(), p);
      error := None;
      match p
      case OpenWindow(windowId, inventoryType, _, spotCount) =>
        var made := windowTypes.Create(inventoryType, spotCount);
        if made.Err? {
          error := Some(made.error);
          return;
        }
        chest := Some(OpenChest(windowId, made.value.args, AwaitingSnapshot));
        contents := WithoutChestSpots(contents);
      case CloseWindow(windowId) =>
        if chest.Some? && chest.value.windowId == windowId {
          chest := None;
          contents := WithoutChestSpots(contents);
        }
      case SetWindowItems(windowId, items) =>
        var target := TargetOf(State(), windowId);
        if target.Some? {
          LoadSnapshot(target.value, items);
        }
      case SetSlot(windowId, spotId, item) =>
        if windowId == -1 {
          cursor := item;
        } else {
          var target := TargetOf(State(), windowId);
          if target.Some? {
            SetSpot(target.value, spotId, item);
          }
        }
      case _ =>
    }

    /**
     * A snapshot, spot by spot: each spot of the window's layout takes its
     * entry, and each non-empty entry's slot id joins the awaited ids.
     */
    method LoadSnapshot(g: Target, items: Items)
      requires Present(State(), g)
      modifies this
      ensures State() == Snapshot(old(State()), g, items)
    {
      var t0 := State();
      var c, awaiting := ApplySnapshot(t0.contents, Layout(WindowOf(t0, g)), items);
      var next := WithLoad(t0.(contents := c), g, AwaitingSlots(awaiting));
      assert Snapshot(t0, g, items) == next;
      contents := c;
      match g
      case InventoryTarget =>
        inventoryLoad := AwaitingSlots(awaiting);
      case ChestTarget =>
        chest := next.chest;
    }

    /** A SetSlot for a window: the spot at `spotId` takes the item and the id is no longer awaited. */
    method SetSpot(g: Target, spotId: int, item: Option<Item>)
      requires Present(State(), g)
      modifies this
      ensures State() == SlotUpdate(old(State()), g, spotId, item)
    {
      var t0 := State();
      var layout := Layout(WindowOf(t0, g));
      if 0 <= spotId < |layout| {
        contents := Put(t0.contents, layout[spotId], item);
        match g
        case InventoryTarget =>
          inventoryLoad := Received(t0.inventoryLoad, spotId);
        case ChestTarget =>
          chest := Some(t0.chest.value.(load := Received(t0.chest.value.load, spotId)));
      }
    }
  }
}
