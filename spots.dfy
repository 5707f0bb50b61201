/**
 * Spots and the wire slot-id layouts of the two window kinds.
 *
 * A spot is one item slot. Each logical slot has its own identity, written
 * here as a `SpotRef` value: the chest window shows the very same regular
 * spots as the player's inventory, so both layouts name them `Regular(k)`.
 */
module Spots {
  import opened Wrappers

  datatype SpotRef =
    | CraftingOutput
    | CraftingInput(row: nat, col: nat)
    | Helmet | Chestplate | Leggings | Boots
    | Regular(index: nat)
    | Chest(index: nat)

  /** `spots.uniq == spots`: no spot appears twice. */
  predicate NoDuplicates<T(==)>(s: seq<T>)
  {
    forall i, j :: 0 <= i < j < |s| ==> s[i] != s[j]
  }

  /** `Array#index`: the position of the first occurrence of `x`, if any. */
  function IndexOf<T(==)>(s: seq<T>, x: T): (r: Option<nat>)
    ensures r.Some? <==> x in s
    ensures r.Some? ==> r.value < |s| && s[r.value] == x
    ensures r.Some? ==> forall j :: 0 <= j < r.value ==> s[j] != x
  {
    if s == [] then None
    else if s[0] == x then Some(0)
    else match IndexOf(s[1..], x)
      case None => None
      case Some(k) => Some(k + 1)
  }

  /** `Array#-`: the elements of `a` that are not in `b`, in the order of `a`. */
  function Without(a: seq<SpotRef>, b: seq<SpotRef>): (r: seq<SpotRef>)
    ensures forall x :: x in r <==> x in a && x !in b
    ensures |r| <= |a|
  {
    if a == [] then [] else (if a[0] in b then [] else [a[0]]) + Without(a[1..], b)
  }

  /** When `b` holds exactly the elements of `a` from position `k` on, `a - b` is the first `k`. */
  lemma {:induction false} WithoutTail(a: seq<SpotRef>, b: seq<SpotRef>, k: nat)
    requires k <= |a|
    requires forall i :: 0 <= i < k ==> a[i] !in b
    requires forall i :: k <= i < |a| ==> a[i] in b
    ensures Without(a, b) == a[..k]
  {
    if a != [] {
      if k == 0 {
        WithoutTail(a[1..], b, 0);
      } else {
        WithoutTail(a[1..], b, k - 1);
        assert a[..k] == [a[0]] + a[1..][..k - 1];
      }
    }
  }

  // ---------------------------------------------------------------------
  // Inventory

  /** The 36 general-purpose spots, `Regular(0)` to `Regular(35)`. */
  function RegularSpots(): (r: seq<SpotRef>)
    ensures |r| == 36
    ensures forall i :: 0 <= i < 36 ==> r[i] == Regular(i)
  {
    seq(36, i requires 0 <= i => Regular(i))
  }

  /** The hotbar: the last 9 regular spots. */
  function HotbarSpots(): (r: seq<SpotRef>)
    ensures |r| == 9
  {
    RegularSpots()[27..]
  }

  /** Helmet, chestplate, leggings, boots: four distinct spots, none of them a regular spot. */
  function ArmorSpots(): (r: seq<SpotRef>)
    ensures |r| == 4 && NoDuplicates(r)
    ensures forall i :: 0 <= i < 4 ==> !r[i].Regular? && !r[i].Chest?
  {
    [Helmet, Chestplate, Leggings, Boots]
  }

  /** `Inventory#spots`: armor, then the regular spots. */
  function InventorySpots(): (r: seq<SpotRef>)
    ensures |r| == 40 && r[..4] == ArmorSpots() && r[4..] == RegularSpots()
  {
    ArmorSpots() + RegularSpots()
  }

  /** A spot is in the hotbar exactly when it is one of the regular spots 27 to 35. */
  lemma HotbarMembership(s: SpotRef)
    ensures s in HotbarSpots() <==> s.Regular? && 27 <= s.index < 36
  {
    var h := HotbarSpots();
    if s.Regular? && 27 <= s.index < 36 {
      assert h[s.index - 27] == s;
    }
  }

  /** Hotbar spot `k` is regular spot `27 + k`. */
  lemma HotbarIsLastNine(k: nat)
    requires k < 9
    ensures HotbarSpots()[k] == Regular(27 + k) == RegularSpots()[|RegularSpots()| - 9 + k]
  {
  }

  lemma InventoryNoDuplicates()
    ensures |InventorySpots()| == 40
    ensures NoDuplicates(InventorySpots())
    ensures NoDuplicates(RegularSpots()) && NoDuplicates(HotbarSpots())
  {
    var s := InventorySpots();
    forall i, j | 0 <= i < j < |s|
      ensures s[i] != s[j]
    {
      if j >= 4 {
        assert s[j] == Regular(j - 4);
      }
    }
  }

  // ---------------------------------------------------------------------
  // InventoryCrafting

  /** Upper left, upper right, lower left, lower right. */
  function InputSpots(): seq<SpotRef>
  {
    [CraftingInput(0, 0), CraftingInput(0, 1), CraftingInput(1, 0), CraftingInput(1, 1)]
  }

  /** `input_spot(row, col)`: the input spot at a row and a column of the 2x2 grid. */
  function InputSpot(row: nat, col: nat): (s: SpotRef)
    requires row < 2 && col < 2
    ensures s == InputSpots()[2 * row + col]
  {
    CraftingInput(row, col)
  }

  /** `InventoryCrafting#spots`: the output, then the four inputs, five distinct spots. */
  function CraftingSpots(): (r: seq<SpotRef>)
    ensures |r| == 5 && NoDuplicates(r)
    ensures r[0] == CraftingOutput && r[1..] == InputSpots()
  {
    [CraftingOutput] + InputSpots()
  }

  // ---------------------------------------------------------------------
  // Windows

  /** The two window kinds: the permanent inventory window and a chest of `size` spots. */
  datatype Window = InventoryWindow | ChestWindow(size: nat)

  function ChestSpots(n: nat): (r: seq<SpotRef>)
    ensures |r| == n
    ensures forall i :: 0 <= i < n ==> r[i] == Chest(i)
  {
    seq(n, i requires 0 <= i => Chest(i))
  }

  /** The regular spots as both windows list them: those before the hotbar, then the hotbar. */
  function PlayerSpots(): seq<SpotRef>
  {
    RegularSpots()[..27] + HotbarSpots()
  }

  /** The spots a window lists before the player's regular spots. */
  function Head(w: Window): seq<SpotRef>
  {
    match w
    case InventoryWindow => CraftingSpots() + ArmorSpots()
    case ChestWindow(n) => ChestSpots(n)
  }

  /**
   * A window's full spot list; a spot's position in it is its wire slot id.
   * Inventory window: crafting, armor, regular minus hotbar, hotbar.
   * Chest window: the chest spots, regular minus hotbar, hotbar.
   */
  function Layout(w: Window): (r: seq<SpotRef>)
    ensures |r| == HeadSize(w) + 36
    ensures r[..HeadSize(w)] == Head(w) && r[HeadSize(w)..] == RegularSpots()
  {
    PlayerSpotsInOrder();
    Head(w) + PlayerSpots()
  }

  /** `spot_id(spot)`: the slot id of a spot in a window, if the window shows it. */
  function SpotId(w: Window, s: SpotRef): (r: Option<nat>)
    ensures r.Some? <==> s in Layout(w)
    ensures r.Some? ==> r.value < |Layout(w)| && Layout(w)[r.value] == s
  {
    IndexOf(Layout(w), s)
  }

  /**
   * Both windows list `regular - hotbar`, then the hotbar. Because the hotbar is
   * the tail of the regular spots, that is the regular spots in index order.
   */
  lemma PlayerSpotsInOrder()
    ensures Without(RegularSpots(), HotbarSpots()) == RegularSpots()[..27]
    ensures PlayerSpots() == Without(RegularSpots(), HotbarSpots()) + HotbarSpots()
    ensures PlayerSpots() == RegularSpots()
  {
    InventoryNoDuplicates();
    WithoutOwnTail(RegularSpots(), 27);
    assert RegularSpots()[..27] + RegularSpots()[27..] == RegularSpots();
  }

  /** Removing its own tail from a list without duplicates leaves the head. */
  lemma WithoutOwnTail(a: seq<SpotRef>, k: nat)
    requires k <= |a| && NoDuplicates(a)
    ensures Without(a, a[k..]) == a[..k]
  {
    forall i | 0 <= i < k
      ensures a[i] !in a[k..]
    {
    }
    forall i | k <= i < |a|
      ensures a[i] in a[k..]
    {
      assert a[k..][i - k] == a[i];
    }
    WithoutTail(a, a[k..], k);
  }

  /** The number of spots a window lists before the player's regular spots. */
  function HeadSize(w: Window): nat
  {
    match w
    case InventoryWindow => 9
    case ChestWindow(n) => n
  }

  /** A window lists its head, then the 36 regular spots in index order. */
  lemma LayoutSplit(w: Window)
    ensures |Head(w)| == HeadSize(w)
    ensures Layout(w) == Head(w) + RegularSpots()
  {
    PlayerSpotsInOrder();
  }

  /** Slot id `i` is the head's spot `i` below `HeadSize`, and regular spot `i - HeadSize` after it. */
  lemma LayoutAt(w: Window, i: nat)
    requires i < |Layout(w)|
    ensures |Layout(w)| == HeadSize(w) + 36
    ensures i < HeadSize(w) ==> Layout(w)[i] == Head(w)[i]
    ensures i >= HeadSize(w) ==> Layout(w)[i] == Regular(i - HeadSize(w))
  {
    LayoutSplit(w);
  }

  /** The inventory window's ids 0-44, as the slot diagram of the protocol numbers them. */
  lemma InventoryWindowLayout()
    ensures |Layout(InventoryWindow)| == 45
    ensures Layout(InventoryWindow)[0] == CraftingOutput
    ensures Layout(InventoryWindow)[1..5] == InputSpots()
    ensures Layout(InventoryWindow)[5..9] == ArmorSpots()
    ensures Layout(InventoryWindow)[9..36] == RegularSpots()[..27]
    ensures Layout(InventoryWindow)[36..45] == HotbarSpots()
    ensures Layout(InventoryWindow)[5..] == InventorySpots()
  {
    var l := Layout(InventoryWindow);
    LayoutSplit(InventoryWindow);
    assert l[9..36] == RegularSpots()[..27] by {
      assert l[9..36] == l[9..][..27];
    }
    assert l[36..45] == HotbarSpots() by {
      assert l[36..45] == l[9..][27..];
    }
    assert l[1..5] == InputSpots() by {
      assert l[1..5] == l[..9][1..5];
    }
    assert l[5..9] == ArmorSpots() by {
      assert l[5..9] == l[..9][5..9];
    }
    assert l[5..] == l[5..9] + l[9..];
  }

  /** A chest window of `n` spots: ids below `n` are the chest, then the regular spots minus the hotbar, then the hotbar. */
  lemma ChestWindowLayout(n: nat)
    ensures |Layout(ChestWindow(n))| == n + 36
    ensures Layout(ChestWindow(n))[..n] == ChestSpots(n)
    ensures Layout(ChestWindow(n))[n..n + 27] == RegularSpots()[..27]
    ensures Layout(ChestWindow(n))[n + 27..] == HotbarSpots()
    ensures Layout(ChestWindow(n))[n..] == RegularSpots()
  {
    var l := Layout(ChestWindow(n));
    LayoutSplit(ChestWindow(n));
    assert l[n..n + 27] == l[n..][..27];
    assert l[n + 27..] == l[n..][27..];
  }

  /** Which spots a window shows, without searching its layout. */
  predicate Shows(w: Window, s: SpotRef)
  {
    match s
    case CraftingOutput | Helmet | Chestplate | Leggings | Boots => w.InventoryWindow?
    case CraftingInput(row, col) => w.InventoryWindow? && row < 2 && col < 2
    case Regular(k) => k < 36
    case Chest(k) => w.ChestWindow? && k < w.size
  }

  /** The slot id of every spot a window shows, computed from its kind and index. */
  function SlotOf(w: Window, s: SpotRef): nat
    requires Shows(w, s)
  {
    match s
    case CraftingOutput => 0
    case CraftingInput(row, col) => 1 + 2 * row + col
    case Helmet => 5
    case Chestplate => 6
    case Leggings => 7
    case Boots => 8
    case Regular(k) => HeadSize(w) + k
    case Chest(k) => k
  }

  /** The spot at slot id `i` is shown by the window, and `SlotOf` gives back `i`. */
  lemma SlotIsPosition(w: Window, i: nat)
    requires i < |Layout(w)|
    ensures Shows(w, Layout(w)[i]) && SlotOf(w, Layout(w)[i]) == i
  {
    LayoutAt(w, i);
  }

  /** A spot the window shows sits at slot id `SlotOf`. */
  lemma PositionOfSlot(w: Window, s: SpotRef)
    requires Shows(w, s)
    ensures SlotOf(w, s) < |Layout(w)| && Layout(w)[SlotOf(w, s)] == s
  {
    LayoutSplit(w);
    if !s.Regular? {
      assert Layout(w)[SlotOf(w, s)] == Head(w)[SlotOf(w, s)];
    }
  }

  /** The layout lists exactly the spots the window shows. */
  lemma LayoutShows(w: Window, s: SpotRef)
    ensures s in Layout(w) <==> Shows(w, s)
  {
    if s in Layout(w) {
      var i :| 0 <= i < |Layout(w)| && Layout(w)[i] == s;
      SlotIsPosition(w, i);
    }
    if Shows(w, s) {
      PositionOfSlot(w, s);
    }
  }

  lemma LayoutNoDuplicates(w: Window)
    ensures NoDuplicates(Layout(w))
  {
    var l := Layout(w);
    forall i, j | 0 <= i < j < |l|
      ensures l[i] != l[j]
    {
      SlotIsPosition(w, i);
      SlotIsPosition(w, j);
    }
  }

  /** `spot_id` inverts the layout: the spot at slot id `i` has spot id `i`. */
  lemma SpotIdInvertsLayout(w: Window, i: nat)
    requires i < |Layout(w)|
    ensures SpotId(w, Layout(w)[i]) == Some(i)
  {
    LayoutNoDuplicates(w);
  }

  /** `spot_id` of any spot: present exactly for the spots the window shows, and equal to `SlotOf`. */
  lemma SpotIdOfShown(w: Window, s: SpotRef)
    ensures SpotId(w, s).Some? <==> Shows(w, s)
    ensures Shows(w, s) ==> SpotId(w, s) == Some(SlotOf(w, s))
  {
    LayoutShows(w, s);
    if Shows(w, s) {
      PositionOfSlot(w, s);
      SpotIdInvertsLayout(w, SlotOf(w, s));
    }
  }

  /** The ids the chest and inventory windows give: chest[5] is 5, regular[3] is 30 and regular[35] is 62 in a small chest; hotbar[0] is 36 in the inventory window. */
  lemma SpotIdExamples()
    ensures SpotId(ChestWindow(27), ChestSpots(27)[5]) == Some(5)
    ensures SpotId(ChestWindow(27), RegularSpots()[3]) == Some(27 + 3)
    ensures SpotId(ChestWindow(27), RegularSpots()[35]) == Some(62)
    ensures SpotId(InventoryWindow, HotbarSpots()[0]) == Some(36)
    ensures |Layout(ChestWindow(27))| == 63 && |Layout(ChestWindow(54))| == 90
  {
    SpotIdOfShown(ChestWindow(27), Chest(5));
    SpotIdOfShown(ChestWindow(27), Regular(3));
    SpotIdOfShown(ChestWindow(27), Regular(35));
    SpotIdOfShown(InventoryWindow, Regular(27));
    LayoutSplit(ChestWindow(27));
    LayoutSplit(ChestWindow(54));
  }
}
