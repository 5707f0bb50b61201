# redstone-bot2 core in Dafny

This project models three parts of redstone-bot2, a Ruby bot that plays Minecraft over the network protocol.

- **The type-id registry (`HasTids`).** A class family keeps its own table from a small integer "tid" to a member class. `tid_is` fills the table, `tid` reads a class's id, and `create` looks up a tid. For an unknown tid, `create` raises `Unrecognized type of <family>: <tid>`.
- **The binary layouts of four world-update packets.** These are BlockChange, ChunkAllocation, MultiBlockChange and ChunkData. The model covers:
  - the big-endian `Array#pack` layouts that the test factories write;
  - the decoders that read them back;
  - the chunk-id rule: floor-divide by 16, then multiply by 16.
- **The window model and the window tracker.** This part covers:
  - the spots of the inventory and of the 2x2 crafting grid;
  - the wire slot-id layouts of the inventory window and of a chest window;
  - `spot_id`;
  - the tracker's reaction to OpenWindow, CloseWindow, SetWindowItems and SetSlot;
  - when a window counts as loaded;
  - what `inventory`, `open_windows` and `chest_spots` report;
  - `wield`, which selects a hotbar spot and sends HeldItemChange.

The files:

| file | module | contents |
|---|---|---|
| `wrappers.dfy` | `Wrappers` | `Option` and `Result` |
| `has_tids.dfy` | `HasTids` | the `Registry` class (per-family table) and `Lookup`; the decimal spelling of a tid |
| `big_endian.dfy` | `BigEndian` | the `C`, `S>`, `s>` and `l>` fields, with wrap-around to their width; readers that return the value and the remaining bytes |
| `packet_codec.dfy` | `PacketCodec` | the encoders, decoders and factories of the four packets; the round-trip lemmas |
| `spots.dfy` | `Spots` | the spot identities, the inventory and crafting spot lists, the window layouts and `spot_id` |
| `packets.dfy` | `Packets` | items and the window-protocol packets the tracker reads |
| `window_tracker.dfy` | `Windows` | the tracker state, `Step` (one packet) and `Run` (a sequence); the loading and chest-lifecycle lemmas; the `WindowTracker` class, whose methods update its fields as `Step` says |
| `wielding.dfy` | `Wielding` | the hotbar choice; the `Bot` class and its `Wield` method |

### Identity of spots

A spot is a `SpotRef` value such as `Regular(k)`, `Chest(k)`, `Helmet` or `CraftingInput(row, col)`. In the bot, the chest window shows the very same spot objects as the player's inventory. The model expresses this by naming: both layouts list `Regular(0)` to `Regular(35)`. Spot contents live once, in the tracker's map from `SpotRef` to `Item`, so an update through either window is seen by both.

### Layout details fixed by the tests

- **MultiBlockChange coordinates.** The decoder returns x and z relative to the chunk, as `spec/packet_spec.rb:71-76` expects: `z = 23` comes back as `7`.
- **BlockChange block type.** The block type is one byte (`C`), as `spec/packet_spec.rb:6` packs it.
- **Wrap-around.** `Array#pack` keeps only the low bytes of an integer that does not fit its field. The factories therefore accept any integers and any number of changes, and what they report is the value each field holds after wrapping. For MultiBlockChange from 65536 changes on, the wrapped `S>` count disagrees with the byte length, and the decoder refuses the packet.
- **Inventory loading.** After its snapshot, the inventory window waits for a SetSlot for every non-empty entry. The chest window waits in the same way (`spec/window_tracker_spec.rb:205-217`).

## Model

| member | source | states |
|---|---|---|
| HasTids.Registry.constructor | lib/redstone_bot/has_tids.rb:6-9 | a family extended with HasTids starts with its own empty table |
| HasTids.Registry.TidIs | lib/redstone_bot/has_tids.rb:12-15 | after `tid_is(t)` the table maps t to the class and the class's tid is t; other entries keep their classes and a re-registration of t wins |
| HasTids.Registry.Tid | lib/redstone_bot/has_tids.rb:17 | the tid reader is nil exactly for a class that never called `tid_is`, else the registered tid |
| HasTids.Registry.Create | lib/redstone_bot/has_tids.rb:20-22 | `create` succeeds exactly for a tid in the table, builds that class with the given arguments, and otherwise fails with the family's message; it only reads the table |
| HasTids.Lookup | lib/redstone_bot/has_tids.rb:20-22 | lookup-then-construct over a given table: success iff the tid is registered, else the ArgumentError message |
| HasTids.SeparateFamilies | lib/redstone_bot/has_tids.rb:6-9 | two families have separate tables: a registration in one leaves the other empty, with `create` failing there |
| HasTids.UnrecognizedMessage | lib/redstone_bot/has_tids.rb:21 | the message starts with "Unrecognized type of <family>: " and ends with the tid in decimal |
| HasTids.UnrecognizedMessageNamesTid | lib/redstone_bot/has_tids.rb:21 | two different tids never produce the same error message |
| HasTids.IntToDecimalInjective | lib/redstone_bot/has_tids.rb:21 | the interpolated decimal spelling of a tid is injective, negatives included |
| HasTids.NatToDecimalRoundTrip | lib/redstone_bot/has_tids.rb:21 | reading back the decimal spelling gives the number |
| BigEndian.ReadUnsigned | spec/packet_spec.rb:6 | an unsigned field read succeeds iff enough bytes remain, gives a value within the width, and leaves exactly the bytes after the field |
| BigEndian.ReadSigned | spec/packet_spec.rb:6 | a two's-complement field read succeeds iff enough bytes remain, gives a value within the signed range, and leaves the bytes after the field |
| BigEndian.Pack | spec/packet_spec.rb:6 | a packed field has exactly the width of its directive |
| BigEndian.FromToBytes | spec/packet_spec.rb:6 | reading the big-endian bytes of a value of the width gives the value |
| BigEndian.ToFromBytes | spec/packet_spec.rb:6 | writing the value of a byte string gives back the bytes |
| BigEndian.ReadPackUnsigned | spec/packet_spec.rb:6 | unpacking a `C`/`S>` field gives the packed value wrapped to its width, and the bytes after it |
| BigEndian.ReadPackSigned | spec/packet_spec.rb:6 | unpacking an `l>`/`s>` field gives the packed value wrapped to the signed range, and the bytes after it |
| BigEndian.PackReadUnsigned | spec/packet_spec.rb:6 | packing an unsigned value just read gives back the bytes read |
| BigEndian.PackReadSigned | spec/packet_spec.rb:6 | packing a signed value just read gives back the bytes read |
| BigEndian.WrapSignedInRange | spec/packet_spec.rb:6 | a value the signed field can hold survives packing unchanged |
| BigEndian.ReadBytes | spec/packet_spec.rb:33 | reading n opaque bytes succeeds iff n bytes remain, and splits the input into those n bytes and the rest |
| BigEndian.WrapUnsignedInRange | spec/packet_spec.rb:6 | a value the unsigned field can hold survives packing unchanged |
| PacketCodec.ChunkOrigin | spec/packet_spec.rb:45 | the chunk origin of a coordinate is a multiple of 16 within 16 cells at or below it (floor division) |
| PacketCodec.ChunkOriginUnique | spec/packet_spec.rb:45 | that multiple of 16 is unique, so the chunk origin is the floor rule and nothing else |
| PacketCodec.ChunkOriginExamples | spec/packet_spec.rb:45 | 70 and 900 give 64 and 896; -1 gives -16 |
| PacketCodec.EncodeBlockChange | spec/packet_spec.rb:5-7 | the `l>Cl>CC` layout is 11 bytes |
| PacketCodec.DecodeBlockChange | spec/packet_spec.rb:40-47 | decoding succeeds iff 11 bytes are there, gives fields within their widths, and leaves the bytes after them |
| PacketCodec.BlockChangeRoundTrip | spec/packet_spec.rb:5-7 | decoding an encoded BlockChange followed by any bytes gives back x, y, z, type and metadata (each wrapped to its width) and those bytes |
| PacketCodec.BlockChangeBytesRoundTrip | spec/packet_spec.rb:5-7 | any 11 bytes are the encoding of what they decode to |
| PacketCodec.CreateBlockChange | spec/packet_spec.rb:5-7 | `BlockChange.create` gives each field as packing wraps it to its width, so every field fits, and exactly the given fields when they already fit |
| PacketCodec.BlockChangeExample | spec/packet_spec.rb:40-47 | the change at (70, 80, 900), type 44, metadata 3 decodes to those values with chunk id (64, 896) |
| PacketCodec.DecodeChunkAllocation | spec/packet_spec.rb:52-59 | decoding succeeds iff 9 bytes are there, and the chunk id it reports is a multiple of 16 on both axes |
| PacketCodec.EncodeChunkAllocation | spec/packet_spec.rb:9-11 | the `l>l>C` layout is 9 bytes |
| PacketCodec.ChunkAllocationRoundTrip | spec/packet_spec.rb:9-11 | for any chunk id, decoding the `l>l>C` bytes gives back the mode and each chunk index as its 32-bit field holds it, times 16 |
| PacketCodec.WrappedChunkOrigin | spec/packet_spec.rb:10 | a chunk index that fits an int32 survives its field, so the coordinate comes back as its chunk origin |
| PacketCodec.CreateChunkAllocation | spec/packet_spec.rb:9-11 | `ChunkAllocation.create` keeps the mode and reports each chunk index wrapped to 32 bits, times 16; for indices that fit, the chunk origin of the given chunk id |
| PacketCodec.ChunkAllocationExample | spec/packet_spec.rb:52-59 | chunk (112, 128) comes back as (112, 128), with mode true or false as given |
| PacketCodec.EncodeMultiBlockChange | spec/packet_spec.rb:18-23 | the packet exists iff there is a first change; it is a 14-byte header plus 4 bytes per change |
| PacketCodec.EncodeRecord | spec/packet_spec.rb:22 | one change takes one 4-byte `CCs>` record |
| PacketCodec.EncodeRecords | spec/packet_spec.rb:21-23 | each change takes one 4-byte `CCs>` record |
| PacketCodec.DecodeRecord | spec/packet_spec.rb:71-76 | a record read succeeds iff 4 bytes remain and leaves the bytes after them |
| PacketCodec.DecodeRecords | spec/packet_spec.rb:71-76 | reading n records gives n changes |
| PacketCodec.DecodeMultiBlockChange | spec/packet_spec.rb:20 | a decoded packet holds fewer than 65536 records, the count being a `S>` field |
| PacketCodec.RecordRoundTrip | spec/packet_spec.rb:22 | a record decodes to x%16, y, z%16, the type and metadata&0xF |
| PacketCodec.RecordsRoundTrip | spec/packet_spec.rb:21-23 | n records decode, in order, to the changes relative to their chunk |
| PacketCodec.RecordsPrefixRoundTrip | spec/packet_spec.rb:21-23 | reading the first k of n encoded records gives the first k changes relative to their chunk, and leaves the other records' bytes |
| PacketCodec.ReadMultiBlockChangeHeader | spec/packet_spec.rb:20 | the header fields (chunk x/16, chunk z/16, count, 4 x count) read back as written |
| PacketCodec.ReadWrappedHeader | spec/packet_spec.rb:20 | for any number of changes, the header reads back the chunk indices, the count modulo 65536 and four times the count wrapped to `l>` |
| PacketCodec.MultiBlockChangeDecodes | spec/packet_spec.rb:18-23 | for any number of changes, the packet is refused with `BadLength` when the wrapped count and byte length disagree, and otherwise gives the first change's chunk and the first (count modulo 65536) changes relative to it |
| PacketCodec.MultiBlockChangeRoundTrip | spec/packet_spec.rb:18-23 | decoding an encoded MultiBlockChange gives the first change's chunk and every change, in order, with x and z reduced modulo 16 |
| PacketCodec.CreateOne | spec/packet_spec.rb:15 | a built change is kept; a described one comes out with each field wrapped to its width |
| PacketCodec.CreateAll | spec/packet_spec.rb:14-16 | the intended collected list: one change per entry, in order |
| PacketCodec.CollectAsWritten | spec/packet_spec.rb:14-16 | the collect as written gives one entry per element of the list |
| PacketCodec.CollectAsWrittenLosesBuilt | spec/packet_spec.rb:14-16 | as written, the collect agrees with the intended list exactly when no entry is already built; each built entry becomes nil |
| PacketCodec.BuiltChangeIsLost | spec/packet_spec.rb:14-16 | a single already-built change is collected as nil by the code as written, and kept by the corrected one |
| PacketCodec.CreateMultiBlockChange | spec/packet_spec.rb:13-26 | `MultiBlockChange.create` gives no packet for an empty list; otherwise it is refused exactly when the `S>` count and the `l>` byte length disagree after wrapping, and when accepted reports the first created change's chunk id and the first (count modulo 65536) changes relative to it, in order |
| PacketCodec.MultiBlockChangeCount | spec/packet_spec.rb:20 | fewer than 65536 changes give the packet with every change; from 65536 changes up to 2^29 the wrapped count is refused with the byte length 4 x count |
| PacketCodec.MultiBlockChangeExample | spec/packet_spec.rb:64-76 | four changes of the column at (10, 23) come back with chunk id (0, 16) as (10, y, 7) in order, type and metadata intact |
| PacketCodec.EncodeChunkData | spec/packet_spec.rb:28-35 | the `l>l>CS>S>l>l>` header is 21 bytes and is followed by exactly the payload |
| PacketCodec.DecodeChunkData | spec/packet_spec.rb:84-96 | a decoded packet's bit maps are 16-bit; its payload is exactly the bytes after the 21-byte header, and the rest of the stream follows the payload |
| PacketCodec.DecodeChunkDataFields | spec/packet_spec.rb:84-96 | given the seven header reads, decoding refuses a negative length, runs out of stream when too few bytes follow, and otherwise takes exactly that many payload bytes |
| PacketCodec.ChunkDataDecodes | spec/packet_spec.rb:28-35 | for any arguments, decoding the factory's bytes gives every header field as its field holds it; the wrapped length field then decides between a refusal, the end of the stream, or the payload read |
| PacketCodec.ChunkDataRoundTrip | spec/packet_spec.rb:28-35 | for a payload shorter than 2^31 bytes, decoding gives back the flag, both bit maps and chunk indices as their fields hold them, exactly the payload bytes, and the bytes after it |
| PacketCodec.CreateChunkData | spec/packet_spec.rb:28-35 | `ChunkData.create` keeps the flag, wraps the bit maps to 16 bits and the chunk indices to 32 bits (the chunk origin when they fit), keeps a payload shorter than 2^31 bytes, and is refused when the payload's length field wraps negative |
| PacketCodec.ChunkDataExample | spec/packet_spec.rb:84-96 | bit maps 0xFFFF/5 and 6/0xAAAA survive unchanged, with chunk id (96, 256) |
| Spots.IndexOf | spec/window_tracker_spec.rb:133-137 | the position found holds the spot and is its first occurrence; none iff the spot is absent |
| Spots.Without | spec/window_tracker_spec.rb:87-88 | `a - b` keeps exactly the elements of a not in b |
| Spots.RegularSpots | spec/window_tracker_spec.rb:13-15 | the inventory has 36 regular spots |
| Spots.HotbarSpots | spec/window_tracker_spec.rb:17-19 | there are 9 hotbar spots |
| Spots.HotbarIsLastNine | spec/window_tracker_spec.rb:21-24 | hotbar spot k is regular spot 27 + k: the hotbar is the last nine regular spots |
| Spots.HotbarMembership | spec/window_tracker_spec.rb:21-24 | a spot is in the hotbar iff it is one of regular spots 27 to 35 |
| Spots.ArmorSpots | spec/window_tracker_spec.rb:26-28 | four distinct armor spots, none of them a regular or chest spot |
| Spots.InventorySpots | spec/window_tracker_spec.rb:30-32 | the inventory's spots are the 4 armor spots, then the 36 regular spots |
| Spots.InventoryNoDuplicates | spec/window_tracker_spec.rb:30-36 | the inventory's 40 spots (armor, then regular) have no duplicates |
| Spots.InputSpot | spec/window_tracker_spec.rb:53-58 | `input_spot(row, col)` is `input_spots[2 * row + col]` |
| Spots.CraftingSpots | spec/window_tracker_spec.rb:64-70 | the crafting spots are the output, then the four inputs: five spots, no duplicates |
| Spots.PlayerSpotsInOrder | spec/window_tracker_spec.rb:86-89 | `regular - hotbar` is the first 27 regular spots, so both windows list the regular spots in index order |
| Spots.InventoryWindowLayout | spec/window_tracker_spec.rb:91-104 | inventory window ids: 0 output, 1-4 inputs, 5-8 armor, 9-35 regular minus hotbar, 36-44 hotbar |
| Spots.ChestWindowLayout | spec/window_tracker_spec.rb:126-131 | chest window ids: the n chest spots, then regular minus hotbar, then the hotbar; n + 36 in all |
| Spots.ChestSpots | spec/window_tracker_spec.rb:113-115 | a chest of n spots has n chest spots, numbered in order |
| Spots.Layout | spec/window_tracker_spec.rb:86-131 | a window lists its head (crafting and armor, or the chest spots), then the 36 regular spots in index order |
| Spots.LayoutAt | spec/window_tracker_spec.rb:117-120 | after its head, a window shows the player's 36 regular spots |
| Spots.SpotId | spec/window_tracker_spec.rb:133-137 | `spot_id` is defined iff the window shows the spot, and the layout holds the spot at that id |
| Spots.SpotIdInvertsLayout | spec/window_tracker_spec.rb:133-137 | `spot_id` of the spot at slot id i is i |
| Spots.SpotIdOfShown | spec/window_tracker_spec.rb:133-137 | `spot_id` is computed from the spot's kind and index |
| Spots.LayoutShows | spec/window_tracker_spec.rb:126-131 | a layout lists exactly the spots its window shows |
| Spots.LayoutNoDuplicates | spec/window_tracker_spec.rb:91-104 | no window lists a spot twice |
| Spots.SpotIdExamples | spec/window_tracker_spec.rb:122-137 | in a small chest, chest[5] is 5, regular[3] is 30 and regular[35] is 62; 63 spots small, 90 large |
| Windows.Put | spec/window_tracker_spec.rb:159-163 | setting a spot changes that spot and no other |
| Windows.FillSets | spec/window_tracker_spec.rb:159-160 | after a snapshot, slot id i holds entry i and spots outside the layout are unchanged |
| Windows.FillThenRead | spec/window_tracker_spec.rb:278 | reading the spots of a window just filled gives back the snapshot |
| Windows.ItemsOf | spec/window_tracker_spec.rb:278 | `spots.items` has one entry per spot, each that spot's item |
| Windows.AwaitedMembers | spec/window_tracker_spec.rb:205-213 | the awaited slot ids are exactly the non-empty entries of the snapshot |
| Windows.Remove | spec/window_tracker_spec.rb:210-213 | removing an id from the awaited list keeps every other id |
| Windows.ReceiveFirst | spec/window_tracker_spec.rb:210-213 | a SetSlot for the first awaited id leaves the later ones awaited |
| Windows.TargetOf | spec/window_tracker_spec.rb:228 | a window id that addresses the chest needs an open chest |
| Windows.TargetOfCases | spec/window_tracker_spec.rb:228 | an id addresses the chest iff the open chest has that id; it addresses the inventory iff it is 0 and the open chest does not have id 0; it addresses nothing iff it is neither 0 nor the open chest's id |
| Windows.Snapshot | spec/window_tracker_spec.rb:159-160 | SetWindowItems keeps the addressed window, leaves it awaiting SetSlots, and changes neither the cursor, nor the pending actions, nor the other window's load |
| Windows.SnapshotFills | spec/window_tracker_spec.rb:159-160 | after a snapshot, slot id i holds entry i (empty past the snapshot's end), other spots keep their items, and the awaited ids are the window's non-empty entries |
| Windows.SlotUpdate | spec/window_tracker_spec.rb:161-163 | SetSlot puts the item at the spot of the slot id and stops awaiting that id; an id outside the layout changes nothing |
| Windows.SlotUpdateKeepsOthers | spec/window_tracker_spec.rb:161-163 | SetSlot changes no spot other than the one it names |
| Windows.Step | spec/window_tracker_spec.rb:155-164 | `<<` fails iff the packet is an OpenWindow of an unregistered type, with the family's message, and never changes the pending actions |
| Windows.Run | spec/window_tracker_spec.rb:155-164 | a run of packets never changes the pending actions |
| Windows.RunFailsOnlyOnUnknownWindow | spec/window_tracker_spec.rb:76-78 | a run fails only at an OpenWindow whose type has no window class |
| Windows.WithoutChestSpots | spec/window_tracker_spec.rb:287-293 | closing a chest drops its spots and keeps every other spot |
| Windows.RunAppend | spec/window_tracker_spec.rb:155-164 | pushing two packet sequences one after the other is pushing their concatenation |
| Windows.OpenWindows | spec/window_tracker_spec.rb:171-173 | `open_windows` always holds id 0, holds exactly the ids a packet can address, and maps each to the window it addresses |
| Windows.InventoryView | spec/window_tracker_spec.rb:188-216 | `inventory` is present iff the inventory window has loaded, and then lists 40 items |
| Windows.InventoryViewSpots | spec/window_tracker_spec.rb:30-32 | `inventory` lists the armor spots' items, then the regular spots' items |
| Windows.ChestView | spec/window_tracker_spec.rb:166-169 | `chest_spots` is present iff a chest is open and has loaded, and then has one entry per chest spot |
| Windows.ChestViewSpots | spec/window_tracker_spec.rb:240-258 | `chest_spots` entry i is the item of chest spot i |
| Windows.InitialState | spec/window_tracker_spec.rb:166-191 | a new tracker has one open window (the inventory), no chest spots, no inventory yet, and every spot empty |
| Windows.IgnoresOtherPackets | spec/window_tracker_spec.rb:177-179 | unrelated packets leave the tracker unchanged |
| Windows.UnknownWindowType | spec/window_tracker_spec.rb:76-78 | OpenWindow fails iff its type has no window class, with the family's message |
| Windows.UnknownWindowTypeExample | spec/window_tracker_spec.rb:76-78 | type 66 fails with "Unrecognized type of RedstoneBot::WindowTracker::Window: 66" |
| Windows.OpenChestWindow | spec/window_tracker_spec.rb:223-237 | after OpenWindow for a chest, `open_windows` holds the inventory and a chest of the announced size under the id; `chest_spots` stays nil; the inventory is unchanged |
| Windows.CloseChestWindow | spec/window_tracker_spec.rb:287-293 | CloseWindow for the chest's id leaves one open window and no chest spots, with the inventory unchanged; any other id changes nothing |
| Windows.StepKeepsInOpenWindows | spec/window_tracker_spec.rb:155-164 | every packet keeps items only in spots of open windows |
| Windows.LoadProgress | spec/window_tracker_spec.rb:159-164 | after the snapshot and the SetSlots below k, the window is filled and awaits exactly the non-empty ids from k on |
| Windows.NextSlot | spec/window_tracker_spec.rb:161-163 | each further entry moves the load on by one id: one SetSlot for a non-empty entry, none for an empty one |
| Windows.LoadedWhenNothingAwaited | spec/window_tracker_spec.rb:205-217 | a window has loaded iff no non-empty entry is still awaited |
| Windows.WindowLoads | spec/window_tracker_spec.rb:205-217 | after its snapshot and all its SetSlots a window has loaded and its spots hold the snapshot |
| Windows.EmptySnapshotLoads | spec/window_tracker_spec.rb:193-198 | an all-empty snapshot loads the window at once |
| Windows.NotLoadedWhileAwaiting | spec/window_tracker_spec.rb:205-211 | while a non-empty entry's SetSlot is still missing, the window has not loaded |
| Windows.InventoryLoads | spec/window_tracker_spec.rb:200-217 | once window 0 has loaded, `inventory` is the snapshot from slot id 5 on |
| Windows.ChestLoads | spec/window_tracker_spec.rb:240-258 | once the open chest has loaded, `chest_spots` is the first n entries of its snapshot |
| Windows.OpenThenLoad | spec/window_tracker_spec.rb:250-254 | OpenWindow for a chest succeeds, and the loading packets then act on the tracker it leaves |
| Windows.ChestOpensAndLoads | spec/window_tracker_spec.rb:240-258 | opening and loading a chest of n spots makes `chest_spots` the first n entries, with the chest under its id |
| Windows.ChestLifecycle | spec/window_tracker_spec.rb:262-293 | open, load, then close: two open windows with the chest loaded, then one open window and no chest spots |
| Windows.NewWindowTypes | spec/window_tracker_spec.rb:224 | the window family's table holds the chest class under tid 0 |
| Windows.ApplySnapshot | spec/window_tracker_spec.rb:160 | the loop fills the layout entry by entry and collects the awaited ids in order |
| Windows.WindowTracker.constructor | spec/window_tracker_spec.rb:181-191 | a new tracker is in the initial state |
| Windows.WindowTracker.Push | spec/window_tracker_spec.rb:155-164 | `<<` updates the fields as `Step` says and keeps items in open windows; on an unknown window type the state is unchanged and the message is returned |
| Windows.WindowTracker.LoadSnapshot | spec/window_tracker_spec.rb:160 | SetWindowItems applied in place gives the snapshot state |
| Windows.WindowTracker.SetSpot | spec/window_tracker_spec.rb:162 | SetSlot applied in place gives the slot-update state |
| Wielding.FirstMatch | spec/wielding_spec.rb:40-47 | the first hotbar index from k on that satisfies the request, or none |
| Wielding.Choice | spec/wielding_spec.rb:31-47 | the chosen spot satisfies the request; the current spot is kept when it does; otherwise the lowest satisfying index; none iff no hotbar spot does |
| Wielding.WieldCurrentKeepsIt | spec/wielding_spec.rb:49-62 | asking for the held spot, its exact item or its item type keeps the held index |
| Wielding.WieldHotbarSpot | spec/wielding_spec.rb:64-67 | asking for hotbar spot k selects index k |
| Wielding.WieldOutsideHotbar | spec/wielding_spec.rb:40-47 | a spot outside the hotbar cannot be wielded by index |
| Wielding.LoadedHotbar | spec/wielding_spec.rb:14-19 | after loading window 0, hotbar spot k holds snapshot entry 36 + k |
| Wielding.WieldingExamples | spec/wielding_spec.rb:22-67 | with 31 wheat at id 36 and 44 bread at id 37: the wielded item is the wheat; spot 0, the wheat stack and the wheat type keep index 0; spot 1 and bread pick index 1 |
| Wielding.Bot.constructor | spec/wielding_spec.rb:22-24 | a new bot holds hotbar index 0 and has sent nothing |
| Wielding.Bot.WieldedSpot | spec/wielding_spec.rb:22-24 | the wielded spot is a hotbar spot |
| Wielding.Bot.WieldedItem | spec/wielding_spec.rb:26-28 | `wielded_item` is nil iff the held spot is empty, and otherwise that spot's item |
| Wielding.Bot.Wield | spec/wielding_spec.rb:30-47 | `wield` succeeds iff a hotbar spot satisfies the request and then holds `Choice`'s index; it sends one HeldItemChange with the new index only when the index changes; it leaves the tracker, and so its synced state, untouched |

## Left out

- `packet.rb` and `window_tracker.rb` are not part of this model. The decoders and the tracker's transitions are built from the test expectations and the factories.
- Zlib deflate and inflate are a foreign library. The ChunkData payload is modelled as opaque bytes that are already compressed.
- Packet framing is left out: the packet-id byte, string and item encodings, and the socket.
- Window clicks, swaps, transaction confirm/reject and the actions on the cursor are not modelled; none of the modelled tests uses them.
  - The tracker keeps a `pending` list, so `synced` is defined.
  - Only the cursor's contents are kept, in the `cursor` field, as the target of a SetSlot for window -1.
- Windows.Snapshot: a snapshot shorter than the window's layout empties the spots past its end and awaits no SetSlot for them, so the window can count as loaded at once; no test fixes this case, and the tracker code that would is not part of this model.
- Windows.Step: an OpenWindow with window id 0 is accepted, and the chest then takes id 0, so id 0 no longer addresses the inventory. No test fixes this case, and the tracker code that would is not part of this model.
- Wielding.Bot.Wield: only switches among hotbar spots. A request satisfied only outside the hotbar returns false; moving that item into the hotbar would need the click actions above.
- The client is not modelled. The packets a bot sends are kept as the `sent` sequence.
- Item types are plain integers, and an item is a (type, count) pair. Stacking rules are not modelled.
- The Ruby `SpotArray` class identity, RSpec mocks and instance-variable inspection are test machinery, not behaviour.
- Ruby `ArgumentError` becomes the `Err` message, and the tracker state is left as it was.
- Movement, pathfinding and the bot classes are not modelled. They involve floating-point motion, concurrency and I/O.

## Findings

| source | as written | input that shows it | evidently intended | confidence | as-written member | corrected member |
|---|---|---|---|---|---|---|
| spec/packet_spec.rb:14-16 | the `collect` block's value is `c = BlockChange.create(*c) unless c.respond_to?(:x)`, which is nil when `c` already is a BlockChange | `MultiBlockChange.create([bc])` with `bc` a BlockChange: the collected list is `[nil]`, and `nil.chunk_id` fails at line 18 | keep a built change as it is and create the others (`c.respond_to?(:x) ? c : BlockChange.create(*c)`) | high; not executed | PacketCodec.CollectAsWritten, PacketCodec.BuiltChangeIsLost | PacketCodec.CreateAll (used by PacketCodec.CreateMultiBlockChange) |
