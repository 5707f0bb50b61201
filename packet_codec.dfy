/**
 * Binary layouts of the world-update packets: BlockChange, ChunkAllocation,
 * MultiBlockChange and ChunkData. Each `Encode…` is the byte string the test
 * factories build with `Array#pack`; each `Decode…` reads the packet's fields
 * back off a stream; `Create…` is a factory: decode what was encoded.
 */
module PacketCodec {
  import opened Wrappers
  import opened BigEndian

  /**
   * The origin of the 16-cell chunk column holding cell coordinate `c`:
   * floor-divide by 16, then multiply by 16.
   */
  function ChunkOrigin(c: int): (r: int)
    ensures r % 16 == 0 && r <= c < r + 16
  {
    c / 16 * 16
  }

  /** The chunk origin is the only multiple of 16 within 16 cells below `c`. */
  lemma ChunkOriginUnique(c: int, r: int)
    requires r % 16 == 0 && r <= c < r + 16
    ensures r == ChunkOrigin(c)
  {
    var o := ChunkOrigin(c);
    assert (r - o) % 16 == 0;
    assert -16 < r - o < 16;
  }

  lemma ChunkOriginExamples()
    ensures ChunkOrigin(70) == 64 && ChunkOrigin(900) == 896
    ensures ChunkOrigin(-1) == -16 && ChunkOrigin(96) == 96
  {
    ChunkOriginUnique(70, 64);
    ChunkOriginUnique(900, 896);
    ChunkOriginUnique(-1, -16);
    ChunkOriginUnique(96, 96);
  }

  // ---------------------------------------------------------------------
  // BlockChange: x l>, y C, z l>, block type C, metadata C

  datatype BlockChange = BlockChange(x: int, y: int, z: int, blockType: int, meta: int)
  {
    /** The chunk the changed block lies in, as cell coordinates of its origin. */
    function ChunkId(): (int, int)
    {
      (ChunkOrigin(x), ChunkOrigin(z))
    }
  }

  /** The fields fit the widths they are written with. */
  predicate BlockChangeFits(b: BlockChange)
  {
    InSigned(b.x, 4) && InUnsigned(b.y, 1) && InSigned(b.z, 4)
    && InUnsigned(b.blockType, 1) && InUnsigned(b.meta, 1)
  }

  /** Each field as it comes back after being packed into its width. */
  function WrapBlockChange(b: BlockChange): BlockChange
  {
    BlockChange(WrapSigned(b.x, 4), WrapUnsigned(b.y, 1), WrapSigned(b.z, 4),
                WrapUnsigned(b.blockType, 1), WrapUnsigned(b.meta, 1))
  }

  lemma WrapBlockChangeFits(b: BlockChange)
    ensures BlockChangeFits(WrapBlockChange(b))
    ensures BlockChangeFits(b) ==> WrapBlockChange(b) == b
  {
    if BlockChangeFits(b) {
      WrapSignedInRange(b.x, 4);
      WrapUnsignedInRange(b.y, 1);
      WrapSignedInRange(b.z, 4);
      WrapUnsignedInRange(b.blockType, 1);
      WrapUnsignedInRange(b.meta, 1);
    }
  }

  /** `[x, y, z, type, meta].pack('l>Cl>CC')`: 11 bytes. */
  function EncodeBlockChange(b: BlockChange): (r: seq<byte>)
    ensures |r| == 11
  {
    Pack(b.x, 4) + Pack(b.y, 1) + Pack(b.z, 4) + Pack(b.blockType, 1) + Pack(b.meta, 1)
  }

  function DecodeBlockChange(s: seq<byte>): (r: Result<Taken<BlockChange>, DecodeError>)
    ensures r.Ok? <==> |s| >= 11
    ensures r.Ok? ==> BlockChangeFits(r.value.value) && r.value.rest == s[11..]
  {
    var x :- ReadSigned(s, 4);
    var y :- ReadUnsigned(x.rest, 1);
    var z :- ReadSigned(y.rest, 4);
    var t :- ReadUnsigned(z.rest, 1);
    var m :- ReadUnsigned(t.rest, 1);
    Ok(Taken(BlockChange(x.value, y.value, z.value, t.value, m.value), m.rest))
  }

  /** Decoding an encoded BlockChange gives back its fields, each wrapped to its width. */
  lemma BlockChangeRoundTrip(b: BlockChange, rest: seq<byte>)
    ensures DecodeBlockChange(EncodeBlockChange(b) + rest) == Ok(Taken(WrapBlockChange(b), rest))
  {
    var r4 := Pack(b.meta, 1) + rest;
    var r3 := Pack(b.blockType, 1) + r4;
    var r2 := Pack(b.z, 4) + r3;
    var r1 := Pack(b.y, 1) + r2;
    assert EncodeBlockChange(b) + rest == Pack(b.x, 4) + r1;
    ReadPackSigned(b.x, 4, r1);
    ReadPackUnsigned(b.y, 1, r2);
    ReadPackSigned(b.z, 4, r3);
    ReadPackUnsigned(b.blockType, 1, r4);
    ReadPackUnsigned(b.meta, 1, rest);
  }

  /** Every 11 bytes are the encoding of the BlockChange they decode to. */
  lemma BlockChangeBytesRoundTrip(s: seq<byte>)
    requires |s| >= 11
    ensures EncodeBlockChange(DecodeBlockChange(s).value.value) + s[11..] == s
  {
    var b := DecodeBlockChange(s).value.value;
    var x := ReadSigned(s, 4).value;
    var y := ReadUnsigned(s[4..], 1).value;
    var z := ReadSigned(s[5..], 4).value;
    var t := ReadUnsigned(s[9..], 1).value;
    var m := ReadUnsigned(s[10..], 1).value;
    assert s[4..][1..] == s[5..] && s[5..][4..] == s[9..] && s[9..][1..] == s[10..] && s[10..][1..] == s[11..];
    assert b == BlockChange(x.value, y.value, z.value, t.value, m.value);
    PackReadSigned(s, 4);
    PackReadUnsigned(s[4..], 1);
    PackReadSigned(s[5..], 4);
    PackReadUnsigned(s[9..], 1);
    PackReadUnsigned(s[10..], 1);
    FieldsThenTail(Pack(b.x, 4), Pack(b.y, 1), Pack(b.z, 4), Pack(b.blockType, 1), Pack(b.meta, 1), s[11..]);
  }

  /** `BlockChange.create(coords, block_type_id, block_metadata)`. */
  function CreateBlockChange(x: int, y: int, z: int, blockType: int, meta: int): (b: BlockChange)
    ensures b == WrapBlockChange(BlockChange(x, y, z, blockType, meta))
    ensures BlockChangeFits(b)
    ensures BlockChangeFits(BlockChange(x, y, z, blockType, meta)) ==> b == BlockChange(x, y, z, blockType, meta)
  {
    var given := BlockChange(x, y, z, blockType, meta);
    BlockChangeRoundTrip(given, []);
    WrapBlockChangeFits(given);
    assert EncodeBlockChange(given) + [] == EncodeBlockChange(given);
    DecodeBlockChange(EncodeBlockChange(given)).value.value
  }

  /** The example block change at (70, 80, 900) of type 44, metadata 3. */
  lemma BlockChangeExample()
    ensures CreateBlockChange(70, 80, 900, 44, 3) == BlockChange(70, 80, 900, 44, 3)
    ensures CreateBlockChange(70, 80, 900, 44, 3).ChunkId() == (64, 896)
  {
    Pow256Values();
    ChunkOriginExamples();
  }

  // ---------------------------------------------------------------------
  // ChunkAllocation: chunk x / 16 l>, chunk z / 16 l>, mode C

  datatype ChunkAllocation = ChunkAllocation(chunkX: int, chunkZ: int, mode: bool)
  {
    function ChunkId(): (int, int)
    {
      (chunkX, chunkZ)
    }
  }

  /** `[chunk_id[0]/16, chunk_id[1]/16, mode ? 1 : 0].pack('l>l>C')`. */
  function EncodeChunkAllocation(chunkX: int, chunkZ: int, mode: bool): (r: seq<byte>)
    ensures |r| == 9
  {
    Pack(chunkX / 16, 4) + Pack(chunkZ / 16, 4) + Pack(if mode then 1 else 0, 1)
  }

  function DecodeChunkAllocation(s: seq<byte>): (r: Result<Taken<ChunkAllocation>, DecodeError>)
    ensures r.Ok? <==> |s| >= 9
    ensures r.Ok? ==> r.value.value.chunkX % 16 == 0 && r.value.value.chunkZ % 16 == 0
  {
    var cx :- ReadSigned(s, 4);
    var cz :- ReadSigned(cx.rest, 4);
    var m :- ReadUnsigned(cz.rest, 1);
    Ok(Taken(ChunkAllocation(cx.value * 16, cz.value * 16, m.value != 0), m.rest))
  }

  /**
   * Decoding gives back the mode, and each chunk index as its `l>` field holds
   * it (wrapped to 32 bits), times 16.
   */
  lemma ChunkAllocationRoundTrip(chunkX: int, chunkZ: int, mode: bool, rest: seq<byte>)
    ensures DecodeChunkAllocation(EncodeChunkAllocation(chunkX, chunkZ, mode) + rest)
         == Ok(Taken(ChunkAllocation(WrapSigned(chunkX / 16, 4) * 16, WrapSigned(chunkZ / 16, 4) * 16, mode), rest))
  {
    var r2 := Pack(if mode then 1 else 0, 1) + rest;
    var r1 := Pack(chunkZ / 16, 4) + r2;
    assert EncodeChunkAllocation(chunkX, chunkZ, mode) + rest == Pack(chunkX / 16, 4) + r1;
    ReadPackSigned(chunkX / 16, 4, r1);
    ReadPackSigned(chunkZ / 16, 4, r2);
    ReadPackUnsigned(if mode then 1 else 0, 1, rest);
    Pow256Values();
    WrapUnsignedInRange(if mode then 1 else 0, 1);
  }

  /** A chunk index that fits an int32 survives its field, so the coordinate comes back as its chunk origin. */
  lemma WrappedChunkOrigin(c: int)
    ensures InSigned(c / 16, 4) ==> WrapSigned(c / 16, 4) * 16 == ChunkOrigin(c)
  {
    WrapSignedInRange(c / 16, 4);
  }

  /**
   * `ChunkAllocation.create(chunk_id, mode)`: the chunk indices wrap to 32 bits
   * like any `l>` field; those that fit come back as the chunk origin.
   */
  function CreateChunkAllocation(chunkX: int, chunkZ: int, mode: bool): (p: ChunkAllocation)
    ensures p.mode == mode
    ensures p.ChunkId() == (WrapSigned(chunkX / 16, 4) * 16, WrapSigned(chunkZ / 16, 4) * 16)
    ensures InSigned(chunkX / 16, 4) && InSigned(chunkZ / 16, 4) ==> p.ChunkId() == (ChunkOrigin(chunkX), ChunkOrigin(chunkZ))
  {
    ChunkAllocationRoundTrip(chunkX, chunkZ, mode, []);
    WrappedChunkOrigin(chunkX);
    WrappedChunkOrigin(chunkZ);
    assert EncodeChunkAllocation(chunkX, chunkZ, mode) + [] == EncodeChunkAllocation(chunkX, chunkZ, mode);
    DecodeChunkAllocation(EncodeChunkAllocation(chunkX, chunkZ, mode)).value.value
  }

  lemma ChunkAllocationExample()
    ensures CreateChunkAllocation(7 * 16, 8 * 16, true) == ChunkAllocation(112, 128, true)
    ensures CreateChunkAllocation(7 * 16, 8 * 16, false).mode == false
  {
    Pow256Values();
    ChunkOriginUnique(112, 112);
    ChunkOriginUnique(128, 128);
  }

  // ---------------------------------------------------------------------
  // MultiBlockChange: header l>l>S>l>, then one CCs> record per change

  /** One record: x and z relative to the chunk origin, y, block type and metadata. */
  datatype BlockRecord = BlockRecord(x: int, y: int, z: int, blockType: int, meta: int)

  datatype MultiBlockChange = MultiBlockChange(chunkX: int, chunkZ: int, records: seq<BlockRecord>)
  {
    function ChunkId(): (int, int)
    {
      (chunkX, chunkZ)
    }
  }

  /** `[(x%16)+((z%16)<<4), y, (type<<4) + (meta&0xF)].pack("CCs>")`. */
  function EncodeRecord(c: BlockChange): (r: seq<byte>)
    ensures |r| == 4
  {
    Pack(c.x % 16 + (c.z % 16) * 16, 1) + Pack(c.y, 1) + Pack(c.blockType * 16 + c.meta % 16, 2)
  }

  function EncodeRecords(cs: seq<BlockChange>): (r: seq<byte>)
    ensures |r| == 4 * |cs|
  {
    if cs == [] then [] else EncodeRecord(cs[0]) + EncodeRecords(cs[1..])
  }

  /**
   * `MultiBlockChange.create(block_changes)`: the header names the chunk of the
   * first change, the count and the byte length of the records. With no
   * changes there is no first change to take the chunk from, and no packet.
   */
  function EncodeMultiBlockChange(changes: seq<BlockChange>): (r: Option<seq<byte>>)
    ensures r.Some? <==> changes != []
    ensures r.Some? ==> |r.value| == 14 + 4 * |changes|
  {
    if changes == [] then None
    else
      var (cx, cz) := changes[0].ChunkId();
      Some(Pack(cx / 16, 4) + Pack(cz / 16, 4) + Pack(|changes|, 2) + Pack(4 * |changes|, 4)
           + EncodeRecords(changes))
  }

  function DecodeRecord(s: seq<byte>): (r: Result<Taken<BlockRecord>, DecodeError>)
    ensures r.Ok? <==> |s| >= 4
    ensures r.Ok? ==> r.value.rest == s[4..]
  {
    var xz :- ReadUnsigned(s, 1);
    var y :- ReadUnsigned(xz.rest, 1);
    var tm :- ReadSigned(y.rest, 2);
    Ok(Taken(BlockRecord(xz.value % 16, y.value, xz.value / 16, tm.value / 16, tm.value % 16), tm.rest))
  }

  function DecodeRecords(s: seq<byte>, n: nat): (r: Result<Taken<seq<BlockRecord>>, DecodeError>)
    ensures r.Ok? ==> |r.value.value| == n
  {
    if n == 0 then Ok(Taken([], s))
    else
      var first :- DecodeRecord(s);
      var others :- DecodeRecords(first.rest, n - 1);
      Ok(Taken([first.value] + others.value, others.rest))
  }

  function DecodeMultiBlockChange(s: seq<byte>): (r: Result<Taken<MultiBlockChange>, DecodeError>)
    ensures r.Ok? ==> |r.value.value.records| < 0x1_0000
  {
    var cx :- ReadSigned(s, 4);
    var cz :- ReadSigned(cx.rest, 4);
    var n :- ReadUnsigned(cz.rest, 2);
    var len :- ReadSigned(n.rest, 4);
    if len.value != 4 * n.value then Err(BadLength(len.value))
    else
      var records :- DecodeRecords(len.rest, n.value);
      Pow256Values();
      Ok(Taken(MultiBlockChange(cx.value * 16, cz.value * 16, records.value), records.rest))
  }

  /** What a change looks like after the trip: x and z within the chunk, metadata's low 4 bits. */
  function Relative(c: BlockChange): BlockRecord
  {
    BlockRecord(c.x % 16, c.y, c.z % 16, c.blockType, c.meta % 16)
  }

  function RelativeAll(cs: seq<BlockChange>): (r: seq<BlockRecord>)
    ensures |r| == |cs|
    ensures forall i :: 0 <= i < |cs| ==> r[i] == Relative(cs[i])
  {
    if cs == [] then [] else [Relative(cs[0])] + RelativeAll(cs[1..])
  }

  /** A change whose record fits: y is a byte and the type leaves room for 4 metadata bits in an int16. */
  predicate RecordFits(c: BlockChange)
  {
    InUnsigned(c.y, 1) && -2048 <= c.blockType < 2048
  }

  lemma SplitTypeAndMeta(t: int, m: int)
    requires 0 <= m < 16
    ensures (t * 16 + m) / 16 == t && (t * 16 + m) % 16 == m
  {
  }

  lemma RecordRoundTrip(c: BlockChange, rest: seq<byte>)
    requires RecordFits(c)
    ensures DecodeRecord(EncodeRecord(c) + rest) == Ok(Taken(Relative(c), rest))
  {
    var xz := c.x % 16 + (c.z % 16) * 16;
    var tm := c.blockType * 16 + c.meta % 16;
    var r2 := Pack(tm, 2) + rest;
    var r1 := Pack(c.y, 1) + r2;
    assert EncodeRecord(c) + rest == Pack(xz, 1) + r1;
    Pow256Values();
    ReadPackUnsigned(xz, 1, r1);
    WrapUnsignedInRange(xz, 1);
    ReadPackUnsigned(c.y, 1, r2);
    WrapUnsignedInRange(c.y, 1);
    ReadPackSigned(tm, 2, rest);
    WrapSignedInRange(tm, 2);
    SplitTypeAndMeta(c.blockType, c.meta % 16);
    SplitTypeAndMeta(c.z % 16, c.x % 16);
  }

  /** Reading n records is reading the first, then n - 1 more from where it stopped. */
  lemma DecodeRecordsCons(s: seq<byte>, n: nat, first: BlockRecord, tail: seq<byte>,
                          others: seq<BlockRecord>, rest: seq<byte>)
    requires n > 0 && DecodeRecord(s) == Ok(Taken(first, tail))
    requires DecodeRecords(tail, n - 1) == Ok(Taken(others, rest))
    ensures DecodeRecords(s, n) == Ok(Taken([first] + others, rest))
  {
  }

  /** The records' bytes are the first record's bytes, then the others'. */
  lemma EncodeRecordsCons(cs: seq<BlockChange>, rest: seq<byte>)
    requires cs != []
    ensures EncodeRecords(cs) + rest == EncodeRecord(cs[0]) + (EncodeRecords(cs[1..]) + rest)
  {
  }

  lemma {:induction false} RecordsRoundTrip(cs: seq<BlockChange>, rest: seq<byte>)
    requires forall i :: 0 <= i < |cs| ==> RecordFits(cs[i])
    ensures DecodeRecords(EncodeRecords(cs) + rest, |cs|) == Ok(Taken(RelativeAll(cs), rest))
    decreases |cs|
  {
    if cs != [] {
      var s := EncodeRecords(cs) + rest;
      var tail := EncodeRecords(cs[1..]) + rest;
      EncodeRecordsCons(cs, rest);
      RecordRoundTrip(cs[0], tail);
      RecordsRoundTrip(cs[1..], rest);
      DecodeRecordsCons(s, |cs|, Relative(cs[0]), tail, RelativeAll(cs[1..]), rest);
      assert RelativeAll(cs) == [Relative(cs[0])] + RelativeAll(cs[1..]);
    } else {
      assert EncodeRecords(cs) + rest == rest;
    }
  }

  /** Reading the first n records of an encoded list gives the first n changes, relative to their chunk. */
  lemma {:induction false} RecordsPrefixRoundTrip(cs: seq<BlockChange>, n: nat, rest: seq<byte>)
    requires n <= |cs|
    requires forall i :: 0 <= i < |cs| ==> RecordFits(cs[i])
    ensures DecodeRecords(EncodeRecords(cs) + rest, n)
         == Ok(Taken(RelativeAll(cs[..n]), EncodeRecords(cs[n..]) + rest))
    decreases n
  {
    if n == 0 {
      assert cs[..0] == [] && cs[0..] == cs;
    } else {
      var s := EncodeRecords(cs) + rest;
      var tail := EncodeRecords(cs[1..]) + rest;
      EncodeRecordsCons(cs, rest);
      RecordRoundTrip(cs[0], tail);
      RecordsPrefixRoundTrip(cs[1..], n - 1, rest);
      assert cs[1..][..n - 1] == cs[..n][1..] && cs[1..][n - 1..] == cs[n..];
      DecodeRecordsCons(s, n, Relative(cs[0]), tail, RelativeAll(cs[..n][1..]), EncodeRecords(cs[n..]) + rest);
      assert RelativeAll(cs[..n]) == [Relative(cs[0])] + RelativeAll(cs[..n][1..]);
    }
  }

  /** DecodeMultiBlockChange in terms of the reads of its header fields and of the records. */
  lemma DecodeMultiBlockChangeFields(s: seq<byte>, r1: seq<byte>, r2: seq<byte>, r3: seq<byte>, body: seq<byte>,
                                     x: int, z: int, n: nat, records: seq<BlockRecord>, rest: seq<byte>)
    requires ReadSigned(s, 4) == Ok(Taken(x, r1)) && ReadSigned(r1, 4) == Ok(Taken(z, r2))
    requires ReadUnsigned(r2, 2) == Ok(Taken(n, r3)) && ReadSigned(r3, 4) == Ok(Taken(4 * n, body))
    requires DecodeRecords(body, n) == Ok(Taken(records, rest))
    ensures DecodeMultiBlockChange(s) == Ok(Taken(MultiBlockChange(x * 16, z * 16, records), rest))
  {
  }

  /** The wrapped count never exceeds the number of changes. */
  lemma CountAtMostLength(count: nat)
    ensures count % 0x1_0000 <= count
  {
    if count < 0x1_0000 {
      ModOfSmall(count, 0x1_0000);
    }
  }

  /** A header whose count disagrees with its byte length is refused. */
  lemma DecodeMultiBlockChangeRefused(s: seq<byte>, r1: seq<byte>, r2: seq<byte>, r3: seq<byte>, body: seq<byte>,
                                      x: int, z: int, n: nat, len: int)
    requires ReadSigned(s, 4) == Ok(Taken(x, r1)) && ReadSigned(r1, 4) == Ok(Taken(z, r2))
    requires ReadUnsigned(r2, 2) == Ok(Taken(n, r3)) && ReadSigned(r3, 4) == Ok(Taken(len, body))
    requires len != 4 * n
    ensures DecodeMultiBlockChange(s) == Err(BadLength(len))
  {
  }

  /** The header of a packet of `count` changes: the count and the byte length as packing wraps them. */
  lemma ReadWrappedHeader(x: int, z: int, count: nat, body: seq<byte>)
    requires InSigned(x, 4) && InSigned(z, 4)
    ensures var r3 := Pack(4 * count, 4) + body;
      var r2 := Pack(count, 2) + r3;
      var r1 := Pack(z, 4) + r2;
      && ReadSigned(Pack(x, 4) + r1, 4) == Ok(Taken(x, r1))
      && ReadSigned(r1, 4) == Ok(Taken(z, r2))
      && ReadUnsigned(r2, 2) == Ok(Taken(count % 0x1_0000, r3))
      && ReadSigned(r3, 4) == Ok(Taken(WrapSigned(4 * count, 4), body))
  {
    var r3 := Pack(4 * count, 4) + body;
    var r2 := Pack(count, 2) + r3;
    var r1 := Pack(z, 4) + r2;
    Pow256Values();
    ReadPackSigned(x, 4, r1);
    WrapSignedInRange(x, 4);
    ReadPackSigned(z, 4, r2);
    WrapSignedInRange(z, 4);
    ReadPackUnsigned(count, 2, r3);
    ReadPackSigned(4 * count, 4, body);
  }

  /** The four header fields read back as written, when each is in its field's range. */
  lemma ReadMultiBlockChangeHeader(x: int, z: int, n: nat, body: seq<byte>)
    requires InSigned(x, 4) && InSigned(z, 4) && n < 0x1_0000
    ensures var r3 := Pack(4 * n, 4) + body;
      var r2 := Pack(n, 2) + r3;
      var r1 := Pack(z, 4) + r2;
      && ReadSigned(Pack(x, 4) + r1, 4) == Ok(Taken(x, r1))
      && ReadSigned(r1, 4) == Ok(Taken(z, r2))
      && ReadUnsigned(r2, 2) == Ok(Taken(n, r3))
      && ReadSigned(r3, 4) == Ok(Taken(4 * n, body))
  {
    var r3 := Pack(4 * n, 4) + body;
    var r2 := Pack(n, 2) + r3;
    var r1 := Pack(z, 4) + r2;
    Pow256Values();
    ReadPackSigned(x, 4, r1);
    WrapSignedInRange(x, 4);
    ReadPackSigned(z, 4, r2);
    WrapSignedInRange(z, 4);
    ReadPackUnsigned(n, 2, r3);
    WrapUnsignedInRange(n, 2);
    ReadPackSigned(4 * n, 4, body);
    WrapSignedInRange(4 * n, 4);
  }

  /** The encoding field by field, each field followed by everything after it. */
  lemma MultiBlockChangeLayout(changes: seq<BlockChange>, rest: seq<byte>)
    requires changes != []
    ensures EncodeMultiBlockChange(changes).value + rest
         == Pack(changes[0].ChunkId().0 / 16, 4) + (Pack(changes[0].ChunkId().1 / 16, 4)
            + (Pack(|changes|, 2) + (Pack(4 * |changes|, 4) + (EncodeRecords(changes) + rest))))
  {
    var (cx, cz) := changes[0].ChunkId();
    var p1, p2, p3, p4 := Pack(cx / 16, 4), Pack(cz / 16, 4), Pack(|changes|, 2), Pack(4 * |changes|, 4);
    var e := EncodeRecords(changes);
    assert EncodeMultiBlockChange(changes).value == p1 + p2 + p3 + p4 + e;
    FieldsThenTail(p1, p2, p3, p4, e, rest);
  }

  lemma FieldsThenTail(p1: seq<byte>, p2: seq<byte>, p3: seq<byte>, p4: seq<byte>, e: seq<byte>, rest: seq<byte>)
    ensures p1 + p2 + p3 + p4 + e + rest == p1 + (p2 + (p3 + (p4 + (e + rest))))
  {
  }

  /**
   * Decoding an encoded MultiBlockChange gives the chunk of the first change and,
   * in the original order, every change with x and z reduced modulo 16.
   */
  lemma {:induction false} MultiBlockChangeRoundTrip(changes: seq<BlockChange>, rest: seq<byte>)
    requires 0 < |changes| < 0x1_0000
    requires InSigned(changes[0].x, 4) && InSigned(changes[0].z, 4)
    requires forall i :: 0 <= i < |changes| ==> RecordFits(changes[i])
    ensures DecodeMultiBlockChange(EncodeMultiBlockChange(changes).value + rest)
         == Ok(Taken(MultiBlockChange(changes[0].ChunkId().0, changes[0].ChunkId().1,
                                      RelativeAll(changes)),
                     rest))
  {
    var (cx, cz) := changes[0].ChunkId();
    var n := |changes|;
    var body := EncodeRecords(changes) + rest;
    var r3 := Pack(4 * n, 4) + body;
    var r2 := Pack(n, 2) + r3;
    var r1 := Pack(cz / 16, 4) + r2;
    var s := EncodeMultiBlockChange(changes).value + rest;
    MultiBlockChangeLayout(changes, rest);
    Pow256Values();
    assert InSigned(cx / 16, 4) && InSigned(cz / 16, 4);
    ReadMultiBlockChangeHeader(cx / 16, cz / 16, n, body);
    RecordsRoundTrip(changes, rest);
    DecodeMultiBlockChangeFields(s, r1, r2, r3, body, cx / 16, cz / 16, n, RelativeAll(changes), rest);
    assert (cx / 16) * 16 == cx && (cz / 16) * 16 == cz;
  }

  /**
   * Decoding an encoded MultiBlockChange of any length. The count field keeps
   * the low two bytes of the length and the byte-length field its wrapped
   * four bytes; the decoder refuses the packet when they disagree, and
   * otherwise reads as many records as the count says.
   */
  lemma MultiBlockChangeDecodes(changes: seq<BlockChange>, rest: seq<byte>)
    requires changes != []
    requires InSigned(changes[0].x, 4) && InSigned(changes[0].z, 4)
    requires forall i :: 0 <= i < |changes| ==> RecordFits(changes[i])
    ensures var n := |changes| % 0x1_0000;
      var len := WrapSigned(4 * |changes|, 4);
      DecodeMultiBlockChange(EncodeMultiBlockChange(changes).value + rest)
      == if len != 4 * n then Err(BadLength(len))
         else Ok(Taken(MultiBlockChange(changes[0].ChunkId().0, changes[0].ChunkId().1,
                                        RelativeAll(changes[..n])),
                       EncodeRecords(changes[n..]) + rest))
  {
    var (cx, cz) := changes[0].ChunkId();
    var n := |changes| % 0x1_0000;
    var len := WrapSigned(4 * |changes|, 4);
    var body := EncodeRecords(changes) + rest;
    var r3 := Pack(4 * |changes|, 4) + body;
    var r2 := Pack(|changes|, 2) + r3;
    var r1 := Pack(cz / 16, 4) + r2;
    var s := EncodeMultiBlockChange(changes).value + rest;
    MultiBlockChangeLayout(changes, rest);
    Pow256Values();
    assert InSigned(cx / 16, 4) && InSigned(cz / 16, 4);
    ReadWrappedHeader(cx / 16, cz / 16, |changes|, body);
    if len == 4 * n {
      CountAtMostLength(|changes|);
      RecordsPrefixRoundTrip(changes, n, rest);
      DecodeMultiBlockChangeFields(s, r1, r2, r3, body, cx / 16, cz / 16, n, RelativeAll(changes[..n]),
                                   EncodeRecords(changes[n..]) + rest);
      assert (cx / 16) * 16 == cx && (cz / 16) * 16 == cz;
    } else {
      DecodeMultiBlockChangeRefused(s, r1, r2, r3, body, cx / 16, cz / 16, n, len);
    }
  }

  /**
   * An entry of the list given to `MultiBlockChange.create`: a BlockChange
   * already built (by decoding, so its fields fit their widths), or the
   * coordinates, type and metadata to build one from.
   */
  datatype ChangeSpec = Built(change: BlockChange) | Described(fields: BlockChange)

  /** The change an entry stands for: a built one as it is, a described one through `BlockChange.create`. */
  function CreateOne(s: ChangeSpec): (b: BlockChange)
    ensures s.Built? ==> b == s.change
    ensures s.Described? ==> b == WrapBlockChange(s.fields) && BlockChangeFits(b)
    ensures s.Described? && BlockChangeFits(s.fields) ==> b == s.fields
  {
    match s
    case Built(c) => c
    case Described(f) => CreateBlockChange(f.x, f.y, f.z, f.blockType, f.meta)
  }

  /** The changes the factory is meant to collect, one per entry, in order. */
  function CreateAll(specs: seq<ChangeSpec>): (r: seq<BlockChange>)
    ensures |r| == |specs|
    ensures forall i :: 0 <= i < |specs| ==> r[i] == CreateOne(specs[i])
  {
    if specs == [] then [] else [CreateOne(specs[0])] + CreateAll(specs[1..])
  }

  /**
   * The `collect` block as written: the block's value is the assignment
   * guarded by `unless`, and that expression is nil when the guard holds, so
   * an entry that is already a BlockChange is collected as nil.
   */
  function CollectAsWritten(specs: seq<ChangeSpec>): (r: seq<Option<BlockChange>>)
    ensures |r| == |specs|
  {
    seq(|specs|, i requires 0 <= i < |specs| => if specs[i].Built? then None else Some(CreateOne(specs[i])))
  }

  /**
   * The collected list as written agrees with the intended one exactly when
   * no entry is already built; each built entry becomes nil.
   */
  lemma CollectAsWrittenLosesBuilt(specs: seq<ChangeSpec>)
    ensures forall i :: 0 <= i < |specs| ==> (CollectAsWritten(specs)[i] == None <==> specs[i].Built?)
    ensures (forall i :: 0 <= i < |specs| ==> CollectAsWritten(specs)[i] == Some(CreateAll(specs)[i]))
        <==> (forall i :: 0 <= i < |specs| ==> specs[i].Described?)
  {
  }

  /** A single change passed already built comes out of the `collect` as nil, so it has no chunk id to take. */
  lemma BuiltChangeIsLost(b: BlockChange)
    ensures CollectAsWritten([Built(b)]) == [None]
    ensures CreateAll([Built(b)]) == [b]
  {
  }

  /**
   * Why `MultiBlockChange.create` gives no packet: there is no first change to
   * take the chunk from, or the decoder refuses the bytes written.
   */
  datatype CreateError = NoFirstChange | Refused(reason: DecodeError)

  /**
   * `MultiBlockChange.create`: every entry becomes a change (a described one
   * through `BlockChange.create`) and the packet is the decoding of the bytes
   * written. The count is packed with `S>`, so from 65536 changes on it wraps
   * and disagrees with the byte-length field, and the decoder refuses the packet.
   */
  function CreateMultiBlockChange(specs: seq<ChangeSpec>): (p: Result<MultiBlockChange, CreateError>)
    requires forall i :: 0 <= i < |specs| && specs[i].Built? ==> BlockChangeFits(specs[i].change)
    ensures p == Err(NoFirstChange) <==> specs == []
    ensures specs != [] ==> (p.Ok? <==> WrapSigned(4 * |specs|, 4) == 4 * (|specs| % 0x1_0000))
    ensures specs != [] && p.Err? ==> p.error == Refused(BadLength(WrapSigned(4 * |specs|, 4)))
    ensures p.Ok? ==> p.value.ChunkId() == CreateAll(specs)[0].ChunkId()
    ensures p.Ok? ==> p.value.records == RelativeAll(CreateAll(specs)[..|specs| % 0x1_0000])
  {
    var changes := CreateAll(specs);
    if changes == [] then Err(NoFirstChange)
    else
      Pow256Values();
      assert forall i :: 0 <= i < |changes| ==> BlockChangeFits(changes[i]);
      MultiBlockChangeDecodes(changes, []);
      var d := DecodeMultiBlockChange(EncodeMultiBlockChange(changes).value + []);
      if d.Ok? then Ok(d.value.value) else Err(Refused(d.error))
  }

  /**
   * Fewer than 65536 changes give the packet with every change; from 65536 on,
   * as long as four times the count still fits `l>`, the packet is refused.
   */
  lemma MultiBlockChangeCount(specs: seq<ChangeSpec>)
    requires forall i :: 0 <= i < |specs| && specs[i].Built? ==> BlockChangeFits(specs[i].change)
    ensures 0 < |specs| < 0x1_0000
      ==> (CreateMultiBlockChange(specs).Ok?
           && CreateMultiBlockChange(specs).value.records == RelativeAll(CreateAll(specs)))
    ensures 0x1_0000 <= |specs| < 0x2000_0000
      ==> CreateMultiBlockChange(specs) == Err(Refused(BadLength(4 * |specs|)))
  {
    var n := |specs|;
    Pow256Values();
    WrapSignedInRange(4 * n, 4);
    if n < 0x1_0000 {
      ModOfSmall(n, 0x1_0000);
      FullPrefix(CreateAll(specs));
    }
  }

  /** Taking every element of a list gives the list. */
  lemma FullPrefix(cs: seq<BlockChange>)
    ensures cs[..|cs|] == cs
  {
  }

  /** The four changes of the piston column, each already within its field widths. */
  function PistonColumn(piston: int): seq<BlockChange>
  {
    [BlockChange(10, 1, 23, piston, 0), BlockChange(10, 2, 23, piston, 1),
     BlockChange(10, 3, 23, piston, 2), BlockChange(10, 4, 23, piston, 3)]
  }

  /** The column as the test describes it: coordinates, type and metadata of each change. */
  function PistonSpecs(piston: int): seq<ChangeSpec>
  {
    [Described(BlockChange(10, 1, 23, piston, 0)), Described(BlockChange(10, 2, 23, piston, 1)),
     Described(BlockChange(10, 3, 23, piston, 2)), Described(BlockChange(10, 4, 23, piston, 3))]
  }

  lemma PistonColumnCreated(piston: int)
    requires 0 <= piston < 256
    ensures CreateAll(PistonSpecs(piston)) == PistonColumn(piston)
  {
    var column := PistonColumn(piston);
    var r := CreateAll(PistonSpecs(piston));
    forall i | 0 <= i < 4
      ensures r[i] == column[i]
    {
      PistonEntryCreated(piston, i);
    }
  }

  lemma PistonEntryCreated(piston: int, i: int)
    requires 0 <= piston < 256 && 0 <= i < 4
    ensures CreateOne(PistonSpecs(piston)[i]) == PistonColumn(piston)[i]
  {
    var b := PistonColumn(piston)[i];
    assert PistonSpecs(piston)[i] == Described(b);
    PistonFits(b);
  }

  lemma PistonFits(b: BlockChange)
    requires b.x == 10 && 1 <= b.y <= 4 && b.z == 23 && 0 <= b.blockType < 256 && 0 <= b.meta < 4
    ensures BlockChangeFits(b)
  {
    Pow256Values();
  }

  lemma PistonColumnRelative(piston: int)
    ensures RelativeAll(PistonColumn(piston))
         == [BlockRecord(10, 1, 7, piston, 0), BlockRecord(10, 2, 7, piston, 1),
             BlockRecord(10, 3, 7, piston, 2), BlockRecord(10, 4, 7, piston, 3)]
  {
    var specs := PistonColumn(piston);
    var want := [BlockRecord(10, 1, 7, piston, 0), BlockRecord(10, 2, 7, piston, 1),
                 BlockRecord(10, 3, 7, piston, 2), BlockRecord(10, 4, 7, piston, 3)];
    forall i | 0 <= i < 4 ensures RelativeAll(specs)[i] == want[i] {
      assert RelativeAll(specs)[i] == Relative(specs[i]);
    }
  }

  /** Four changes of one column in chunk (0, 16) come back relative to that chunk, in order. */
  lemma MultiBlockChangeExample(piston: int)
    requires 0 <= piston < 256
    ensures var p := CreateMultiBlockChange(PistonSpecs(piston));
      p.Ok? && p.value.ChunkId() == (0, 16)
      && p.value.records == [BlockRecord(10, 1, 7, piston, 0), BlockRecord(10, 2, 7, piston, 1),
                             BlockRecord(10, 3, 7, piston, 2), BlockRecord(10, 4, 7, piston, 3)]
  {
    PistonColumnCreated(piston);
    PistonColumnRelative(piston);
    MultiBlockChangeCount(PistonSpecs(piston));
    ChunkOriginUnique(10, 0);
    ChunkOriginUnique(23, 16);
  }

  // ---------------------------------------------------------------------
  // ChunkData: header l>l>CS>S>l>l>, then the compressed payload

  datatype ChunkData = ChunkData(chunkX: int, chunkZ: int, groundUpContinuous: bool,
                                 primaryBitMap: int, addBitMap: int, compressedData: seq<byte>)
  {
    function ChunkId(): (int, int)
    {
      (chunkX, chunkZ)
    }
  }

  /**
   * `[x/16, z/16, guc ? 1 : 0, primary_bit_map, add_bit_map, compressed.size, 0].pack("l>l>CS>S>l>l>") + compressed`.
   * The payload is taken as already compressed: it is opaque to the codec.
   */
  function EncodeChunkData(chunkX: int, chunkZ: int, groundUpContinuous: bool,
                           primaryBitMap: int, addBitMap: int, compressed: seq<byte>): (r: seq<byte>)
    ensures |r| == 21 + |compressed| && r[21..] == compressed
  {
    Pack(chunkX / 16, 4) + Pack(chunkZ / 16, 4) + Pack(if groundUpContinuous then 1 else 0, 1)
    + Pack(primaryBitMap, 2) + Pack(addBitMap, 2) + Pack(|compressed|, 4) + Pack(0, 4) + compressed
  }

  /**
   * Reads the header, then as many payload bytes as its length field says; a
   * negative length is refused.
   */
  function DecodeChunkData(s: seq<byte>): (r: Result<Taken<ChunkData>, DecodeError>)
    ensures r.Ok? ==> InUnsigned(r.value.value.primaryBitMap, 2) && InUnsigned(r.value.value.addBitMap, 2)
    ensures r.Ok? ==> |s| >= 21 + |r.value.value.compressedData|
    ensures r.Ok? ==> s[21..21 + |r.value.value.compressedData|] == r.value.value.compressedData
                      && r.value.rest == s[21 + |r.value.value.compressedData|..]
  {
    var cx :- ReadSigned(s, 4);
    var cz :- ReadSigned(cx.rest, 4);
    var g :- ReadUnsigned(cz.rest, 1);
    var primary :- ReadUnsigned(g.rest, 2);
    var add :- ReadUnsigned(primary.rest, 2);
    var len :- ReadSigned(add.rest, 4);
    var unused :- ReadSigned(len.rest, 4);
    assert unused.rest == s[21..];
    if len.value < 0 then Err(BadLength(len.value))
    else
      var data :- ReadBytes(unused.rest, len.value);
      assert s[21..][..len.value] == s[21..21 + len.value] && s[21..][len.value..] == s[21 + len.value..];
      Ok(Taken(ChunkData(cx.value * 16, cz.value * 16, g.value != 0, primary.value, add.value, data.value), data.rest))
  }

  /** DecodeChunkData in terms of the reads of its header fields, one after the other. */
  lemma DecodeChunkDataFields(s: seq<byte>, r2: seq<byte>, r3: seq<byte>, r4: seq<byte>, r5: seq<byte>,
                              r6: seq<byte>, r7: seq<byte>, body: seq<byte>,
                              x: int, z: int, flag: nat, primary: nat, add: nat, len: int, unused: int)
    requires ReadSigned(s, 4) == Ok(Taken(x, r2)) && ReadSigned(r2, 4) == Ok(Taken(z, r3))
    requires ReadUnsigned(r3, 1) == Ok(Taken(flag, r4))
    requires ReadUnsigned(r4, 2) == Ok(Taken(primary, r5)) && ReadUnsigned(r5, 2) == Ok(Taken(add, r6))
    requires ReadSigned(r6, 4) == Ok(Taken(len, r7)) && ReadSigned(r7, 4) == Ok(Taken(unused, body))
    ensures len < 0 ==> DecodeChunkData(s) == Err(BadLength(len))
    ensures 0 <= len <= |body| ==> DecodeChunkData(s) == Ok(Taken(ChunkData(x * 16, z * 16, flag != 0, primary, add,
                                                                          body[..len]), body[len..]))
    ensures len > |body| ==> DecodeChunkData(s) == Err(EndOfStream)
  {
  }

  /** The encoding field by field, each field followed by everything after it. */
  lemma ChunkDataLayout(chunkX: int, chunkZ: int, guc: bool, primary: int, add: int,
                        compressed: seq<byte>, rest: seq<byte>)
    ensures EncodeChunkData(chunkX, chunkZ, guc, primary, add, compressed) + rest
         == Pack(chunkX / 16, 4) + (Pack(chunkZ / 16, 4) + (Pack(if guc then 1 else 0, 1) + (Pack(primary, 2)
            + (Pack(add, 2) + (Pack(|compressed|, 4) + (Pack(0, 4) + (compressed + rest)))))))
  {
  }

  /**
   * What decoding an encoded ChunkData gives for any input: every header field
   * as its field holds it, then the payload length as its `l>` field holds it
   * decides how many of the following bytes are read.
   */
  lemma ChunkDataDecodes(chunkX: int, chunkZ: int, guc: bool, primary: int, add: int,
                         compressed: seq<byte>, rest: seq<byte>)
    ensures var len := WrapSigned(|compressed|, 4);
      var body := compressed + rest;
      DecodeChunkData(EncodeChunkData(chunkX, chunkZ, guc, primary, add, compressed) + rest)
      == if len < 0 then Err(BadLength(len))
         else if len > |body| then Err(EndOfStream)
         else Ok(Taken(ChunkData(WrapSigned(chunkX / 16, 4) * 16, WrapSigned(chunkZ / 16, 4) * 16, guc,
                                 WrapUnsigned(primary, 2), WrapUnsigned(add, 2), body[..len]), body[len..]))
  {
    var flag := if guc then 1 else 0;
    var body := compressed + rest;
    var r7 := Pack(0, 4) + body;
    var r6 := Pack(|compressed|, 4) + r7;
    var r5 := Pack(add, 2) + r6;
    var r4 := Pack(primary, 2) + r5;
    var r3 := Pack(flag, 1) + r4;
    var r2 := Pack(chunkZ / 16, 4) + r3;
    var s := EncodeChunkData(chunkX, chunkZ, guc, primary, add, compressed) + rest;
    ChunkDataLayout(chunkX, chunkZ, guc, primary, add, compressed, rest);
    ReadPackSigned(chunkX / 16, 4, r2);
    ReadPackSigned(chunkZ / 16, 4, r3);
    Pow256Values();
    ReadPackUnsigned(flag, 1, r4);
    WrapUnsignedInRange(flag, 1);
    ReadPackUnsigned(primary, 2, r5);
    ReadPackUnsigned(add, 2, r6);
    ReadPackSigned(|compressed|, 4, r7);
    ReadPackSigned(0, 4, body);
    DecodeChunkDataFields(s, r2, r3, r4, r5, r6, r7, body, WrapSigned(chunkX / 16, 4), WrapSigned(chunkZ / 16, 4),
                          flag, WrapUnsigned(primary, 2), WrapUnsigned(add, 2), WrapSigned(|compressed|, 4),
                          WrapSigned(0, 4));
  }

  /**
   * A payload shorter than 2^31 bytes comes back exactly, followed by whatever
   * came after it; the other fields come back as their fields hold them.
   */
  lemma ChunkDataRoundTrip(chunkX: int, chunkZ: int, guc: bool, primary: int, add: int,
                           compressed: seq<byte>, rest: seq<byte>)
    requires InSigned(|compressed|, 4)
    ensures DecodeChunkData(EncodeChunkData(chunkX, chunkZ, guc, primary, add, compressed) + rest)
         == Ok(Taken(ChunkData(WrapSigned(chunkX / 16, 4) * 16, WrapSigned(chunkZ / 16, 4) * 16, guc,
                               WrapUnsigned(primary, 2), WrapUnsigned(add, 2), compressed), rest))
  {
    ChunkDataDecodes(chunkX, chunkZ, guc, primary, add, compressed, rest);
    WrapSignedInRange(|compressed|, 4);
    var body := compressed + rest;
    assert body[..|compressed|] == compressed && body[|compressed|..] == rest;
  }

  /**
   * `ChunkData.create(chunk_id, ground_up_continuous, primary_bit_map, add_bit_map, data)`
   * with `data` already compressed, read back from its own bytes. Every header
   * field wraps to its width; a payload of 2^31 bytes or more wraps its length
   * field, and one whose wrapped length is negative is refused.
   */
  function CreateChunkData(chunkX: int, chunkZ: int, guc: bool, primary: int, add: int, compressed: seq<byte>)
    : (r: Result<ChunkData, DecodeError>)
    ensures r.Ok? ==> r.value.groundUpContinuous == guc
                      && r.value.primaryBitMap == WrapUnsigned(primary, 2) && r.value.addBitMap == WrapUnsigned(add, 2)
    ensures r.Ok? ==> r.value.ChunkId() == (WrapSigned(chunkX / 16, 4) * 16, WrapSigned(chunkZ / 16, 4) * 16)
    ensures r.Ok? && InSigned(chunkX / 16, 4) && InSigned(chunkZ / 16, 4)
            ==> r.value.ChunkId() == (ChunkOrigin(chunkX), ChunkOrigin(chunkZ))
    ensures InSigned(|compressed|, 4) ==> r.Ok? && r.value.compressedData == compressed
    ensures WrapSigned(|compressed|, 4) < 0 ==> r == Err(BadLength(WrapSigned(|compressed|, 4)))
  {
    var bytes := EncodeChunkData(chunkX, chunkZ, guc, primary, add, compressed);
    ChunkDataDecodes(chunkX, chunkZ, guc, primary, add, compressed, []);
    assert bytes + [] == bytes && compressed + [] == compressed;
    WrapSignedInRange(|compressed|, 4);
    WrappedChunkOrigin(chunkX);
    WrappedChunkOrigin(chunkZ);
    var d :- DecodeChunkData(bytes);
    Ok(d.value)
  }

  /** Bit maps 0xFFFF/5 and 6/0xAAAA survive unchanged, and chunk (96, 256) is reported as such. */
  lemma ChunkDataExample(compressed: seq<byte>)
    requires |compressed| < 0x8000_0000
    ensures var p := CreateChunkData(96, 256, true, 0xFFFF, 5, compressed);
      p.Ok? && p.value.groundUpContinuous && p.value.primaryBitMap == 0xFFFF && p.value.addBitMap == 5
      && p.value.compressedData == compressed && p.value.ChunkId() == (96, 256)
    ensures var q := CreateChunkData(96, 256, true, 6, 0xAAAA, compressed);
      q.Ok? && q.value.groundUpContinuous && q.value.primaryBitMap == 6 && q.value.addBitMap == 0xAAAA
      && q.value.compressedData == compressed && q.value.ChunkId() == (96, 256)
  {
    Pow256Values();
    WrapUnsignedInRange(0xFFFF, 2);
    WrapUnsignedInRange(5, 2);
    WrapUnsignedInRange(6, 2);
    WrapUnsignedInRange(0xAAAA, 2);
    ChunkOriginUnique(96, 96);
    ChunkOriginUnique(256, 256);
  }
}
