/**
 * Big-endian integers as Ruby's `Array#pack` writes them for the directives
 * `C` (1 byte), `S>`/`s>` (2 bytes) and `l>` (4 bytes), and a reader that
 * takes them off the front of a byte stream.
 */
module BigEndian {
  import opened Wrappers

  type byte = x: int | 0 <= x < 256

  /** Why a read failed: the stream ended before the field did, or a field was inconsistent. */
  datatype DecodeError = EndOfStream | BadLength(length: int)

  /** A decoded value and the bytes after it. */
  datatype Taken<+T> = Taken(value: T, rest: seq<byte>)

  /** 256 to the power `n`: the number of distinct `n`-byte values. */
  function Pow256(n: nat): (r: nat)
    ensures r >= 1
  {
    if n == 0 then 1 else 256 * Pow256(n - 1)
  }

  lemma Pow256Values()
    ensures Pow256(1) == 0x100 && Pow256(2) == 0x1_0000 && Pow256(4) == 0x1_0000_0000
  {
  }

  /** The `width` bytes of `v`, most significant first. */
  function ToBytes(v: nat, width: nat): (r: seq<byte>)
    requires v < Pow256(width)
    ensures |r| == width
  {
    if width == 0 then [] else ToBytes(v / 256, width - 1) + [v % 256]
  }

  /** The unsigned value of a big-endian byte string. */
  function FromBytes(bs: seq<byte>): (r: nat)
    ensures r < Pow256(|bs|)
  {
    if bs == [] then 0 else FromBytes(bs[..|bs| - 1]) * 256 + bs[|bs| - 1]
  }

  lemma {:induction false} FromToBytes(v: nat, width: nat)
    requires v < Pow256(width)
    ensures FromBytes(ToBytes(v, width)) == v
  {
    if width > 0 {
      var r := ToBytes(v, width);
      assert r[..width - 1] == ToBytes(v / 256, width - 1);
      FromToBytes(v / 256, width - 1);
    }
  }

  lemma {:induction false} ToFromBytes(bs: seq<byte>)
    ensures ToBytes(FromBytes(bs), |bs|) == bs
  {
    if bs != [] {
      var init := bs[..|bs| - 1];
      ToFromBytes(init);
      assert bs == init + [bs[|bs| - 1]];
    }
  }

  /** The field `x` occupies when packed into `width` bytes: Ruby keeps the low bytes. */
  function Pack(x: int, width: nat): (r: seq<byte>)
    ensures |r| == width
  {
    ToBytes(x % Pow256(width), width)
  }

  /** Two's complement reading of an unsigned `width`-byte value. */
  function Signed(u: nat, width: nat): int
  {
    if 2 * u >= Pow256(width) then u - Pow256(width) else u
  }

  /** The values a signed `width`-byte field holds. */
  predicate InSigned(x: int, width: nat)
  {
    -(Pow256(width) as int) <= 2 * x < Pow256(width)
  }

  /** The values an unsigned `width`-byte field holds. */
  predicate InUnsigned(x: int, width: nat)
  {
    0 <= x < Pow256(width)
  }

  /** Reads an unsigned `width`-byte field off the front of `s`. */
  function ReadUnsigned(s: seq<byte>, width: nat): (r: Result<Taken<nat>, DecodeError>)
    ensures r.Ok? <==> |s| >= width
    ensures r.Ok? ==> InUnsigned(r.value.value, width) && r.value.rest == s[width..]
    ensures r.Err? ==> r.error == EndOfStream
  {
    if |s| < width then Err(EndOfStream) else Ok(Taken(FromBytes(s[..width]), s[width..]))
  }

  /** Reads a signed (two's complement) `width`-byte field off the front of `s`. */
  function ReadSigned(s: seq<byte>, width: nat): (r: Result<Taken<int>, DecodeError>)
    ensures r.Ok? <==> |s| >= width
    ensures r.Ok? ==> InSigned(r.value.value, width) && r.value.rest == s[width..]
    ensures r.Err? ==> r.error == EndOfStream
  {
    if |s| < width then Err(EndOfStream)
    else Ok(Taken(Signed(FromBytes(s[..width]), width), s[width..]))
  }

  /** Reads `n` opaque bytes off the front of `s`. */
  function ReadBytes(s: seq<byte>, n: nat): (r: Result<Taken<seq<byte>>, DecodeError>)
    ensures r.Ok? <==> |s| >= n
    ensures r.Ok? ==> r.value.value + r.value.rest == s && |r.value.value| == n
  {
    if |s| < n then Err(EndOfStream) else Ok(Taken(s[..n], s[n..]))
  }

  lemma ModOfSmall(x: int, p: int)
    requires 0 <= x < p
    ensures x % p == x
  {
  }

  lemma ModOfNegative(x: int, p: int)
    requires 0 < p && -p <= x < 0
    ensures x % p == x + p
  {
  }

  /** A read of `width` bytes looks at exactly the packed prefix. */
  lemma ReadPrefix(field: seq<byte>, rest: seq<byte>, width: nat)
    requires |field| == width
    ensures ReadUnsigned(field + rest, width) == Ok(Taken(FromBytes(field), rest))
    ensures ReadSigned(field + rest, width) == Ok(Taken(Signed(FromBytes(field), width), rest))
  {
    var s := field + rest;
    assert s[..width] == field && s[width..] == rest;
  }

  /** The value an unsigned `width`-byte field holds after packing `x`: its low bytes. */
  function WrapUnsigned(x: int, width: nat): (r: nat)
    ensures InUnsigned(r, width)
  {
    x % Pow256(width)
  }

  /** The value a signed `width`-byte field holds after packing `x`. */
  function WrapSigned(x: int, width: nat): (r: int)
    ensures InSigned(r, width)
  {
    Signed(x % Pow256(width), width)
  }

  /** A value the field can hold is packed without loss. */
  lemma WrapUnsignedInRange(x: int, width: nat)
    ensures InUnsigned(x, width) ==> WrapUnsigned(x, width) == x
  {
    if InUnsigned(x, width) {
      ModOfSmall(x, Pow256(width));
    }
  }

  lemma WrapSignedInRange(x: int, width: nat)
    ensures InSigned(x, width) ==> WrapSigned(x, width) == x
  {
    var p := Pow256(width);
    if InSigned(x, width) && x >= 0 {
      ModOfSmall(x, p);
    } else if InSigned(x, width) {
      ModOfNegative(x, p);
    }
  }

  /** Unpacking a packed field gives back the field, wrapped to the width written. */
  lemma ReadPackUnsigned(x: int, width: nat, rest: seq<byte>)
    ensures ReadUnsigned(Pack(x, width) + rest, width) == Ok(Taken(WrapUnsigned(x, width), rest))
  {
    FromToBytes(x % Pow256(width), width);
    ReadPrefix(Pack(x, width), rest, width);
  }

  lemma ReadPackSigned(x: int, width: nat, rest: seq<byte>)
    ensures ReadSigned(Pack(x, width) + rest, width) == Ok(Taken(WrapSigned(x, width), rest))
  {
    FromToBytes(x % Pow256(width), width);
    ReadPrefix(Pack(x, width), rest, width);
  }

  /** Packing the value read gives back the bytes that were read. */
  lemma PackReadUnsigned(s: seq<byte>, width: nat)
    requires |s| >= width
    ensures Pack(ReadUnsigned(s, width).value.value, width) + s[width..] == s
  {
    var field := s[..width];
    var u := FromBytes(field);
    ModOfSmall(u, Pow256(width));
    ToFromBytes(field);
    assert field + s[width..] == s;
  }

  lemma PackReadSigned(s: seq<byte>, width: nat)
    requires |s| >= width
    ensures Pack(ReadSigned(s, width).value.value, width) + s[width..] == s
  {
    var field := s[..width];
    var u := FromBytes(field);
    var p := Pow256(width);
    if 2 * u >= p {
      ModOfNegative(u as int - p, p);
    } else {
      ModOfSmall(u, p);
    }
    assert Signed(u, width) % p == u;
    ToFromBytes(field);
    assert field + s[width..] == s;
  }
}
