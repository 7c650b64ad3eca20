/**
 * Bytes as a `DataView` over an `ArrayBuffer` stores them: `setUint8`, `setUint16`,
 * `setUint32` and `setInt16` with the little-endian flag set keep the low 8, 16 or 32
 * bits of their (integral) argument, lowest byte first.
 */
module Bytes {
  type Byte = b: int | 0 <= b < 256

  const TwoTo16: int := 0x1_0000
  const TwoTo32: int := 0x1_0000_0000

  /** The byte `setUint8` stores for each character code of `s` (ToUint8 keeps its low 8 bits). */
  function Ascii(s: string): seq<Byte>
  {
    seq(|s|, i requires 0 <= i < |s| => ((s[i] as int) % 256) as Byte)
  }

  /** The two bytes a little-endian 16-bit store writes for `v`. */
  function Le16(v: int): seq<Byte>
  {
    [(v % 256) as Byte, ((v / 256) % 256) as Byte]
  }

  /** The four bytes a little-endian 32-bit store writes for `v`. */
  function Le32(v: int): seq<Byte>
  {
    Le16(v) + Le16(v / TwoTo16)
  }

  /** `getUint16(off, true)`. */
  function ReadU16(bs: seq<Byte>, off: nat): int
    requires off + 2 <= |bs|
  {
    bs[off] as int + 256 * bs[off + 1] as int
  }

  /** `getUint32(off, true)`. */
  function ReadU32(bs: seq<Byte>, off: nat): int
    requires off + 4 <= |bs|
  {
    ReadU16(bs, off) + TwoTo16 * ReadU16(bs, off + 2)
  }

  /** `getInt16(off, true)`: the 16 bits read as two's complement. */
  function ReadI16(bs: seq<Byte>, off: nat): int
    requires off + 2 <= |bs|
  {
    var u := ReadU16(bs, off);
    if u < 0x8000 then u else u - TwoTo16
  }

  /** Reading back a 16-bit store gives its argument modulo 2^16. */
  lemma ReadU16OfLe16(bs: seq<Byte>, off: nat, v: int)
    requires off + 2 <= |bs| && bs[off..off + 2] == Le16(v)
    ensures ReadU16(bs, off) == v % TwoTo16
  {
    assert bs[off] == Le16(v)[0] && bs[off + 1] == Le16(v)[1];
  }

  /** Reading back a 32-bit store gives its argument modulo 2^32. */
  lemma ReadU32OfLe32(bs: seq<Byte>, off: nat, v: int)
    requires off + 4 <= |bs| && bs[off..off + 4] == Le32(v)
    ensures ReadU32(bs, off) == v % TwoTo32
  {
    var w := Le32(v);
    assert bs[off] == w[0] && bs[off + 1] == w[1] && bs[off + 2] == w[2] && bs[off + 3] == w[3];
    assert bs[off..off + 2] == w[..2] == Le16(v);
    assert bs[off + 2..off + 4] == w[2..] == Le16(v / TwoTo16);
    ReadU16OfLe16(bs, off, v);
    ReadU16OfLe16(bs, off + 2, v / TwoTo16);
  }

  /** Reading back a 16-bit store as signed gives any argument in the int16 range. */
  lemma ReadI16OfLe16(bs: seq<Byte>, off: nat, v: int)
    requires off + 2 <= |bs| && bs[off..off + 2] == Le16(v)
    requires -0x8000 <= v < 0x8000
    ensures ReadI16(bs, off) == v
  {
    ReadU16OfLe16(bs, off, v);
  }
}
