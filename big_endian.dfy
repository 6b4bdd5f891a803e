/**
 * Fixed-width unsigned integers and the big-endian field reads the wheel
 * decoder relies on (the `be16dec` / `be32dec` helpers of <endian.h>).
 * A wire buffer is a sequence of bytes; a field is read at a byte offset.
 */
module Bytes {

  type byte = b: nat | b < 0x100
  type uint16 = x: nat | x < 0x1_0000
  type uint32 = x: nat | x < 0x1_0000_0000

  /** `be16dec(raw + off)`: the two bytes at `off`, most significant first. */
  function Be16(raw: seq<byte>, off: nat): uint16
    requires off + 2 <= |raw|
  {
    raw[off] as nat * 0x100 + raw[off + 1]
  }

  /** `be32dec(raw + off)`: the four bytes at `off`, most significant first. */
  function Be32(raw: seq<byte>, off: nat): uint32
    requires off + 4 <= |raw|
  {
    raw[off] as nat * 0x100_0000 + raw[off + 1] as nat * 0x1_0000 + raw[off + 2] as nat * 0x100 + raw[off + 3]
  }

  /** The two wire bytes of a 16-bit value in big-endian order (the inverse of Be16). */
  function Be16Bytes(v: uint16): (r: seq<byte>)
    ensures |r| == 2 && Be16(r, 0) == v
  {
    [v / 0x100, v % 0x100]
  }

  /** The four wire bytes of a 32-bit value in big-endian order (the inverse of Be32). */
  function Be32Bytes(v: uint32): (r: seq<byte>)
    ensures |r| == 4 && Be32(r, 0) == v
  {
    var hi := v / 0x1_0000;
    var lo := v % 0x1_0000;
    assert v == hi * 0x1_0000 + lo;
    assert hi == (hi / 0x100) * 0x100 + hi % 0x100;
    assert lo == (lo / 0x100) * 0x100 + lo % 0x100;
    assert hi / 0x100 == v / 0x100_0000;
    [hi / 0x100, hi % 0x100, lo / 0x100, lo % 0x100]
  }

  /** Reading a field only looks at its own bytes: the read at `off` is the read of the slice. */
  lemma Be16Slice(raw: seq<byte>, off: nat)
    requires off + 2 <= |raw|
    ensures Be16(raw, off) == Be16(raw[off..off + 2], 0)
  {
  }

  lemma Be32Slice(raw: seq<byte>, off: nat)
    requires off + 4 <= |raw|
    ensures Be32(raw, off) == Be32(raw[off..off + 4], 0)
  {
  }

  /** Encoding a decoded 16-bit field gives back exactly its two bytes. */
  lemma Be16BytesOfRead(raw: seq<byte>, off: nat)
    requires off + 2 <= |raw|
    ensures Be16Bytes(Be16(raw, off)) == raw[off..off + 2]
  {
    var v := Be16(raw, off);
    assert v / 0x100 == raw[off];
    assert v % 0x100 == raw[off + 1];
  }

  /** Encoding a decoded 32-bit field gives back exactly its four bytes. */
  lemma Be32BytesOfRead(raw: seq<byte>, off: nat)
    requires off + 4 <= |raw|
    ensures Be32Bytes(Be32(raw, off)) == raw[off..off + 4]
  {
    var v := Be32(raw, off);
    var hi: nat := raw[off] as nat * 0x100 + raw[off + 1];
    var lo: nat := raw[off + 2] as nat * 0x100 + raw[off + 3];
    assert v == hi * 0x1_0000 + lo;
    assert v / 0x1_0000 == hi;
    assert v % 0x1_0000 == lo;
    assert hi / 0x100 == raw[off] && hi % 0x100 == raw[off + 1];
    assert lo / 0x100 == raw[off + 2] && lo % 0x100 == raw[off + 3];
  }
}
