/** Fixed-width unsigned integers, their little-endian byte encodings, and the
    observable effect of reading a section of an in-memory byte buffer: a read
    that finds too few bytes leaves its target at the zero value, and a copy of
    a section stops at the end of the buffer. */
module LittleEndian {

  type byte = x: int | 0 <= x < 0x100
  type uint16 = x: int | 0 <= x < 0x1_0000
  type uint32 = x: int | 0 <= x < 0x1_0000_0000

  const UINT32_MODULUS: int := 0x1_0000_0000

  /** Addition on uint32 operands, wrapping around at 2^32 as Go's `+` does. */
  function AddU32(x: uint32, y: uint32): (r: uint32)
    ensures x + y < UINT32_MODULUS ==> r == x + y
    ensures x + y >= UINT32_MODULUS ==> r == x + y - UINT32_MODULUS
  {
    (x + y) % UINT32_MODULUS
  }

  lemma AddU32Associative(x: uint32, y: uint32, z: uint32)
    ensures AddU32(AddU32(x, y), z) == AddU32(x, AddU32(y, z))
  {
  }

  function Min(a: int, b: int): (m: int) {
    if a <= b then a else b
  }

  // ---------------------------------------------------------------------------
  // Little-endian encodings (least significant byte first)

  function LE16(b: seq<byte>): (x: uint16)
    requires |b| == 2
  {
    b[0] as int + 0x100 * b[1] as int
  }

  function U16LE(x: uint16): (b: seq<byte>)
    ensures |b| == 2
  {
    [x % 0x100, x / 0x100]
  }

  /** A 32-bit value is its low 16-bit half followed by its high half. */
  function LE32(b: seq<byte>): (x: uint32)
    requires |b| == 4
  {
    LE16(b[..2]) as int + 0x1_0000 * LE16(b[2..]) as int
  }

  function U32LE(x: uint32): (b: seq<byte>)
    ensures |b| == 4
  {
    U16LE(x % 0x1_0000) + U16LE(x / 0x1_0000)
  }

  lemma LE16OfU16LE(x: uint16)
    ensures LE16(U16LE(x)) == x
  {
  }

  lemma U16LEOfLE16(b: seq<byte>)
    requires |b| == 2
    ensures U16LE(LE16(b)) == b
  {
  }

  lemma LE32OfU32LE(x: uint32)
    ensures LE32(U32LE(x)) == x
  {
  }

  lemma U32LEOfLE32(b: seq<byte>)
    requires |b| == 4
    ensures U32LE(LE32(b)) == b
  {
  }

  // ---------------------------------------------------------------------------
  // Reading a section [off, off + n) of a buffer

  /** The n bytes a whole-value read of section [off, off + n) stores: the
      section itself when the buffer holds all of it, otherwise the target keeps
      its zero value, because a short read stores nothing. */
  function ReadBytes(s: seq<byte>, off: nat, n: nat): (r: seq<byte>)
    ensures |r| == n
    ensures off + n <= |s| ==> r == s[off..off + n]
    ensures off + n > |s| ==> forall i | 0 <= i < n :: r[i] == 0
  {
    if off + n <= |s| then s[off..off + n] else seq(n, _ => 0)
  }

  /** A uint16 field read at off: the little-endian value of its two bytes
      when the buffer holds them, zero otherwise. */
  function ReadU16(s: seq<byte>, off: nat): (x: uint16)
    ensures off + 2 <= |s| ==> x == s[off] as int + 0x100 * s[off + 1] as int
    ensures off + 2 > |s| ==> x == 0
  {
    LE16(ReadBytes(s, off, 2))
  }

  /** A uint32 field read at off: the little-endian value of its four bytes
      when the buffer holds them, zero otherwise. */
  function ReadU32(s: seq<byte>, off: nat): (x: uint32)
    ensures off + 4 <= |s| ==> x == LE32(s[off..off + 4])
    ensures off + 4 > |s| ==> x == 0
  {
    LE32(ReadBytes(s, off, 4))
  }

  /** What a copy of section [off, off + n) yields: the bytes of that section
      that the buffer actually holds. */
  function CopySection(s: seq<byte>, off: nat, n: nat): (r: seq<byte>)
    ensures |r| <= n
    ensures off + n <= |s| ==> r == s[off..off + n]
    ensures off <= |s| < off + n ==> r == s[off..]
    ensures off >= |s| ==> r == []
  {
    if off >= |s| then [] else s[off..Min(off + n, |s|)]
  }
}
