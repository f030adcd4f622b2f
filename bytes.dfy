/**
 * Fixed-width unsigned integers and the little-endian byte view of a 16-bit
 * value, as the profile stores and transfers its characteristic values.
 */
module Bytes {

  type uint8 = x: nat | x < 0x100
  type uint16 = x: nat | x < 0x1_0000

  /** The byte at the lower address of a 16-bit value on a little-endian target. */
  function Lo(x: uint16): uint8 { x % 0x100 }

  /** The byte at the higher address of a 16-bit value on a little-endian target. */
  function Hi(x: uint16): uint8 { x / 0x100 }

  /** BUILD_UINT16(lo, hi): the 16-bit value whose two bytes are lo and hi. */
  function Build16(lo: uint8, hi: uint8): (r: uint16)
    ensures Lo(r) == lo && Hi(r) == hi
  {
    lo + 0x100 * hi
  }

  /** The two bytes of a 16-bit value in memory order (what memcpy copies out). */
  function Encode16(x: uint16): (r: seq<uint8>)
    ensures |r| == 2
  {
    [Lo(x), Hi(x)]
  }

  /** Writing one byte through a `uint8_t *` aimed at a 16-bit value: only the low byte changes. */
  function SetLowByte(x: uint16, b: uint8): (r: uint16)
    ensures Lo(r) == b && Hi(r) == Hi(x)
  {
    Build16(b, Hi(x))
  }

  /** Writing one byte at the higher address of a 16-bit value. */
  function SetHighByte(x: uint16, b: uint8): (r: uint16)
    ensures Lo(r) == Lo(x) && Hi(r) == b
  {
    Build16(Lo(x), b)
  }

  /** A 16-bit value is determined by its two bytes. */
  lemma BytesDetermineValue(x: uint16, y: uint16)
    requires Lo(x) == Lo(y) && Hi(x) == Hi(y)
    ensures x == y
  {
    assert x == Hi(x) * 0x100 + Lo(x);
    assert y == Hi(y) * 0x100 + Lo(y);
  }

  /** Decoding the encoded bytes gives the value back, and encoding decoded bytes gives the bytes back. */
  lemma Encode16RoundTrip(x: uint16, lo: uint8, hi: uint8)
    ensures Build16(Encode16(x)[0], Encode16(x)[1]) == x
    ensures Encode16(Build16(lo, hi)) == [lo, hi]
  {
  }

  /**
   * A one-byte write over a 16-bit value reads back as exactly that byte only
   * when the high byte was already zero: otherwise the stale high byte stays
   * visible.
   */
  lemma LowByteWriteExposesStaleHigh(x: uint16, b: uint8)
    ensures SetLowByte(x, b) == b <==> Hi(x) == 0
  {
    if Hi(x) == 0 {
      BytesDetermineValue(SetLowByte(x, b), b);
    }
  }
}
