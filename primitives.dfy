/** Fixed-width unsigned integers, little-endian words and the error of a
    fallible conversion from a primitive integer (`TryFromPrimitiveError`). */
module Primitives {

  newtype u8 = x: int | 0 <= x < 0x100
  newtype u16 = x: int | 0 <= x < 0x1_0000
  newtype u32 = x: int | 0 <= x < 0x1_0000_0000

  /** The little-endian unsigned 16-bit word stored in `b[k]` (low byte) and `b[k + 1]` (high byte). */
  function LeU16(b: seq<u8>, k: nat): u16
    requires k + 2 <= |b|
  {
    (b[k] as int + 0x100 * b[k + 1] as int) as u16
  }

  function LowByte(w: u16): u8 {
    (w % 0x100) as u8
  }

  function HighByte(w: u16): u8 {
    (w / 0x100) as u8
  }

  /** The two bytes a little-endian writer emits for `w`. */
  function LeBytes(w: u16): seq<u8> {
    [LowByte(w), HighByte(w)]
  }

  /** Reading back the two bytes written for a word gives the word. */
  lemma LeU16OfLeBytes(w: u16)
    ensures LeU16(LeBytes(w), 0) == w
  {
  }

  /** `count` consecutive little-endian words starting at byte `start`. */
  function Words(b: seq<u8>, start: nat, count: nat): seq<u16>
    requires count == 0 || start + 2 * count <= |b|
  {
    seq(count, i requires 0 <= i < count => LeU16(b, start + 2 * i))
  }

  /** A failed conversion of `number` into the type whose Rust name is `name`. */
  datatype ConversionError = ConversionError(name: string, number: u16)
}
