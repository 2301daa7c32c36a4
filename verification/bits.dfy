/**
 * The integer bit operations the handlers use, on unbounded `int`s that
 * stand for the source's two's-complement C `int`.
 */
module Bits {
  predicate IsByte(x: int) { 0 <= x < 256 }

  predicate IsBit(x: int) { x == 0 || x == 1 }

  /** C's comparison result (`a == b`, `a > b`) used as an int. */
  function BoolBit(b: bool): (r: int)
    ensures IsBit(r) && (r == 1 <==> b)
  {
    if b then 1 else 0
  }

  /**
   * `(x >> k) & 1` for a two's-complement `x` and an arithmetic right
   * shift, for the bit positions 0..8 the handlers read: Dafny's `/` rounds
   * toward minus infinity for a positive divisor, which is what an
   * arithmetic shift does. Each position divides by its own constant.
   */
  function Bit(x: int, k: nat): (b: int)
    requires k <= 8
    ensures IsBit(b)
  {
    match k
    case 0 => x % 2
    case 1 => (x / 2) % 2
    case 2 => (x / 4) % 2
    case 3 => (x / 8) % 2
    case 4 => (x / 16) % 2
    case 5 => (x / 32) % 2
    case 6 => (x / 64) % 2
    case 7 => (x / 128) % 2
    case _ => (x / 256) % 2
  }

  /** `x & 255` for a two's-complement `x`. */
  function Low8(x: int): (b: int)
    ensures IsByte(b)
    ensures IsByte(x) ==> b == x
  {
    x % 256
  }

  function And8(x: int, y: int): (r: int)
    requires IsByte(x) && IsByte(y)
    ensures IsByte(r)
  {
    ((x as bv8) & (y as bv8)) as int
  }

  function Or8(x: int, y: int): (r: int)
    requires IsByte(x) && IsByte(y)
    ensures IsByte(r)
  {
    ((x as bv8) | (y as bv8)) as int
  }

  function Xor8(x: int, y: int): (r: int)
    requires IsByte(x) && IsByte(y)
    ensures IsByte(r)
  {
    ((x as bv8) ^ (y as bv8)) as int
  }

  /** The two's-complement reading of a byte. */
  function Signed(x: int): (r: int)
    requires IsByte(x)
    ensures -128 <= r < 128
    ensures r == x || r == x - 256
  {
    if x < 128 then x else x - 256
  }

  /** Bit 7 of any int is bit 7 of its low byte, that is, whether the low byte is at least 128. */
  lemma Bit7Low8(x: int)
    ensures Bit(x, 7) == BoolBit(Low8(x) >= 128)
  {
    var q, r := x / 256, x % 256;
    assert x == 256 * q + r && 0 <= r < 256;
    assert x / 128 == 2 * q + r / 128;
  }

  /** Bit 7 of a byte is its sign. */
  lemma Bit7Byte(x: int)
    requires IsByte(x)
    ensures Bit(x, 7) == BoolBit(x >= 128)
  {
    Bit7Low8(x);
  }

  /** Bit 8 of a nine-bit sum is its carry out of the low byte. */
  lemma Bit8Sum(t: int)
    requires 0 <= t < 512
    ensures Bit(t, 8) == BoolBit(t >= 256)
  {
  }

  /** Bit 8 of a difference of bytes (two's complement) is its borrow. */
  lemma Bit8Diff(t: int)
    requires -256 <= t < 256
    ensures Bit(t, 8) == BoolBit(t < 0)
  {
  }

  /** Bit 0 is the parity. */
  lemma Bit0(x: int)
    ensures Bit(x, 0) == x % 2
  {
  }

  /** Bit 6 of a byte, as a range test. */
  lemma Bit6Byte(x: int)
    requires IsByte(x)
    ensures Bit(x, 6) == BoolBit(64 <= x < 128 || 192 <= x)
  {
  }
}
