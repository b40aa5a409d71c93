/**
 * Fixed-width unsigned integers of the C++ programs: `unsigned short`,
 * `unsigned int` and `unsigned long long`, and the modulo-2^w arithmetic
 * that C++ defines for them.
 */
module Uint {
  const TWO_16: int := 0x1_0000
  const TWO_32: int := 0x1_0000_0000
  const TWO_64: int := 0x1_0000_0000_0000_0000

  newtype u16 = x: int | 0 <= x < 0x1_0000
  newtype u32 = x: int | 0 <= x < 0x1_0000_0000
  newtype u64 = x: int | 0 <= x < 0x1_0000_0000_0000_0000

  /** `UINT_MAX` and `ULLONG_MAX` of <climits>. */
  const UINT_MAX: u32 := 0xFFFF_FFFF
  const ULLONG_MAX: u64 := 0xFFFF_FFFF_FFFF_FFFF

  /** The value an `unsigned int` holds once assigned the mathematical value x. */
  function Wrap32(x: int): u32
  {
    (x % TWO_32) as u32
  }

  /** The value an `unsigned long long` holds once assigned the mathematical value x. */
  function Wrap64(x: int): u64
  {
    (x % TWO_64) as u64
  }

  /** Conversion of an `int` to `unsigned short` (modulo 2^16, as C++ defines it). */
  function ToU16(x: int): u16
  {
    (x % TWO_16) as u16
  }

  /** A value that already fits is unchanged by wrapping. */
  lemma Wrap64Fits(x: int)
    requires 0 <= x < TWO_64
    ensures Wrap64(x) as int == x
  {
  }

  /** Wrapping an intermediate result does not change the final wrapped sum. */
  lemma Wrap64Add(x: int, y: int)
    ensures Wrap64(Wrap64(x) as int + Wrap64(y) as int) == Wrap64(x + y)
  {
    var qx, rx := x / TWO_64, x % TWO_64;
    var qy, ry := y / TWO_64, y % TWO_64;
    assert x + y == (qx + qy) * TWO_64 + (rx + ry);
    ModShift(rx + ry, qx + qy);
  }

  /** Wrapping the left operand first does not change the wrapped sum. */
  lemma Wrap64AddLeft(x: int, y: int)
    ensures Wrap64(Wrap64(x) as int + y) == Wrap64(x + y)
  {
    var qx, rx := x / TWO_64, x % TWO_64;
    assert x + y == qx * TWO_64 + (rx + y);
    ModShift(rx + y, qx);
  }

  /** Wrapping the right operand first does not change the wrapped sum. */
  lemma Wrap64AddRight(x: int, y: int)
    ensures Wrap64(x + Wrap64(y) as int) == Wrap64(x + y)
  {
    Wrap64AddLeft(y, x);
  }

  /** Adding a multiple of 2^64 does not change a value modulo 2^64. */
  lemma ModShift(a: int, k: int)
    ensures (a + k * TWO_64) % TWO_64 == a % TWO_64
  {
  }
}
