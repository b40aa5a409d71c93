/**
 * The overflow guards `unsigned_int_overflow` and `unsigned_llong_overflow`.
 * Both driver files define them identically. They decide whether `a + b`
 * exceeds the type's maximum by comparing `MAX - a` with `b`, so the wrapped
 * sum is never computed and the subtraction cannot underflow.
 * The console warning they print is not modelled.
 */
module Overflow {
  import opened Uint

  /** 1 when `a + b` does not fit in an `unsigned int`, 0 otherwise. */
  function UnsignedIntOverflow(a: u32, b: u32): (r: int)
    ensures r == 1 <==> a as int + b as int > UINT_MAX as int
    ensures r == 0 <==> a as int + b as int <= UINT_MAX as int
  {
    // The subtraction is checked by Dafny to stay within u32: it cannot underflow.
    if UINT_MAX - a < b then 1 else 0
  }

  /** 1 when `a + b` does not fit in an `unsigned long long`, 0 otherwise. */
  function UnsignedLLongOverflow(a: u64, b: u64): (r: int)
    ensures r == 1 <==> a as int + b as int > ULLONG_MAX as int
    ensures r == 0 <==> a as int + b as int <= ULLONG_MAX as int
  {
    if ULLONG_MAX - a < b then 1 else 0
  }

  /** The guard agrees with the classic after-the-fact test "the wrapped sum is smaller than a". */
  lemma IntOverflowIffWraps(a: u32, b: u32)
    ensures UnsignedIntOverflow(a, b) == 1 <==> Wrap32(a as int + b as int) < a
    ensures UnsignedIntOverflow(a, b) == 0 <==> Wrap32(a as int + b as int) as int == a as int + b as int
  {
    if a as int + b as int >= TWO_32 {
      assert (a as int + b as int) % TWO_32 == a as int + b as int - TWO_32;
    }
  }

  /** The same agreement for the 64-bit guard. */
  lemma LLongOverflowIffWraps(a: u64, b: u64)
    ensures UnsignedLLongOverflow(a, b) == 1 <==> Wrap64(a as int + b as int) < a
    ensures UnsignedLLongOverflow(a, b) == 0 <==> Wrap64(a as int + b as int) as int == a as int + b as int
  {
    if a as int + b as int >= TWO_64 {
      assert (a as int + b as int) % TWO_64 == a as int + b as int - TWO_64;
    }
  }
}
