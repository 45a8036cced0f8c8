/**
 * Java `int` arithmetic: 32-bit two's-complement values, addition and
 * subtraction that wrap around, and division that truncates toward zero.
 */
module JavaInt {
  const MIN: int := -0x8000_0000
  const MAX: int := 0x7FFF_FFFF
  const MODULUS: int := 0x1_0000_0000

  /** The values of a Java `int`. */
  type Int32 = i: int | -0x8000_0000 <= i <= 0x7FFF_FFFF

  /** Java `a + b`: the exact sum when it fits, otherwise the sum wrapped by 2^32. */
  function Add(a: Int32, b: Int32): (r: Int32)
    ensures MIN <= a + b <= MAX ==> r == a + b
    ensures r == a + b || r == a + b - MODULUS || r == a + b + MODULUS
  {
    if a + b > MAX then a + b - MODULUS
    else if a + b < MIN then a + b + MODULUS
    else a + b
  }

  /** Java `a - b`: the exact difference when it fits, otherwise wrapped by 2^32. */
  function Sub(a: Int32, b: Int32): (r: Int32)
    ensures MIN <= a - b <= MAX ==> r == a - b
    ensures r == a - b || r == a - b - MODULUS || r == a - b + MODULUS
  {
    if a - b > MAX then a - b - MODULUS
    else if a - b < MIN then a - b + MODULUS
    else a - b
  }

  /**
   * Java `a / 2`: the quotient rounded toward zero, so the remainder
   * `a - 2 * r` has the sign of `a` (Dafny's own `/` is Euclidean instead).
   */
  function Half(a: Int32): (r: Int32)
    ensures 0 <= a ==> 0 <= a - 2 * r <= 1
    ensures a < 0 ==> -1 <= a - 2 * r <= 0
  {
    if a >= 0 then a / 2 else -((-(a as int)) / 2)
  }

  /** Between zero and its argument: adding half of `a` never leaves the segment from 0 to `a`. */
  lemma HalfBetween(a: Int32)
    ensures 0 <= a ==> 0 <= Half(a) <= a
    ensures a < 0 ==> a <= Half(a) <= 0
  {
  }
}
