/** Kotlin's fixed-width integers. */
module Ints {

  const INT_MIN: int := -0x8000_0000
  const INT_MAX: int := 0x7fff_ffff
  const LONG_MIN: int := -0x8000_0000_0000_0000
  const LONG_MAX: int := 0x7fff_ffff_ffff_ffff

  /** Kotlin `Int` */
  type Int32 = x: int | INT_MIN <= x <= INT_MAX
  /** Kotlin `Long` */
  type Int64 = x: int | LONG_MIN <= x <= LONG_MAX

  /** Two's-complement wrap-around of an exact integer into 32 bits: what Kotlin's
      `Int` arithmetic and `Long.toInt()` do. */
  function Wrap32(x: int): (r: Int32)
    ensures (r - x) % 0x1_0000_0000 == 0
    ensures INT_MIN <= x <= INT_MAX ==> r == x
  {
    var m := x % 0x1_0000_0000;
    if m <= INT_MAX then m else m - 0x1_0000_0000
  }

  /** Kotlin's `a - b` on two `Int`s. */
  function Sub32(a: Int32, b: Int32): (r: Int32)
    ensures INT_MIN <= a - b <= INT_MAX ==> r == a - b
    ensures (r - (a - b)) % 0x1_0000_0000 == 0
  {
    Wrap32(a - b)
  }
}
