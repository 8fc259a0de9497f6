/** Java's 32-bit `int` and its wrap-around addition. */
module JavaInt {

  const TwoTo31: int := 0x8000_0000
  const TwoTo32: int := 0x1_0000_0000

  newtype int32 = x: int | -0x8000_0000 <= x < 0x8000_0000

  /** True when `x` is representable as a Java `int`. */
  predicate InRange(x: int) {
    -TwoTo31 <= x < TwoTo31
  }

  /** Java's `a + b` on `int`: the exact sum when it fits, otherwise the sum wrapped modulo 2^32. */
  function Add(a: int32, b: int32): (r: int32)
    ensures InRange(a as int + b as int) ==> r as int == a as int + b as int
    ensures (r as int - (a as int + b as int)) % TwoTo32 == 0
  {
    var s := a as int + b as int;
    if s >= TwoTo31 then (s - TwoTo32) as int32
    else if s < -TwoTo31 then (s + TwoTo32) as int32
    else s as int32
  }
}
