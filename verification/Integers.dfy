/** Signed 64-bit integers. */
module Integers {

  const MAX_INT64: int := 0x7FFF_FFFF_FFFF_FFFF

  const TWO_TO_THE_64: int := 0x1_0000_0000_0000_0000

  type Int64 = x: int | -MAX_INT64 - 1 <= x <= MAX_INT64

  /** Signed arithmetic wraps around. */
  function Wrap(x: int): (w: Int64)
    ensures -MAX_INT64 - 1 <= x <= MAX_INT64 ==> w == x
    ensures (w - x) % TWO_TO_THE_64 == 0
  {
    var m := x % TWO_TO_THE_64;
    if m <= MAX_INT64 then m else m - TWO_TO_THE_64
  }
}
