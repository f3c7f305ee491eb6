/** The 32-bit integers of the original. */
module Integers {

  const TWO_32: int := 0x1_0000_0000

  /** The conversion of an unsigned number to an `int`. */
  function ToInt32(k: int): (r: int)
    ensures -0x8000_0000 <= r < 0x8000_0000 && (r - k) % TWO_32 == 0
  {
    var r := k % TWO_32;
    if r < 0x8000_0000 then r else r - TWO_32
  }
}
