/** Fixed-width integers of the CLR, modelled over unbounded `int`. */
module BoundedInts {

  const TWO_TO_THE_31: int := 0x8000_0000
  const TWO_TO_THE_32: int := 0x1_0000_0000

  /** C#'s `int`. */
  newtype Int32 = x: int | -0x8000_0000 <= x < 0x8000_0000

  /** C#'s `uint`. */
  newtype UInt32 = x: int | 0 <= x < 0x1_0000_0000

  /** The unchecked `(int)` cast of a `uint`: the same 32 bits read as two's complement. */
  function AsInt32(bits: UInt32): (r: Int32)
    ensures (r as int - bits as int) % TWO_TO_THE_32 == 0
    ensures r < 0 <==> bits as int >= TWO_TO_THE_31
  {
    if bits as int < TWO_TO_THE_31 then bits as int as Int32
    else (bits as int - TWO_TO_THE_32) as Int32
  }

  /** The unchecked `(uint)` cast of an `int`: the same 32 bits read as unsigned. */
  function AsUInt32(v: Int32): (r: UInt32)
    ensures (r as int - v as int) % TWO_TO_THE_32 == 0
    ensures v >= 0 ==> r as int == v as int
  {
    if v >= 0 then v as int as UInt32 else (v as int + TWO_TO_THE_32) as UInt32
  }
}
