/** Fixed-width unsigned integers of the firmware (uint8_t, uint16_t,
    uint32_t / unsigned long on a 32-bit microcontroller) and the C
    conversion that narrows an integer into one of them. */
module Ints {

  const U8_LIMIT: int := 0x100
  const U16_LIMIT: int := 0x1_0000
  const U32_LIMIT: int := 0x1_0000_0000

  type U8 = x: int | 0 <= x < 0x100
  type U16 = x: int | 0 <= x < 0x1_0000
  type U32 = x: int | 0 <= x < 0x1_0000_0000

  /** Conversion to uint8_t: reduction modulo 2^8. */
  function ToU8(x: int): (r: U8)
    ensures 0 <= x < U8_LIMIT ==> r == x
    ensures (x - r) % U8_LIMIT == 0
  {
    x % U8_LIMIT
  }

  /** Conversion to uint16_t: reduction modulo 2^16. */
  function ToU16(x: int): (r: U16)
    ensures 0 <= x < U16_LIMIT ==> r == x
    ensures (x - r) % U16_LIMIT == 0
  {
    x % U16_LIMIT
  }

  /** Conversion to uint32_t: reduction modulo 2^32. */
  function ToU32(x: int): (r: U32)
    ensures 0 <= x < U32_LIMIT ==> r == x
    ensures (x - r) % U32_LIMIT == 0
  {
    x % U32_LIMIT
  }

  /** The firmware's two-step clamp: raise to lo, then lower to hi. */
  function Clamp(x: int, lo: int, hi: int): (r: int)
    requires lo <= hi
    ensures lo <= r <= hi
    ensures lo <= x <= hi ==> r == x
    ensures x < lo ==> r == lo
    ensures hi < x ==> r == hi
  {
    if x < lo then lo else if x > hi then hi else x
  }

  function Min(x: int, y: int): (r: int)
    ensures r <= x && r <= y && (r == x || r == y)
  {
    if x <= y then x else y
  }
}
