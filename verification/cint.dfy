/** C integer widths used by the test driver, and the conversions between
    them written out explicitly (Dafny integers are unbounded). */
module CInt {

  const INT_MIN: int := -0x8000_0000
  const INT_MAX: int := 0x7FFF_FFFF
  const UINT_MAX: int := 0xFFFF_FFFF
  const TWO_32: int := 0x1_0000_0000
  const TWO_64: int := 0x1_0000_0000_0000_0000

  /** A value of C type `int` (32 bits on every platform the driver targets). */
  predicate IsInt(x: int) {
    INT_MIN <= x <= INT_MAX
  }

  /** A value of C type `size_t` (64 bits: LP64 and Win64). */
  predicate IsSize(x: int) {
    0 <= x < TWO_64
  }

  /** A value of C type `unsigned int` or `DWORD`. */
  predicate IsUint(x: int) {
    0 <= x < TWO_32
  }

  /** Conversion to `unsigned int`: reduction modulo 2^32. */
  function ToUint(x: int): (r: nat)
    ensures IsUint(r)
    ensures IsUint(x) ==> r == x
    ensures (x - r) % TWO_32 == 0
  {
    x % TWO_32
  }

  /** Conversion to `size_t`: reduction modulo 2^64. */
  function ToSize(x: int): (r: nat)
    ensures IsSize(r)
    ensures IsSize(x) ==> r == x
    ensures (x - r) % TWO_64 == 0
  {
    x % TWO_64
  }

  /** Two's-complement wrap into `int`; this is what signed overflow does
      on the compilers the driver is built with, although C leaves it
      undefined. */
  function ToInt(x: int): (r: int)
    ensures IsInt(r)
    ensures IsInt(x) ==> r == x
    ensures (x - r) % TWO_32 == 0
  {
    var m := x % TWO_32;
    if m > INT_MAX then m - TWO_32 else m
  }

  /** Saturation into `int`, the way the C library's `strtol` family
      reports a value it cannot represent. */
  function ClampInt(x: int): (r: int)
    ensures IsInt(r)
    ensures IsInt(x) ==> r == x
    ensures x > INT_MAX ==> r == INT_MAX
    ensures x < INT_MIN ==> r == INT_MIN
  {
    if x > INT_MAX then INT_MAX else if x < INT_MIN then INT_MIN else x
  }
}
