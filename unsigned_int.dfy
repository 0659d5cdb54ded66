/** Fixed-width unsigned integers of the C++ source and their wrap-around subtraction. */
module UnsignedInt {

  const Two32: int := 0x1_0000_0000
  const Two64: int := 0x1_0000_0000_0000_0000

  type uint8 = x: int | 0 <= x < 0x100
  type uint32 = x: int | 0 <= x < 0x1_0000_0000
  type uint64 = x: int | 0 <= x < 0x1_0000_0000_0000_0000

  /** `a - b` evaluated on uint32_t: the difference wraps around modulo 2^32. */
  function Sub32(a: uint32, b: uint32): (d: uint32)
    // adding the difference back to `b` (again on uint32_t) gives `a`
    ensures (b + d) % Two32 == a
    // no wrap-around when `b` does not exceed `a`
    ensures b <= a ==> d == a - b
    // a wrapped difference is larger than `a` itself
    ensures a < b ==> d > a
  {
    (a - b) % Two32
  }

  /** `a - b` evaluated on uint64_t: the difference wraps around modulo 2^64. */
  function Sub64(a: uint64, b: uint64): (d: uint64)
    ensures (b + d) % Two64 == a
    ensures b <= a ==> d == a - b
    ensures a < b ==> d > a
  {
    (a - b) % Two64
  }
}
