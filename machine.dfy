/** Fixed-width integer types of the C++ sources and the two pieces of C++
    integer semantics the devices depend on: truncating division and
    remainder, and wrap-around of 64-bit unsigned arithmetic. */
module Machine {

  /** `uint8_t` and `uint32_t` are bit-vectors: the devices mask and shift them. */
  type uint8 = bv8
  type uint32 = bv32

  /** `uint16_t` and `uint64_t` hold counts and times: the PIT does arithmetic on them. */
  newtype uint16 = x: int | 0 <= x < 0x1_0000
  newtype uint64 = x: int | 0 <= x < 0x1_0000_0000_0000_0000

  const TWO_TO_64: int := 0x1_0000_0000_0000_0000

  /** Result of 64-bit unsigned arithmetic whose exact value is `x`. */
  function Wrap64(x: int): (r: uint64)
    ensures 0 <= x < TWO_TO_64 ==> r as int == x
  {
    (x % TWO_TO_64) as uint64
  }

  /** Wrap64 keeps `x` modulo 2^64. */
  lemma Wrap64Congruent(x: int)
    ensures (Wrap64(x) as int - x) % TWO_TO_64 == 0
  {
  }

  /** C++ `a / b` on `int`: the quotient is truncated toward zero. */
  function CDiv(a: int, b: int): int
    requires b > 0
  {
    if a >= 0 then a / b else -((-a) / b)
  }

  /** C++ `a % b` on `int`: the remainder takes the sign of `a`. */
  function CRem(a: int, b: int): (r: int)
    requires b > 0
    ensures a >= 0 ==> 0 <= r < b
    ensures a <= 0 ==> -b < r <= 0
  {
    if a >= 0 then a % b else -((-a) % b)
  }

  /** C++ division and remainder agree: `a == b * (a / b) + a % b`. */
  lemma CDivRem(a: int, b: int)
    requires b > 0
    ensures a == b * CDiv(a, b) + CRem(a, b)
  {
  }

  /** The `uint8_t` holding the value `x`; C++ stores a byte-sized value
      this way when it assigns an `int` expression known to be below 256. */
  function ToUint8(x: int): uint8
    requires 0 <= x < 256
  {
    x as uint8
  }
}
