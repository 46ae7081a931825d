/** Fixed-width C arithmetic that nfdump1.c relies on, written out explicitly:
    unsigned 32-bit wrap-around, the conversion of a C `int` to
    `unsigned long long`, the 64-bit wrap of `unsigned long long`
    products, and C's remainder, which truncates toward zero. */
module CArith {

  const U32: nat := 0x1_0000_0000
  const U64: nat := 0x1_0000_0000_0000_0000
  const IntMax: nat := 0x7fff_ffff

  /** `uint8_t` / `unsigned char` */
  type UInt8 = x: nat | x < 0x100
  /** `uint16_t` / `unsigned short` */
  type UInt16 = x: nat | x < 0x1_0000
  /** `uint32_t` / `unsigned int` */
  type UInt32 = x: nat | x < 0x1_0000_0000
  /** `uint64_t` / `unsigned long long` */
  type UInt64 = x: nat | x < 0x1_0000_0000_0000_0000

  /** The value an `unsigned int` holds after an assignment of `x`. */
  function Wrap32(x: int): (r: nat)
    ensures r < U32
    ensures (r - x) % U32 == 0
    ensures 0 <= x < U32 ==> r == x
  {
    x % U32
  }

  /** The value a `uint64_t` holds after an assignment of `x`. */
  function Wrap64(x: int): (r: nat)
    ensures r < U64
    ensures (r - x) % U64 == 0
    ensures 0 <= x < U64 ==> r == x
  {
    x % U64
  }

  /** `addr & 0xffffffffLL`: the low 32 bits of a 64-bit address slot. */
  function Low32(x: nat): (r: nat)
    ensures r < U32
    ensures x < U32 ==> r == x
  {
    x % U32
  }

  /** An `unsigned int` passed through an `int` parameter and then converted
      to `unsigned long long`: values of 2^31 and above come back sign-extended. */
  function IntToULongLong(y: nat): (r: nat)
    requires y < U32
    ensures r < U64
    ensures y <= IntMax ==> r == y
    ensures y > IntMax ==> r > U64 - U32
  {
    if y <= IntMax then y else y - U32 + U64
  }

  /** C's `a % b` for `b > 0`: it agrees with the Euclidean remainder on a
      non-negative dividend; on a negative one its sign follows the dividend,
      so `a - a % b` rounds toward zero. */
  function CRem(a: int, b: int): (r: int)
    requires b > 0
    ensures a >= 0 ==> r == a % b && 0 <= r < b
    ensures a < 0 ==> -b < r <= 0 && a <= a - r <= 0
  {
    if a >= 0 then a % b else -((-a) % b)
  }
}
