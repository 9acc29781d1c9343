/** Go's numeric conversions as eff.go uses them: `uint8(c)` on a colour
    channel and `int32(x)` on a point coordinate, both from Go's `int`.
    Converting to a narrower integer type keeps the low-order bits of the
    two's-complement representation. Dafny integers are unbounded, so the
    truncation is written out. */
module Conversions {

  const TwoTo8: int := 0x100
  const TwoTo31: int := 0x8000_0000
  const TwoTo32: int := 0x1_0000_0000

  /** The values of Go's `uint8`. */
  type Byte = x: int | 0 <= x < 0x100

  /** The values of Go's `int32`. */
  type Int32 = x: int | -0x8000_0000 <= x < 0x8000_0000

  /** The values of Go's `uint32`. */
  type Uint32 = x: int | 0 <= x < 0x1_0000_0000

  /** `uint8(x)`: the byte congruent to `x` modulo 256 (Dafny's `%` is
      Euclidean, which is exactly the low 8 bits of two's complement). */
  function ToUint8(x: int): (r: Byte)
    ensures (x - r) % TwoTo8 == 0
    ensures 0 <= x < TwoTo8 ==> r == x
  {
    x % TwoTo8
  }

  /** `int32(x)`: the signed 32-bit value congruent to `x` modulo 2^32. */
  function ToInt32(x: int): (r: Int32)
    ensures (x - r) % TwoTo32 == 0
    ensures -TwoTo31 <= x < TwoTo31 ==> r == x
  {
    var low := x % TwoTo32;
    if low < TwoTo31 then low else low - TwoTo32
  }

  /** `a - b` on `uint32` operands: wraps around modulo 2^32. */
  function SubUint32(a: Uint32, b: Uint32): (r: Uint32)
    ensures (b + r) % TwoTo32 == a
    ensures b <= a ==> r == a - b
  {
    (a - b) % TwoTo32
  }

  /** The conversions are determined by their two properties: any value in
      range that is congruent to the input is the converted value. */
  lemma ToUint8Unique(x: int, r: int)
    requires 0 <= r < TwoTo8 && (x - r) % TwoTo8 == 0
    ensures ToUint8(x) == r
  {
  }

  lemma ToInt32Unique(x: int, r: int)
    requires -TwoTo31 <= r < TwoTo31 && (x - r) % TwoTo32 == 0
    ensures ToInt32(x) == r
  {
  }
}
