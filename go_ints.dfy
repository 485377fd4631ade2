/** Go's fixed-width integers, and the parts of Go's integer arithmetic that the
    ticket code relies on: the two's complement conversions between `int64` and
    `uint64`, and division that truncates toward zero. */
module GoInts {

  const TwoTo63: int := 0x8000_0000_0000_0000
  const TwoTo64: int := 0x1_0000_0000_0000_0000

  type Int64 = x: int | -0x8000_0000_0000_0000 <= x < 0x8000_0000_0000_0000
  type Uint64 = x: int | 0 <= x < 0x1_0000_0000_0000_0000
  type Byte = x: int | 0 <= x < 0x100

  const MinInt64: Int64 := -0x8000_0000_0000_0000
  const MaxInt64: Int64 := 0x7FFF_FFFF_FFFF_FFFF
  const MaxUint64: Uint64 := 0xFFFF_FFFF_FFFF_FFFF

  /** `uint64(v)`: the 64 bits of `v` read as an unsigned number. */
  function Uint64Of(v: Int64): (u: Uint64)
    ensures u % TwoTo64 == v % TwoTo64
    ensures 0 <= v <==> u < TwoTo63
  {
    if 0 <= v then v else v + TwoTo64
  }

  /** `int64(u)`: the 64 bits of `u` read as a two's complement number. */
  function Int64Of(u: Uint64): (v: Int64)
    ensures v % TwoTo64 == u % TwoTo64
    ensures 0 <= v <==> u < TwoTo63
    ensures Uint64Of(v) == u
  {
    if u < TwoTo63 then u else u - TwoTo64
  }

  /** Reading the bits of an `int64` as unsigned and back gives the number back,
      so `uint64(·)` loses nothing. */
  lemma Int64RoundTrip(v: Int64)
    ensures Int64Of(Uint64Of(v)) == v
  {
  }

  /** Go's `a / b` for a positive divisor: the quotient truncated toward zero.
      Dafny's own `/` rounds toward minus infinity instead. */
  function GoQuo(a: int, b: int): int
    requires 0 < b
  {
    if 0 <= a then a / b else -((-a) / b)
  }

  /** Go's `a % b` for a positive divisor: the remainder takes the sign of `a`. */
  function GoRem(a: int, b: int): int
    requires 0 < b
  {
    if 0 <= a then a % b else -((-a) % b)
  }

  /** Go's division identity `a == b * (a / b) + a % b`, with the remainder
      strictly smaller than the divisor in magnitude and of the dividend's sign;
      negating the dividend negates both results. */
  lemma GoDivision(a: int, b: int)
    requires 0 < b
    ensures a == b * GoQuo(a, b) + GoRem(a, b)
    ensures 0 <= a ==> 0 <= GoRem(a, b) < b
    ensures a <= 0 ==> -b < GoRem(a, b) <= 0
    ensures GoQuo(-a, b) == -GoQuo(a, b) && GoRem(-a, b) == -GoRem(a, b)
  {
    if a < 0 {
      assert -a == b * ((-a) / b) + (-a) % b;
    }
  }
}
