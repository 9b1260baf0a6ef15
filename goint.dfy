/**
 * Go's 64-bit integer types and the conversions between them that the
 * configuration code relies on: `int` and `time.Duration` are 64-bit
 * two's-complement integers, `uint` is a 64-bit unsigned integer, and a
 * conversion or a multiplication wraps around instead of failing.
 */
module GoInt {

  const TwoTo64: int := 0x1_0000_0000_0000_0000
  const MinInt64: int := -0x8000_0000_0000_0000
  const MaxInt64: int := 0x7FFF_FFFF_FFFF_FFFF

  /** Go `int` (and `int64`, `time.Duration`) on a 64-bit platform. */
  type Int64 = x: int | MinInt64 <= x <= MaxInt64

  /** Go `uint` on a 64-bit platform. */
  type Uint64 = x: int | 0 <= x < TwoTo64

  /** Two's-complement wrap-around of an arbitrary integer into int64. */
  function Wrap64(x: int): (r: Int64)
    ensures (r - x) % TwoTo64 == 0
    ensures MinInt64 <= x <= MaxInt64 ==> r == x
  {
    (x - MinInt64) % TwoTo64 + MinInt64
  }

  /** The Go conversion `uint(i)` of an `int`: negative values wrap, there is no range check. */
  function ToUint(i: Int64): (u: Uint64)
    ensures i >= 0 ==> u == i
    ensures i < 0 ==> u == i + TwoTo64
  {
    if i < 0 then i + TwoTo64 else i
  }

  /** The Go conversion `int(u)` of a `uint`. */
  function ToInt(u: Uint64): (i: Int64)
    ensures u <= MaxInt64 ==> i == u
    ensures u > MaxInt64 ==> i == u - TwoTo64
  {
    if u > MaxInt64 then u - TwoTo64 else u
  }

  /** `uint` and `int` conversions are mutually inverse. */
  lemma ToUintToInt(i: Int64)
    ensures ToInt(ToUint(i)) == i
  {
  }

  lemma ToIntToUint(u: Uint64)
    ensures ToUint(ToInt(u)) == u
  {
  }
}
