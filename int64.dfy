/**
 * Go's 64-bit `int`: its bounds, the clamp `strconv.Atoi` applies to a value
 * out of range, and the wrap-around of arithmetic on it.
 */
module Int64 {
  /** The bounds of Go's 64-bit `int`. */
  const MaxInt64: int := 0x7fff_ffff_ffff_ffff
  const MinInt64: int := -0x8000_0000_0000_0000

  /**
   * `strconv.Atoi` on a text whose decimal value is `v` (0 for a text that
   * is not an integer), with the range error discarded: a value outside the
   * 64-bit range comes back as the nearest bound.
   */
  function Atoi(v: int): (r: int)
    ensures MinInt64 <= r <= MaxInt64
    ensures MinInt64 <= v <= MaxInt64 ==> r == v
    ensures v > MaxInt64 ==> r == MaxInt64
    ensures v < MinInt64 ==> r == MinInt64
  {
    if v > MaxInt64 then MaxInt64 else if v < MinInt64 then MinInt64 else v
  }

  /** A 64-bit signed result of an integer operation: the value in the int64 range that agrees with `v` modulo 2^64. */
  function Wrap64(v: int): (r: int)
    ensures MinInt64 <= r <= MaxInt64
    ensures (v - r) % 0x1_0000_0000_0000_0000 == 0
    ensures MinInt64 <= v <= MaxInt64 ==> r == v
  {
    (v - MinInt64) % 0x1_0000_0000_0000_0000 + MinInt64
  }
}
