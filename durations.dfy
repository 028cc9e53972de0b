/** Go's 64-bit signed integers and `time.Duration` (a count of nanoseconds held in an int64). */
module Durations {

  const MinInt64: int := -0x8000_0000_0000_0000
  const MaxInt64: int := 0x7fff_ffff_ffff_ffff

  newtype int64 = x: int | -0x8000_0000_0000_0000 <= x < 0x8000_0000_0000_0000

  type Duration = int64

  const Millisecond: Duration := 1_000_000
  const Second: Duration := 1_000_000_000
  const Minute: Duration := 60_000_000_000

  /** Two's-complement reduction of an integer into int64, as Go's arithmetic does on overflow. */
  function Wrap64(x: int): (r: int64)
    ensures (r as int - x) % 0x1_0000_0000_0000_0000 == 0
    ensures MinInt64 <= x <= MaxInt64 ==> r as int == x
  {
    var m := x % 0x1_0000_0000_0000_0000;
    if m > MaxInt64 then (m - 0x1_0000_0000_0000_0000) as int64 else m as int64
  }

  /** `d * k` on time.Duration: the exact product whenever it fits, wrapped otherwise. */
  function Scale(d: Duration, k: int64): (r: Duration)
    ensures MinInt64 <= d as int * k as int <= MaxInt64 ==> r as int == d as int * k as int
    ensures (r as int - d as int * k as int) % 0x1_0000_0000_0000_0000 == 0
  {
    Wrap64(d as int * k as int)
  }
}
