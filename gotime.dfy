/**
 * Instants and durations as Go's `time` package computes with them.
 * An instant is an integer number of nanoseconds since the Unix epoch;
 * Go's zero `time.Time` is the instant 0001-01-01 00:00:00 UTC, so
 * `IsZero` is a test for that one instant. A duration is an int64 count
 * of nanoseconds.
 */
module GoTime {
  import opened GoInt

  type Time = int
  type Duration = int

  const Second: int := 1_000_000_000
  const Millisecond: int := 1_000_000
  const Minute: int := 60 * Second

  /** Go's `time.Time{}`: 62135596800 seconds before the Unix epoch. */
  const ZeroTime: Time := -UnixToInternal * Second

  predicate IsZero(t: Time) {
    t == ZeroTime
  }

  /** Seconds from 0001-01-01 to the Unix epoch: Go's `unixToInternal`. */
  const UnixToInternal: int := 62_135_596_800

  /** The largest second count `time.Unix` takes without its year-1 offset overflowing. */
  const MaxUnixSeconds: int := MaxInt64 - UnixToInternal

  /** `time.Unix(sec, nsec)`. Go carries the whole seconds of `nsec` into `sec`
      (rounding down, so the nanosecond part lands in [0, 1e9)) and keeps the
      seconds since year 1 as the int64 `sec + unixToInternal`, which wraps
      around when that sum overflows. Without overflow the instant is exact. */
  function Unix(sec: int, nsec: int): (t: Time)
    ensures IsInt64(sec + nsec / Second + UnixToInternal) ==> t == sec * Second + nsec
    ensures t % Second == nsec % Second
  {
    var carried := sec + nsec / Second;
    assert carried * Second + nsec % Second == sec * Second + nsec;
    (Wrap64(carried + UnixToInternal) - UnixToInternal) * Second + nsec % Second
  }

  /** `t.Add(d)`. */
  function Add(t: Time, d: Duration): Time {
    t + d
  }

  /** `t.After(u)`. */
  predicate After(t: Time, u: Time) {
    t > u
  }

  /** `t.Sub(u)`: the difference, saturated to the int64 range of a Duration. */
  function Sub(t: Time, u: Time): (d: Duration)
    ensures IsInt64(d)
    ensures IsInt64(t - u) ==> d == t - u
    ensures t - u > MaxInt64 ==> d == MaxInt64
    ensures t - u < MinInt64 ==> d == MinInt64
  {
    Saturate64(t - u)
  }
}
