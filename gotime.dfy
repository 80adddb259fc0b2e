/**
  Go's time values as integers: an instant is a count of nanoseconds since
  the Unix epoch, a duration a count of nanoseconds.
*/
module GoTime {

  const NsPerMs: int := 1_000_000
  const NsPerSecond: int := 1_000_000_000
  const NsPerMinute: int := 60 * NsPerSecond

  /** Nanoseconds from Go's zero time (1 January of year 1, UTC) to the Unix epoch. */
  const ZeroToUnixNs: int := 62_135_596_800 * NsPerSecond

  /** The zero `time.Time`. */
  const ZeroTime: int := -ZeroToUnixNs

  /** `t.Truncate(d)`: `t` rounded down to a multiple of `d` counted from the
      zero time; `t` itself when `d <= 0`. */
  function Truncate(t: int, d: int): (r: int)
    ensures d <= 0 ==> r == t
    ensures d > 0 ==> r <= t < r + d
  {
    if d <= 0 then t else t - (t + ZeroToUnixNs) % d
  }

  /** The truncated instant is a whole number of `d`s after the zero time. */
  lemma TruncateAligned(t: int, d: int)
    requires d > 0
    ensures Truncate(t, d) + ZeroToUnixNs == (t + ZeroToUnixNs) / d * d
  {
  }

  /** `t.Unix()`: whole seconds since the epoch, rounded down. */
  function UnixSeconds(t: int): (r: int)
    ensures r * NsPerSecond <= t < (r + 1) * NsPerSecond
  {
    t / NsPerSecond
  }

  /** `t.UnixMilli()`: whole milliseconds since the epoch, rounded down. */
  function UnixMilli(t: int): (r: int)
    ensures r * NsPerMs <= t < (r + 1) * NsPerMs
  {
    t / NsPerMs
  }
}
