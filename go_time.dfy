/**
 * Instants and durations as Go's `time` package represents them, reduced to
 * what the exporter uses: an instant is a count of nanoseconds relative to the
 * Unix epoch (unbounded), and the zero `time.Time{}` value is January 1 of
 * year 1, 00:00:00 UTC.
 */
module GoTime {

  /** An instant, in nanoseconds since 1970-01-01T00:00:00Z. */
  type Time = int

  /** A `time.Duration`, in nanoseconds. */
  type Duration = int

  const Nanosecond: Duration := 1
  const Second: Duration := 1_000_000_000
  const Minute: Duration := 60 * Second

  /** `time.Time{}`: 62135596800 seconds before the Unix epoch. */
  const ZeroTime: Time := -62_135_596_800 * Second

  /** `t.IsZero()` */
  predicate IsZero(t: Time) {
    t == ZeroTime
  }

  const MinInt64: int := -0x8000_0000_0000_0000
  const MaxInt64: int := 0x7fff_ffff_ffff_ffff

  predicate InInt64(n: int) {
    MinInt64 <= n <= MaxInt64
  }

  /** `time.Unix(0, ns)` for an int64 nanosecond count. */
  function Unix(ns: int): (t: Time)
    requires InInt64(ns)
    ensures !IsZero(t)
  {
    ns
  }

  /**
   * The instants `json.Marshal` can encode as RFC 3339: years 0 through 9999,
   * i.e. from 0000-01-01T00:00:00Z (62167219200 s before the epoch) up to,
   * not including, 10000-01-01T00:00:00Z (253402300800 s after it).
   */
  predicate Rfc3339Representable(t: Time) {
    -62_167_219_200 * Second <= t < 253_402_300_800 * Second
  }
}
