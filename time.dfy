/** The backend's `Timestamp`: whole seconds since the Unix epoch plus a nanosecond part.
    Its constructor rejects values outside the years 1 to 9999, so both parts are bounded. */
module Time {

  const MIN_SECONDS: int := -62_135_596_800
  const MAX_SECONDS: int := 253_402_300_799

  type Seconds = s: int | MIN_SECONDS <= s <= MAX_SECONDS
  type Nanos = n: int | 0 <= n < 1_000_000_000

  datatype Timestamp = Timestamp(seconds: Seconds, nanoseconds: Nanos)
}
