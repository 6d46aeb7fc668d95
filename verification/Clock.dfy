/** Instants, shared by every module that compares timestamps. */
module Clock {
  /** Nanoseconds since Go's zero time (1 January of year 1, UTC); 0 is that zero time, "unset". */
  type Time = int

  const DAY: Time := 86_400_000_000_000
  const WEEK: Time := 7 * DAY

  predicate Midnight(t: Time) {
    t % DAY == 0
  }

  function UtcDay(t: Time): (d: Time)
    ensures Midnight(d) && d <= t < d + DAY
  {
    t - t % DAY
  }
}
