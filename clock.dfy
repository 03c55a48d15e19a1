/**
 * Time as the service sees it. A timestamp is a whole number of seconds since the epoch
 * (UTC); `datetime.utcnow()` becomes a parameter `now` of each operation that reads it.
 */
module Clock {

  const SecondsPerDay: int := 86400

  /** The calendar day (UTC) of a timestamp: `t.date()`. Python floors, and so does Dafny's `/`
      for a positive divisor. */
  function Day(t: int): int {
    t / SecondsPerDay
  }

  /** Midnight at the start of day `d`: `utcnow().replace(hour=0, minute=0, ...)`. */
  function Midnight(d: int): int {
    d * SecondsPerDay
  }

  /** The window `[today, tomorrow)` that the per-day lookups query, with `today` the midnight
      before `now`. */
  predicate InToday(t: int, now: int) {
    Midnight(Day(now)) <= t < Midnight(Day(now)) + SecondsPerDay
  }

  /** The half-open window is exactly "the same calendar day as `now`", and it contains `now`. */
  lemma InTodayIsSameDay(t: int, now: int)
    ensures InToday(t, now) <==> Day(t) == Day(now)
    ensures InToday(now, now)
  {
  }
}
