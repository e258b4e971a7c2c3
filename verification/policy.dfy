/**
 The weekly play window, as a value. The daemon hard-codes one window,
 Saturday from 06:00 to the end of 18:00; the kill predicates of both entry
 points are proved to be its complement.
 */
module Policy {
  import opened Os

  /** A weekday and an hour range, both bounds inclusive. */
  datatype AllowedWindow = AllowedWindow(weekday: Weekday, hourStart: Hour, hourEnd: Hour)
  {
    predicate Contains(now: Clock) {
      now.weekday == weekday && hourStart <= now.hour <= hourEnd
    }
  }

  /** Saturday (weekday 5), hours 6 to 18. */
  const SaturdayDaytime := AllowedWindow(5, 6, 18)
}
