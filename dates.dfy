/**
 * Calendar dates as the interpreters use them: `YYYY-MM-DD` values compared
 * at day granularity, and inclusive date ranges.
 */
module Dates {

  datatype Date = Date(year: nat, month: nat, day: nat)

  /** An inclusive range `{'start': ..., 'end': ...}`. */
  datatype DateRange = DateRange(start: Date, end: Date)

  /** Chronological order of dates (what comparing parsed `YYYY-MM-DD` values gives). */
  predicate DateLe(a: Date, b: Date) {
    a.year < b.year || (a.year == b.year && (a.month < b.month || (a.month == b.month && a.day <= b.day)))
  }

  /** `start <= d <= end`, inclusive on both ends. */
  predicate InRange(d: Date, r: DateRange) {
    DateLe(r.start, d) && DateLe(d, r.end)
  }

  /** Month and day within the ranges a `YYYY-MM-DD` string can name. */
  predicate WellFormed(d: Date) {
    1 <= d.month <= 12 && 1 <= d.day <= 31
  }

  /** The whole calendar year `y`, `{y}-01-01` to `{y}-12-31`: it holds exactly the dates of year `y`. */
  function YearRange(y: nat): (r: DateRange)
    ensures forall d: Date :: WellFormed(d) ==> (InRange(d, r) <==> d.year == y)
  {
    DateRange(Date(y, 1, 1), Date(y, 12, 31))
  }
}
