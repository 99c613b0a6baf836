/**
 * `determineTimeUnit` of the dashboard: picks the x-axis unit from the day
 * span between the first and the last timestamp (integer milliseconds).
 */
module Dashboards {
  import opened Wrappers

  datatype TimeUnit = Day | Week | Month | Year

  const MillisPerDay := 86400000

  /** The largest magnitude of a JavaScript time value; beyond it `new Date(t)` is an Invalid Date. */
  const MaxTimeValue := 8640000000000000

  predicate ValidTime(t: int) {
    -MaxTimeValue <= t <= MaxTimeValue
  }

  /** `Math.ceil(a / b)` for a positive divisor. */
  function CeilDiv(a: int, b: int): int
    requires b > 0
  {
    -((-a) / b)
  }

  /** A span's day count, rounded up, exceeds `k` exactly when the span exceeds `k` whole days. */
  lemma CeilDaysAbove(span: int, k: int)
    ensures CeilDiv(span, MillisPerDay) > k <==> span > k * MillisPerDay
  {
    var q := (-span) / MillisPerDay;
    assert -span == q * MillisPerDay + (-span) % MillisPerDay;
  }

  /**
   * `determineTimeUnit`: 'day' without two timestamps, else by the ceiling of
   * the span in days. Only the first and last timestamps matter, and the
   * thresholds are exact in milliseconds. An out-of-range timestamp makes an
   * Invalid Date, the span NaN and every comparison false, so 'day'.
   */
  function DetermineTimeUnit(timestamps: Option<seq<int>>): (r: TimeUnit)
    ensures timestamps.None? || |timestamps.value| < 2 ==> r == Day
    ensures timestamps.Some? && |timestamps.value| >= 2 ==>
              var ts := timestamps.value;
              r == if ValidTime(ts[0]) && ValidTime(ts[|ts| - 1]) then UnitForSpan(ts[|ts| - 1] - ts[0]) else Day
  {
    if timestamps.None? || |timestamps.value| < 2 then Day
    else if !ValidTime(timestamps.value[0]) || !ValidTime(timestamps.value[|timestamps.value| - 1]) then Day
    else
      var ts := timestamps.value;
      var span := ts[|ts| - 1] - ts[0];
      CeilDaysAbove(span, 365);
      CeilDaysAbove(span, 30);
      CeilDaysAbove(span, 7);
      var diffDays := CeilDiv(span, MillisPerDay);
      if diffDays > 365 then Year
      else if diffDays > 30 then Month
      else if diffDays > 7 then Week
      else Day
  }

  /** The same classification stated on the span in milliseconds, with no rounding. */
  function UnitForSpan(span: int): TimeUnit {
    if span > 365 * MillisPerDay then Year
    else if span > 30 * MillisPerDay then Month
    else if span > 7 * MillisPerDay then Week
    else Day
  }

  function Coarseness(u: TimeUnit): nat {
    match u
    case Day => 0
    case Week => 1
    case Month => 2
    case Year => 3
  }

  /** A longer span never gives a finer unit. */
  lemma UnitMonotone(a: seq<int>, b: seq<int>)
    requires |a| >= 2 && |b| >= 2
    requires ValidTime(a[0]) && ValidTime(a[|a| - 1]) && ValidTime(b[0]) && ValidTime(b[|b| - 1])
    requires a[|a| - 1] - a[0] <= b[|b| - 1] - b[0]
    ensures Coarseness(DetermineTimeUnit(Some(a))) <= Coarseness(DetermineTimeUnit(Some(b)))
  {
  }

  /** A first or last timestamp past the JavaScript date range gives 'day', whatever the span. */
  lemma FarTimestampIsDay(ts: seq<int>)
    requires |ts| >= 2 && ts[|ts| - 1] > MaxTimeValue
    ensures DetermineTimeUnit(Some(ts)) == Day
    ensures ts[0] == 0 ==> UnitForSpan(ts[|ts| - 1] - ts[0]) == Year
  {
  }

  /** Timestamps in reverse order (a negative span) give 'day'. */
  lemma ReversedIsDay(ts: seq<int>)
    requires |ts| >= 2 && ts[|ts| - 1] < ts[0]
    ensures DetermineTimeUnit(Some(ts)) == Day
  {
  }
}
