/**
 * Calendar arithmetic on epoch milliseconds for `Calendar.current`, taken here as a calendar
 * at a fixed offset from UTC: `startOfDay(for:)`, `component(.hour, from:)` and
 * `date(byAdding:value:to:)` for days and minutes.
 */
module Clock {

  const MillisPerMinute: int := 60_000
  const MillisPerHour: int := 3_600_000
  const MillisPerDay: int := 86_400_000

  datatype Calendar = Calendar(utcOffsetMillis: int)

  /** Local midnight at or before `millis`. */
  function StartOfDay(cal: Calendar, millis: int): (d: int)
    ensures d <= millis < d + MillisPerDay
    ensures (d + cal.utcOffsetMillis) % MillisPerDay == 0
  {
    var local := millis + cal.utcOffsetMillis;
    assert local == (local / MillisPerDay) * MillisPerDay + local % MillisPerDay;
    assert local - local % MillisPerDay == (local / MillisPerDay) * MillisPerDay;
    millis - local % MillisPerDay
  }

  /** Local hour of the day. */
  function Hour(cal: Calendar, millis: int): (h: int)
    ensures 0 <= h < 24
    ensures StartOfDay(cal, millis) + h * MillisPerHour <= millis
    ensures millis < StartOfDay(cal, millis) + (h + 1) * MillisPerHour
  {
    var sinceMidnight := millis - StartOfDay(cal, millis);
    assert sinceMidnight == (sinceMidnight / MillisPerHour) * MillisPerHour + sinceMidnight % MillisPerHour;
    sinceMidnight / MillisPerHour
  }

  /** `date(byAdding: .day, value: -days, to:)`. */
  function DaysBefore(millis: int, days: nat): (r: int)
    ensures r <= millis
    ensures r + days * MillisPerDay == millis
    ensures forall cal: Calendar :: StartOfDay(cal, r) == StartOfDay(cal, millis) - days * MillisPerDay
  {
    millis - days * MillisPerDay
  }

  /** `date(byAdding: .minute, value: minutes, to:)`: exactly `minutes` whole minutes later. */
  function MinutesAfter(millis: int, minutes: nat): (r: int)
    ensures r >= millis
    ensures (r - millis) % MillisPerMinute == 0 && (r - millis) / MillisPerMinute == minutes
  {
    millis + minutes * MillisPerMinute
  }

  /** Going back more days gives an earlier instant. */
  lemma DaysBeforeMonotone(millis: int, fewer: nat, more: nat)
    requires fewer <= more
    ensures DaysBefore(millis, more) <= DaysBefore(millis, fewer)
  {
  }
}
