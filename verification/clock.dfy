/** Instants on a naive local time line, counted in whole seconds, with 0 at
    a midnight. The engine reads two things off an instant: the hours elapsed
    since another instant (to the second) and the hour of the day (to the
    minute). */
module Clock {

  type Instant = int

  const SecondsPerMinute: int := 60
  const SecondsPerHour: int := 3600
  const SecondsPerDay: int := 86400

  /** Hours from `from` to `to`, fractional, negative when `to` is earlier. */
  function HoursBetween(from: Instant, to: Instant): (h: real)
    ensures h * 3600.0 == (to - from) as real
    ensures h <= 0.0 <==> to <= from
  {
    (to - from) as real / 3600.0
  }

  /** `hour + minute / 60` of the instant's wall-clock time; seconds are dropped. */
  function HourOfDay(t: Instant): (h: real)
    ensures 0.0 <= h < 24.0
    ensures h * 60.0 == ((t % SecondsPerDay) / SecondsPerMinute) as real
  {
    var hour := (t % SecondsPerDay) / SecondsPerHour;
    var minute := (t % SecondsPerHour) / SecondsPerMinute;
    MinuteOfDaySplit(t);
    hour as real + minute as real / 60.0
  }

  /** The minute of the day is 60 * hour + minute. */
  lemma MinuteOfDaySplit(t: Instant)
    ensures (t % SecondsPerDay) / SecondsPerMinute
         == 60 * ((t % SecondsPerDay) / SecondsPerHour) + (t % SecondsPerHour) / SecondsPerMinute
    ensures 0 <= (t % SecondsPerDay) / SecondsPerHour < 24
    ensures 0 <= (t % SecondsPerHour) / SecondsPerMinute < 60
  {
    var q, d := t / SecondsPerDay, t % SecondsPerDay;
    var h, r := d / SecondsPerHour, d % SecondsPerHour;
    assert t == SecondsPerHour * (24 * q + h) + r;
    assert t % SecondsPerHour == r;
    assert d == SecondsPerMinute * (60 * h + r / SecondsPerMinute) + r % SecondsPerMinute;
  }

  /** Midnight at the start of the instant's day. */
  function DayStart(t: Instant): (s: Instant)
    ensures s % SecondsPerDay == 0
    ensures s <= t < s + SecondsPerDay
  {
    t - t % SecondsPerDay
  }

  /** `offset` minutes after a midnight, the wall clock reads offset / 60 hours. */
  lemma HourAfterMidnight(s: Instant, offset: int)
    requires s % SecondsPerDay == 0
    requires 0 <= offset < 24 * 60
    ensures HourOfDay(s + SecondsPerMinute * offset) == offset as real / 60.0
  {
    var t := s + SecondsPerMinute * offset;
    assert s == SecondsPerDay * (s / SecondsPerDay);
    assert t == SecondsPerDay * (s / SecondsPerDay) + SecondsPerMinute * offset;
    assert t % SecondsPerDay == SecondsPerMinute * offset;
    assert (t % SecondsPerDay) / SecondsPerMinute == offset;
    var h := HourOfDay(t);
    assert h * 60.0 == offset as real;
  }
}
