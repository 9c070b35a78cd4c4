/** Small shared datatypes. */
module Wrappers {
  datatype Option<+T> = None | Some(value: T)
}

/**
  Millisecond time arithmetic used by both services.

  The event handler works in the server's local time through `Date` setters; here the
  local clock is the UTC clock shifted by a fixed `offset` in milliseconds. The standings
  service works in UTC days. Every time is an integer number of milliseconds since the epoch.
*/
module Clock {
  const HourMs: int := 3_600_000
  const DayMs: int := 86_400_000

  /** Milliseconds elapsed since the last local midnight. */
  function MsIntoLocalDay(t: int, offset: int): (r: int)
    ensures 0 <= r < DayMs
  {
    (t + offset) % DayMs
  }

  /** Local midnight (00:00:00.000) of the day holding `t`. */
  function LocalDayStart(t: int, offset: int): (r: int)
    ensures r <= t < r + DayMs
    ensures (r + offset) % DayMs == 0
  {
    t - MsIntoLocalDay(t, offset)
  }

  /** The local hour of day of `t` (what `Date.getHours` answers). */
  function LocalHour(t: int, offset: int): (h: int)
    ensures 0 <= h < 24
    ensures LocalDayStart(t, offset) + h * HourMs <= t < LocalDayStart(t, offset) + h * HourMs + HourMs
  {
    MsIntoLocalDay(t, offset) / HourMs
  }

  /** `t` with minutes, seconds and milliseconds set to zero: the start of its local hour. */
  function HourBegin(t: int, offset: int): (r: int)
    ensures r <= t < r + HourMs
    ensures (r + offset) % HourMs == 0
    ensures LocalDayStart(r, offset) == LocalDayStart(t, offset)
    ensures LocalHour(r, offset) == LocalHour(t, offset)
  {
    var d := LocalDayStart(t, offset);
    var h := LocalHour(t, offset);
    LocalDayFacts(d, h, offset);
    d + h * HourMs
  }

  lemma LocalDayFacts(d: int, h: int, offset: int)
    requires (d + offset) % DayMs == 0
    requires 0 <= h < 24
    ensures (d + h * HourMs + offset) % HourMs == 0
    ensures MsIntoLocalDay(d + h * HourMs, offset) == h * HourMs
    ensures LocalDayStart(d + h * HourMs, offset) == d
    ensures LocalHour(d + h * HourMs, offset) == h
  {
    var q := (d + offset) / DayMs;
    assert d + offset == q * DayMs;
    assert d + h * HourMs + offset == (24 * q + h) * HourMs;
    assert d + h * HourMs + offset == q * DayMs + h * HourMs;
    assert 0 <= h * HourMs < DayMs;
  }

  /**
    The `end` stamped on a new window (eventHandleService.js lines 70-76): the hour after the
    current one on the SAME local date, so hour 23 wraps back to 00:00 of that date.
  */
  function WindowEnd(t: int, offset: int): (r: int)
    ensures LocalHour(t, offset) < 23 ==> r == HourBegin(t, offset) + HourMs
    ensures LocalHour(t, offset) == 23 ==> r == LocalDayStart(t, offset) && r < HourBegin(t, offset)
  {
    var nextHour := LocalHour(t, offset) + 1;
    var wrapped := if nextHour > 23 then 0 else nextHour;
    LocalDayStart(t, offset) + wrapped * HourMs
  }

  /** The start of the previous local hour of the same date; only defined from hour 1 on. */
  function PrevHourBegin(t: int, offset: int): (r: int)
    requires LocalHour(t, offset) >= 1
    ensures r + HourMs == HourBegin(t, offset)
    ensures LocalDayStart(r, offset) == LocalDayStart(t, offset)
  {
    var d := LocalDayStart(t, offset);
    var h := LocalHour(t, offset) - 1;
    LocalDayFacts(d, h, offset);
    d + h * HourMs
  }

  /** UTC midnight of the day holding `t` (luxon `DateTime.utc().startOf('day')`). */
  function UtcDayBegin(t: int): (r: int)
    ensures r <= t < r + DayMs
    ensures r % DayMs == 0
  {
    (t / DayMs) * DayMs
  }

  /** The last millisecond of that UTC day (luxon `endOf('day')`, 23:59:59.999). */
  function UtcDayEnd(t: int): (r: int)
    ensures t <= r < t + DayMs
    ensures (r + 1) % DayMs == 0
  {
    UtcDayBegin(t) + DayMs - 1
  }
}
