/** Date-only comparison (funcs.ts): a date is cut back to the start of
    its day, then two dates are compared by their start-of-day instants. */
module Funcs {
  import opened Calendar

  const MsPerHour: int := 3600000
  const MsPerMinute: int := 60000
  const MsPerSecond: int := 1000

  /** A `Date` object: one instant that the setters change in place. Each
      setter replaces one field of the local time and keeps the others;
      an out-of-range argument rolls over into the next field, as the
      arithmetic below does by itself. */
  class JsDate {
    var time: int

    /** `new Date(date.toDateString())`: midnight of the day of `t`. */
    constructor StartOfDay(t: int)
      ensures time == DayOf(t) * MsPerDay
    {
      time := DayOf(t) * MsPerDay;
    }

    method SetHours(h: int)
      modifies this
      ensures time == DayOf(old(time)) * MsPerDay + h * MsPerHour + TimeOfDay(old(time)) % MsPerHour
    {
      time := DayOf(time) * MsPerDay + h * MsPerHour + TimeOfDay(time) % MsPerHour;
    }

    method SetMinutes(m: int)
      modifies this
      ensures time == old(time) - TimeOfDay(old(time)) % MsPerHour + m * MsPerMinute + TimeOfDay(old(time)) % MsPerMinute
    {
      time := time - TimeOfDay(time) % MsPerHour + m * MsPerMinute + TimeOfDay(time) % MsPerMinute;
    }

    method SetSeconds(s: int)
      modifies this
      ensures time == old(time) - TimeOfDay(old(time)) % MsPerMinute + s * MsPerSecond + TimeOfDay(old(time)) % MsPerSecond
    {
      time := time - TimeOfDay(time) % MsPerMinute + s * MsPerSecond + TimeOfDay(time) % MsPerSecond;
    }

    method SetMilliseconds(ms: int)
      modifies this
      ensures time == old(time) - TimeOfDay(old(time)) % MsPerSecond + ms
    {
      time := time - TimeOfDay(time) % MsPerSecond + ms;
    }
  }

  /** Midnight of day `d` is a day start: its day is `d`, its time of day 0. */
  lemma MidnightOf(d: int)
    ensures DayOf(d * MsPerDay) == d && TimeOfDay(d * MsPerDay) == 0
  {
    DivMsPerDay(d, 0);
  }

  /** `dateNoTime`: the same calendar day at 00:00:00.000. */
  method DateNoTime(date: int) returns (r: int)
    ensures DayOf(r) == DayOf(date)
    ensures TimeOfDay(r) == 0
  {
    var d := new JsDate.StartOfDay(date);
    MidnightOf(DayOf(date));
    d.SetHours(0);
    d.SetMinutes(0);
    d.SetSeconds(0);
    d.SetMilliseconds(0);
    r := d.time;
  }

  /** Two instants fall on the same calendar day. */
  predicate SameDay(a: int, b: int) {
    DayOf(a) == DayOf(b)
  }

  /** `equalDatesNoTime`: equal start-of-day instants, which is the same
      calendar day. */
  method EqualDatesNoTime(date1: int, date2: int) returns (equal: bool)
    ensures equal <==> SameDay(date1, date2)
  {
    var d1 := DateNoTime(date1);
    var d2 := DateNoTime(date2);
    equal := d1 == d2;
    assert d1 == DayOf(d1) * MsPerDay + TimeOfDay(d1);
    assert d2 == DayOf(d2) * MsPerDay + TimeOfDay(d2);
  }

  /** Times of day do not matter: any two instants of day `d` are the same
      day, and an instant is never the same day as one a day later. */
  lemma SameDayAtAnyTime(d: int, t1: int, t2: int)
    requires 0 <= t1 < MsPerDay && 0 <= t2 < MsPerDay
    ensures SameDay(d * MsPerDay + t1, d * MsPerDay + t2)
    ensures !SameDay(d * MsPerDay + t1, (d + 1) * MsPerDay + t2)
  {
    DivMsPerDay(d, t1);
    DivMsPerDay(d, t2);
    DivMsPerDay(d + 1, t2);
  }
}
