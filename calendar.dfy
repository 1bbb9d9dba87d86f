/** Time as the web part sees it through `Date` and `moment`: instants are
    milliseconds of one local calendar (no time zones, no daylight saving),
    and a `Moment` is a calendar date plus a time of day. */
module Calendar {
  import opened Js

  /** Milliseconds in one calendar day. */
  const MsPerDay: int := 86400000

  /** The last millisecond of a day, where `endOf('month')` puts a moment. */
  const LastMsOfDay: int := MsPerDay - 1

  /** Day number of instant `t` (days since 1970-01-01, rounded down). */
  function DayOf(t: int): int {
    t / MsPerDay
  }

  /** Milliseconds elapsed since midnight at instant `t`. */
  function TimeOfDay(t: int): (ms: int)
    ensures 0 <= ms < MsPerDay
    ensures t == DayOf(t) * MsPerDay + ms
  {
    t % MsPerDay
  }

  /** Integer division rounding toward zero, as moment's `diff` rounds. */
  function TruncDiv(x: int, d: int): (q: int)
    requires d > 0
    ensures Abs(q) == Abs(x) / d
    ensures x >= 0 ==> q >= 0
    ensures x <= 0 ==> q <= 0
  {
    if x >= 0 then x / d else -((-x) / d)
  }

  /** `moment(a).diff(moment(b), 'days')`: whole days from `b` to `a`,
      rounded toward zero. */
  function DiffDays(a: int, b: int): int {
    TruncDiv(a - b, MsPerDay)
  }

  /** `moment(t).add(n, 'days')` (and `subtract` with a negative `n`). */
  function AddDays(t: int, n: int): int {
    t + n * MsPerDay
  }

  /** Division by `MsPerDay` undoes multiplication by it. */
  lemma DivMsPerDay(q: int, r: int)
    requires 0 <= r < MsPerDay
    ensures (q * MsPerDay + r) / MsPerDay == q
    ensures (q * MsPerDay + r) % MsPerDay == r
  {
    var x := q * MsPerDay + r;
    var q', r' := x / MsPerDay, x % MsPerDay;
    assert x == q' * MsPerDay + r';
    assert (q - q') * MsPerDay == r' - r;
  }

  /** Adding `n` days moves an instant by exactly `n` whole days. */
  lemma DiffDaysAddDays(t: int, n: int)
    ensures DiffDays(AddDays(t, n), t) == n
    ensures DiffDays(t, AddDays(t, n)) == -n
  {
    if n >= 0 {
      DivMsPerDay(n, 0);
    } else {
      DivMsPerDay(-n, 0);
    }
  }

  // ---------------------------------------------------------------------
  // The proleptic Gregorian calendar

  predicate IsLeapYear(y: int) {
    y % 4 == 0 && (y % 100 != 0 || y % 400 == 0)
  }

  /** Length of month `m` (0 = January, as `moment().month()` counts). */
  function DaysInMonth(y: int, m: int): (n: int)
    requires 0 <= m < 12
    ensures 28 <= n <= 31
  {
    if m == 1 then (if IsLeapYear(y) then 29 else 28)
    else if m == 3 || m == 5 || m == 8 || m == 10 then 30
    else 31
  }

  function DaysBeforeMonth(y: int, m: int): int
    requires 0 <= m <= 12
  {
    if m == 0 then 0 else DaysBeforeMonth(y, m - 1) + DaysInMonth(y, m - 1)
  }

  function DaysInYear(y: int): int {
    DaysBeforeMonth(y, 12)
  }

  /** Days from 1970-01-01 to January 1st of year `y`. */
  function DaysBeforeYear(y: int): int
    decreases if y < 1970 then 1970 - y else y - 1970
  {
    if y == 1970 then 0
    else if y > 1970 then DaysBeforeYear(y - 1) + DaysInYear(y - 1)
    else DaysBeforeYear(y + 1) - DaysInYear(y)
  }

  lemma DaysBeforeNextYear(y: int)
    ensures DaysBeforeYear(y + 1) == DaysBeforeYear(y) + DaysInYear(y)
  {
  }

  /** A moment: calendar date plus milliseconds since midnight. `month` is
      0-based and `day` 1-based, as moment's `month()` and `date()` return. */
  datatype Moment = Moment(year: int, month: int, day: int, ms: int)

  predicate Valid(m: Moment) {
    && 0 <= m.month < 12
    && 1 <= m.day <= DaysInMonth(m.year, m.month)
    && 0 <= m.ms < MsPerDay
  }

  function DayNumber(m: Moment): int
    requires Valid(m)
  {
    DaysBeforeYear(m.year) + DaysBeforeMonth(m.year, m.month) + m.day - 1
  }

  /** `valueOf()`: the instant of a moment. */
  function Time(m: Moment): int
    requires Valid(m)
  {
    DayNumber(m) * MsPerDay + m.ms
  }

  predicate IsBefore(a: Moment, b: Moment)
    requires Valid(a) && Valid(b)
  {
    Time(a) < Time(b)
  }

  predicate IsAfter(a: Moment, b: Moment)
    requires Valid(a) && Valid(b)
  {
    Time(a) > Time(b)
  }

  /** `a.diff(b, 'days')`. */
  function Diff(a: Moment, b: Moment): int
    requires Valid(a) && Valid(b)
  {
    DiffDays(Time(a), Time(b))
  }

  /** `moment(m).endOf('month')`: the last millisecond of m's month. */
  function EndOfMonth(m: Moment): (e: Moment)
    requires Valid(m)
    ensures Valid(e) && e.year == m.year && e.month == m.month
    ensures Time(e) - Time(m) == (DaysInMonth(m.year, m.month) - m.day) * MsPerDay + (LastMsOfDay - m.ms)
  {
    Moment(m.year, m.month, DaysInMonth(m.year, m.month), LastMsOfDay)
  }

  /** `m.add(1, 'day')`: the same time of day on the next calendar day. */
  function AddDay(m: Moment): (n: Moment)
    requires Valid(m)
    ensures Valid(n) && n.ms == m.ms
    ensures Time(n) == Time(m) + MsPerDay
  {
    if m.day < DaysInMonth(m.year, m.month) then Moment(m.year, m.month, m.day + 1, m.ms)
    else if m.month < 11 then Moment(m.year, m.month + 1, 1, m.ms)
    else
      DaysBeforeNextYear(m.year);
      Moment(m.year + 1, 0, 1, m.ms)
  }

  /** Whole days from a moment to the end of its month. */
  lemma DiffToEndOfMonth(m: Moment)
    requires Valid(m)
    ensures Diff(m, EndOfMonth(m)) == -(DaysInMonth(m.year, m.month) - m.day)
  {
    DivMsPerDay(DaysInMonth(m.year, m.month) - m.day, LastMsOfDay - m.ms);
  }
}
