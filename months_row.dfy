/** The month header of the HTML chart: one cell per calendar month between
    the two dates, as wide as the days it spans. */
module MonthsRow {
  import opened Js
  import opened Calendar

  /** One entry of `monthDays`: the key `${month}_${year}` (0-based month)
      and the number of day columns the month gets. */
  datatype MonthCount = MonthCount(month: int, year: int, count: int)

  function Key(m: MonthCount): string {
    IntToString(m.month) + "_" + IntToString(m.year)
  }

  /** The day count of the month that `prevDate` starts in: through the
      month's last day, or through `maxDate` when the month ends after it. */
  function MonthEntry(prevDate: Moment, maxDate: Moment): MonthCount
    requires Valid(prevDate) && Valid(maxDate)
  {
    var date := EndOfMonth(prevDate);
    if IsAfter(date, maxDate) then MonthCount(date.month, date.year, Abs(Diff(prevDate, maxDate)) + 1)
    else MonthCount(date.month, date.year, Abs(Diff(prevDate, date)) + 1)
  }

  /** Where the loop goes next: the first day of the following month, at
      the time of day `endOf('month')` left. */
  function NextMonthStart(prevDate: Moment): (n: Moment)
    requires Valid(prevDate)
    ensures Valid(n) && n.day == 1
    ensures Time(n) > Time(prevDate)
  {
    AddDay(EndOfMonth(prevDate))
  }

  /** The entries the loop produces from `date` on. */
  function MonthBuckets(date: Moment, maxDate: Moment): (b: seq<MonthCount>)
    requires Valid(date) && Valid(maxDate)
    decreases if Time(date) < Time(maxDate) then Time(maxDate) - Time(date) else 0
  {
    var next := NextMonthStart(date);
    [MonthEntry(date, maxDate)] + (if IsBefore(next, maxDate) then MonthBuckets(next, maxDate) else [])
  }

  /** The `do … while` loop building `monthDays`. Each step copies the
      current moment before moving it, so `minDate` is left as it was. */
  method BuildMonthDays(minDate: Moment, maxDate: Moment) returns (monthDays: seq<MonthCount>)
    requires Valid(minDate) && Valid(maxDate)
    ensures monthDays == MonthBuckets(minDate, maxDate)
  {
    monthDays := [];
    var date := minDate;
    var more := true;
    while more
      invariant Valid(date)
      invariant more ==> monthDays + MonthBuckets(date, maxDate) == MonthBuckets(minDate, maxDate)
      invariant !more ==> monthDays == MonthBuckets(minDate, maxDate)
      decreases more, if Time(date) < Time(maxDate) then Time(maxDate) - Time(date) else 0
    {
      var prevDate := date;
      var endOfMonth := EndOfMonth(date);
      var count;
      if IsAfter(endOfMonth, maxDate) {
        count := Abs(Diff(prevDate, maxDate)) + 1;
      } else {
        count := Abs(Diff(prevDate, endOfMonth)) + 1;
      }
      var entry := MonthCount(endOfMonth.month, endOfMonth.year, count);
      assert entry == MonthEntry(prevDate, maxDate);
      AppendMonth(monthDays, prevDate, minDate, maxDate);
      monthDays := monthDays + [entry];
      date := AddDay(endOfMonth);
      more := IsBefore(date, maxDate);
    }
  }

  /** One pass of the loop body: the entry for `date`'s month joins the
      entries so far, and either the rest starts at the next month or the
      entries are complete. */
  lemma AppendMonth(done: seq<MonthCount>, date: Moment, minDate: Moment, maxDate: Moment)
    requires Valid(date) && Valid(minDate) && Valid(maxDate)
    requires done + MonthBuckets(date, maxDate) == MonthBuckets(minDate, maxDate)
    ensures IsBefore(NextMonthStart(date), maxDate) ==>
      (done + [MonthEntry(date, maxDate)]) + MonthBuckets(NextMonthStart(date), maxDate) == MonthBuckets(minDate, maxDate)
    ensures !IsBefore(NextMonthStart(date), maxDate) ==>
      done + [MonthEntry(date, maxDate)] == MonthBuckets(minDate, maxDate)
  {
    MonthBucketsStep(date, maxDate);
    var next := NextMonthStart(date);
    if IsBefore(next, maxDate) {
      ConcatShift(done, MonthEntry(date, maxDate), MonthBuckets(next, maxDate));
    }
  }

  lemma MonthBucketsStep(date: Moment, maxDate: Moment)
    requires Valid(date) && Valid(maxDate)
    ensures IsBefore(NextMonthStart(date), maxDate) ==>
      MonthBuckets(date, maxDate) == [MonthEntry(date, maxDate)] + MonthBuckets(NextMonthStart(date), maxDate)
    ensures !IsBefore(NextMonthStart(date), maxDate) ==> MonthBuckets(date, maxDate) == [MonthEntry(date, maxDate)]
  {
  }

  /** The month after `m`'s month. */
  predicate FollowingMonth(m: MonthCount, n: MonthCount) {
    if m.month == 11 then n.month == 0 && n.year == m.year + 1 else n.month == m.month + 1 && n.year == m.year
  }

  /** The loop makes at least one entry, the first for `minDate`'s month;
      the entries are consecutive months; a first month that is not the
      last counts the days from `minDate` through its end; every month
      between the first and the last counts all its days. */
  lemma {:induction false} MonthBucketsShape(date: Moment, maxDate: Moment)
    requires Valid(date) && Valid(maxDate)
    ensures var b := MonthBuckets(date, maxDate);
      && |b| >= 1
      && b[0].month == date.month && b[0].year == date.year
      && (|b| > 1 ==> b[0].count == DaysInMonth(date.year, date.month) - date.day + 1)
      && (forall i :: 1 <= i < |b| - 1 ==> 0 <= b[i].month < 12 && b[i].count == DaysInMonth(b[i].year, b[i].month))
      && (forall i :: 0 <= i < |b| - 1 ==> FollowingMonth(b[i], b[i + 1]))
    decreases if Time(date) < Time(maxDate) then Time(maxDate) - Time(date) else 0
  {
    var b := MonthBuckets(date, maxDate);
    var e := EndOfMonth(date);
    var next := NextMonthStart(date);
    if IsBefore(next, maxDate) {
      MonthBucketsShape(next, maxDate);
      var rest := MonthBuckets(next, maxDate);
      assert b == [MonthEntry(date, maxDate)] + rest;
      assert !IsAfter(e, maxDate);
      DiffToEndOfMonth(date);
      DiffToEndOfMonth(next);
      assert next.month == rest[0].month && next.year == rest[0].year;
      assert FollowingMonth(b[0], b[1]);
      forall i | 1 <= i < |b| - 1
        ensures 0 <= b[i].month < 12 && b[i].count == DaysInMonth(b[i].year, b[i].month)
      {
        assert b[i] == rest[i - 1];
      }
      forall i | 1 <= i < |b| - 1
        ensures FollowingMonth(b[i], b[i + 1])
      {
        assert b[i] == rest[i - 1] && b[i + 1] == rest[i];
      }
    }
  }

  /** Months counted from year 0. */
  function Ordinal(m: MonthCount): int {
    m.year * 12 + m.month
  }

  /** The entries are months in increasing order, so no two share a
      month and year and no key of `monthDays` is written twice. */
  lemma {:induction false} MonthsIncrease(date: Moment, maxDate: Moment)
    requires Valid(date) && Valid(maxDate)
    ensures var b := MonthBuckets(date, maxDate);
      forall i, j :: 0 <= i < j < |b| ==>
        (Ordinal(b[i]) + (j - i) == Ordinal(b[j]) && (b[i].month, b[i].year) != (b[j].month, b[j].year))
  {
    var b := MonthBuckets(date, maxDate);
    MonthBucketsShape(date, maxDate);
    forall i, j | 0 <= i < j < |b|
      ensures Ordinal(b[i]) + (j - i) == Ordinal(b[j])
    {
      var k := i;
      while k < j
        invariant i <= k <= j
        invariant Ordinal(b[i]) + (k - i) == Ordinal(b[k])
      {
        assert FollowingMonth(b[k], b[k + 1]);
        k := k + 1;
      }
    }
  }

  /** The last entry stops at `maxDate` when its month ends after it. */
  lemma LastMonthStopsAtMax(date: Moment, maxDate: Moment)
    requires Valid(date) && Valid(maxDate)
    requires IsAfter(EndOfMonth(date), maxDate)
    ensures MonthBuckets(date, maxDate) == [MonthCount(date.month, date.year, Abs(Diff(date, maxDate)) + 1)]
  {
    assert !IsBefore(NextMonthStart(date), maxDate);
  }

  /** The moment the loop stands at when it reaches the month of `m`
      after the first: the 1st of that month at the last millisecond of
      the day. */
  function MonthStart(m: MonthCount): Moment {
    Moment(m.year, m.month, 1, LastMsOfDay)
  }

  /** When the span covers more than one month, the last entry is the one
      the loop makes from the 1st of its month at the last millisecond of
      the day: the days through `maxDate` when the month ends after it,
      otherwise the whole month. */
  lemma {:induction false} LastMonthEntry(date: Moment, maxDate: Moment)
    requires Valid(date) && Valid(maxDate)
    ensures var b := MonthBuckets(date, maxDate);
      |b| > 1 ==>
        var s := MonthStart(b[|b| - 1]);
        && Valid(s)
        && b[|b| - 1] == MonthEntry(s, maxDate)
        && b[|b| - 1].count ==
             if IsAfter(EndOfMonth(s), maxDate) then Abs(Diff(s, maxDate)) + 1
             else DaysInMonth(s.year, s.month)
    decreases if Time(date) < Time(maxDate) then Time(maxDate) - Time(date) else 0
  {
    var b := MonthBuckets(date, maxDate);
    var next := NextMonthStart(date);
    if IsBefore(next, maxDate) {
      var rest := MonthBuckets(next, maxDate);
      assert b == [MonthEntry(date, maxDate)] + rest;
      MonthBucketsShape(next, maxDate);
      assert b[|b| - 1] == rest[|rest| - 1];
      if |rest| > 1 {
        LastMonthEntry(next, maxDate);
      } else {
        assert next.ms == LastMsOfDay;
        assert MonthStart(rest[0]) == next;
        DiffToEndOfMonth(next);
      }
    }
  }

  /** The style of a month cell: `count` day columns and the one-pixel
      gaps between them. */
  datatype CellStyle = CellStyle(width: int, flexBasis: int)

  function MonthStyle(count: int, dayColumnWidth: int): (s: CellStyle)
    ensures s.width == s.flexBasis
    ensures s.width + 1 == count * (dayColumnWidth + 1)
  {
    var w := count * dayColumnWidth + count - 1;
    CellStyle(w, w)
  }
}
