/** The day header of the HTML chart: one cell per day from the first date
    up to the last, labelled with its day of the month. */
module DaysRow {
  import opened Js
  import opened Calendar
  import MonthsRow

  /** A moment object that several names share: `add` changes it in place,
      so the caller sees the change through its own reference. */
  class MomentRef {
    var value: Moment

    constructor(m: Moment)
      ensures value == m
    {
      value := m;
    }

    /** `add(1, 'day')`. */
    method AddOneDay()
      requires Valid(value)
      modifies this
      ensures value == AddDay(old(value))
    {
      value := AddDay(value);
    }
  }

  /** `m` moved on by `n` days. */
  function AddDaysTo(m: Moment, n: nat): (r: Moment)
    requires Valid(m)
    ensures Valid(r) && r.ms == m.ms
    ensures Time(r) == Time(m) + n * MsPerDay
    decreases n
  {
    if n == 0 then m else AddDaysTo(AddDay(m), n - 1)
  }

  /** The day-of-month numbers the loop collects from `date` on. */
  function DaysFrom(date: Moment, maxDate: Moment): seq<int>
    requires Valid(date) && Valid(maxDate)
    decreases if Time(date) < Time(maxDate) then Time(maxDate) - Time(date) else 0
  {
    if IsBefore(date, maxDate) then [date.day] + DaysFrom(AddDay(date), maxDate) else []
  }

  /** Where the loop leaves the moment: the first day not before `maxDate`. */
  function StopDate(date: Moment, maxDate: Moment): (stop: Moment)
    requires Valid(date) && Valid(maxDate)
    ensures Valid(stop) && !IsBefore(stop, maxDate)
    decreases if Time(date) < Time(maxDate) then Time(maxDate) - Time(date) else 0
  {
    if IsBefore(date, maxDate) then StopDate(AddDay(date), maxDate) else date
  }

  /** The `while` loop of `DaysRow`. `date` is the caller's `minDate`
      object itself, so the caller's moment ends where the loop stops. */
  method CollectDays(minDate: MomentRef, maxDate: Moment) returns (days: seq<int>)
    requires Valid(minDate.value) && Valid(maxDate)
    modifies minDate
    ensures days == DaysFrom(old(minDate.value), maxDate)
    ensures minDate.value == StopDate(old(minDate.value), maxDate)
  {
    ghost var start := minDate.value;
    days := [];
    var date := minDate;
    while IsBefore(date.value, maxDate)
      invariant date == minDate && Valid(date.value)
      invariant Collecting(days, date.value, start, maxDate)
      decreases Time(maxDate) - Time(date.value)
    {
      AppendDay(days, date.value, start, maxDate);
      days := days + [date.value.day];
      date.AddOneDay();
    }
    CollectingDone(days, date.value, start, maxDate);
  }

  /** The loop state: the days collected so far followed by the days still
      to come are the days from `start`, and the loop stops where it would
      have stopped from `start`. */
  ghost predicate Collecting(days: seq<int>, date: Moment, start: Moment, maxDate: Moment)
    requires Valid(date) && Valid(start) && Valid(maxDate)
  {
    && days + DaysFrom(date, maxDate) == DaysFrom(start, maxDate)
    && StopDate(date, maxDate) == StopDate(start, maxDate)
  }

  /** One iteration moves one day from the rest onto the collected days. */
  lemma AppendDay(days: seq<int>, date: Moment, start: Moment, maxDate: Moment)
    requires Valid(date) && Valid(start) && Valid(maxDate) && IsBefore(date, maxDate)
    requires Collecting(days, date, start, maxDate)
    ensures Collecting(days + [date.day], AddDay(date), start, maxDate)
  {
    DaysFromStep(date, maxDate);
    ConcatShift(days, date.day, DaysFrom(AddDay(date), maxDate));
  }

  lemma CollectingDone(days: seq<int>, date: Moment, start: Moment, maxDate: Moment)
    requires Valid(date) && Valid(start) && Valid(maxDate) && !IsBefore(date, maxDate)
    requires Collecting(days, date, start, maxDate)
    ensures days == DaysFrom(start, maxDate) && date == StopDate(start, maxDate)
  {
    assert days + [] == days;
  }

  lemma DaysFromStep(date: Moment, maxDate: Moment)
    requires Valid(date) && Valid(maxDate) && IsBefore(date, maxDate)
    ensures DaysFrom(date, maxDate) == [date.day] + DaysFrom(AddDay(date), maxDate)
    ensures StopDate(date, maxDate) == StopDate(AddDay(date), maxDate)
  {
  }

  /** Counting started days: a span longer than a day starts one more day
      than the same span a day shorter. */
  lemma CeilStep(x: int)
    requires x > MsPerDay
    ensures (x - 1) / MsPerDay == (x - MsPerDay - 1) / MsPerDay + 1
  {
    var y := x - MsPerDay - 1;
    DivMsPerDay(y / MsPerDay + 1, y % MsPerDay);
  }

  /** One day per started day before `maxDate`: the row has as many cells as
      there are days from `date`, rounding up, and none when `date` is not
      before `maxDate`; entry `i` is the day of the month `i` days on, and
      the caller's moment ends that many days on. */
  lemma DaysFromShape(date: Moment, maxDate: Moment)
    requires Valid(date) && Valid(maxDate)
    ensures var days := DaysFrom(date, maxDate);
      && |days| == (if Time(date) < Time(maxDate) then (Time(maxDate) - Time(date) - 1) / MsPerDay + 1 else 0)
      && (forall i :: 0 <= i < |days| ==> days[i] == AddDaysTo(date, i).day && 1 <= days[i] <= 31)
      && StopDate(date, maxDate) == AddDaysTo(date, |days|)
  {
    DaysFromLength(date, maxDate);
    var days := DaysFrom(date, maxDate);
    forall i | 0 <= i < |days|
      ensures days[i] == AddDaysTo(date, i).day && 1 <= days[i] <= 31
    {
      DayAt(date, maxDate, i);
    }
    StopDateAfterDays(date, maxDate);
  }

  lemma {:induction false} DaysFromLength(date: Moment, maxDate: Moment)
    requires Valid(date) && Valid(maxDate)
    ensures |DaysFrom(date, maxDate)| == (if Time(date) < Time(maxDate) then (Time(maxDate) - Time(date) - 1) / MsPerDay + 1 else 0)
    decreases if Time(date) < Time(maxDate) then Time(maxDate) - Time(date) else 0
  {
    if IsBefore(date, maxDate) {
      var next := AddDay(date);
      DaysFromStep(date, maxDate);
      DaysFromLength(next, maxDate);
      var x := Time(maxDate) - Time(date);
      if x > MsPerDay {
        CeilStep(x);
      } else {
        DivMsPerDay(0, x - 1);
      }
    }
  }

  /** Entry `i` is the day of the month `i` days on. */
  lemma {:induction false} DayAt(date: Moment, maxDate: Moment, i: nat)
    requires Valid(date) && Valid(maxDate)
    requires i < |DaysFrom(date, maxDate)|
    ensures DaysFrom(date, maxDate)[i] == AddDaysTo(date, i).day
    decreases i
  {
    assert IsBefore(date, maxDate);
    DaysFromStep(date, maxDate);
    var next := AddDay(date);
    ConsIndex(date.day, DaysFrom(next, maxDate), i);
    if i > 0 {
      DayAt(next, maxDate, i - 1);
    }
  }

  lemma {:induction false} StopDateAfterDays(date: Moment, maxDate: Moment)
    requires Valid(date) && Valid(maxDate)
    ensures StopDate(date, maxDate) == AddDaysTo(date, |DaysFrom(date, maxDate)|)
    decreases if Time(date) < Time(maxDate) then Time(maxDate) - Time(date) else 0
  {
    if IsBefore(date, maxDate) {
      var next := AddDay(date);
      DaysFromStep(date, maxDate);
      StopDateAfterDays(next, maxDate);
    }
  }

  /** Every day cell is `dayColumnWidth` wide. */
  function DayCells(days: seq<int>, dayColumnWidth: int): (cells: seq<MonthsRow.CellStyle>)
    ensures |cells| == |days|
    ensures forall i :: 0 <= i < |cells| ==> cells[i].width == dayColumnWidth && cells[i].flexBasis == dayColumnWidth
  {
    seq(|days|, i requires 0 <= i < |days| => MonthsRow.CellStyle(dayColumnWidth, dayColumnWidth))
  }
}
