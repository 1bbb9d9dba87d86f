/** What the two chart components (GanttChartSvg and the older GanttChart)
    compute in the same way: the start-date sort of a copy of the tasks, the
    date window, its padding, the time scale, the chart size and the
    rectangle of one task with its fitted label. */
module Timeline {
  import opened Wrappers
  import opened Js
  import opened Calendar
  import opened Models

  /** Why a layout pass cannot complete: the source throws a TypeError when
      it pads the window of an empty task list, and when a predecessor id
      has no chart element. */
  datatype LayoutError = NoTasks | UndefinedPredecessor

  // ---------------------------------------------------------------------
  // Sorting by start date

  predicate SortedByStart(s: seq<Task>) {
    forall i, j :: 0 <= i < j < |s| ==> s[i].startDate <= s[j].startDate
  }

  /** The start dates of `s[lo..hi]` are in order. */
  predicate SortedRange(s: seq<Task>, lo: int, hi: int)
    requires 0 <= lo <= hi <= |s|
  {
    forall p, q :: lo <= p < q < hi ==> s[p].startDate <= s[q].startDate
  }

  /** `a.sort((a, b) => a.startDate.getTime() - b.startDate.getTime())`,
      in place. */
  method SortByStartDate(a: array<Task>)
    modifies a
    ensures SortedByStart(a[..])
    ensures multiset(a[..]) == multiset(old(a[..]))
  {
    var i := 0;
    while i < a.Length
      invariant 0 <= i <= a.Length
      invariant SortedRange(a[..], 0, i)
      invariant multiset(a[..]) == multiset(old(a[..]))
    {
      InsertNext(a, i);
      i := i + 1;
    }
  }

  /** One insertion-sort step: moves `a[i]` left into the sorted prefix
      `a[..i]`. */
  method InsertNext(a: array<Task>, i: int)
    requires 0 <= i < a.Length && SortedRange(a[..], 0, i)
    modifies a
    ensures SortedRange(a[..], 0, i + 1)
    ensures multiset(a[..]) == multiset(old(a[..]))
  {
    var j := i;
    while j > 0 && a[j - 1].startDate > a[j].startDate
      invariant 0 <= j <= i
      invariant forall p, q :: 0 <= p < q <= i && q != j ==> a[p].startDate <= a[q].startDate
      invariant 0 < j < i ==> a[j - 1].startDate <= a[j + 1].startDate
      invariant multiset(a[..]) == multiset(old(a[..]))
    {
      Swap(a, j - 1, j);
      j := j - 1;
    }
  }

  /** Exchanges two neighbouring entries of `a`. */
  method Swap(a: array<Task>, p: int, q: int)
    requires 0 <= p < q < a.Length
    modifies a
    ensures a[p] == old(a[q]) && a[q] == old(a[p])
    ensures forall k :: 0 <= k < a.Length && k != p && k != q ==> a[k] == old(a[k])
    ensures multiset(a[..]) == multiset(old(a[..]))
  {
    a[p], a[q] := a[q], a[p];
  }

  /** `tasks.slice(0)` sorted in place: a sorted permutation of `tasks`;
      the caller's list itself is left as it was. */
  method SortedCopy(tasks: seq<Task>) returns (sorted: seq<Task>)
    ensures SortedByStart(sorted)
    ensures multiset(sorted) == multiset(tasks)
  {
    var a := new Task[|tasks|](i requires 0 <= i < |tasks| => tasks[i]);
    assert a[..] == tasks;
    SortByStartDate(a);
    sorted := a[..];
  }

  // ---------------------------------------------------------------------
  // Date window

  /** The time span the chart shows. */
  datatype Window = Window(minStart: int, maxEnd: int)

  /** Every start and due date of `tasks` lies in `w`. */
  predicate Covers(w: Window, tasks: seq<Task>) {
    forall i :: 0 <= i < |tasks| ==>
      && w.minStart <= tasks[i].startDate <= w.maxEnd
      && w.minStart <= tasks[i].dueDate <= w.maxEnd
  }

  /** `t` is the start or due date of some task. */
  predicate IsTaskDate(t: int, tasks: seq<Task>) {
    exists i :: 0 <= i < |tasks| && (tasks[i].startDate == t || tasks[i].dueDate == t)
  }

  /** The smallest window that covers every date of `tasks`. */
  predicate IsTightWindow(w: Window, tasks: seq<Task>) {
    Covers(w, tasks) && IsTaskDate(w.minStart, tasks) && IsTaskDate(w.maxEnd, tasks)
  }

  /** The tight window of a non-empty task list, computed task by task. */
  function DateWindow(tasks: seq<Task>): (w: Window)
    requires tasks != []
    ensures IsTightWindow(w, tasks)
    ensures w.minStart <= w.maxEnd
    decreases |tasks|
  {
    var n := |tasks| - 1;
    var t := tasks[n];
    var lo := Min(t.startDate, t.dueDate);
    var hi := Max(t.startDate, t.dueDate);
    if n == 0 then
      Window(lo, hi)
    else
      var w := DateWindow(tasks[..n]);
      WindowStep(tasks, w);
      Window(Min(w.minStart, lo), Max(w.maxEnd, hi))
  }

  /** Widening the window of all tasks but the last to the last task's
      dates gives the window of all of them. */
  lemma WindowStep(tasks: seq<Task>, w: Window)
    requires |tasks| > 1
    requires IsTightWindow(w, tasks[..|tasks| - 1]) && w.minStart <= w.maxEnd
    ensures var t := tasks[|tasks| - 1];
      var r := Window(Min(w.minStart, Min(t.startDate, t.dueDate)), Max(w.maxEnd, Max(t.startDate, t.dueDate)));
      IsTightWindow(r, tasks) && r.minStart <= r.maxEnd
  {
    var n := |tasks| - 1;
    var t := tasks[n];
    var r := Window(Min(w.minStart, Min(t.startDate, t.dueDate)), Max(w.maxEnd, Max(t.startDate, t.dueDate)));
    var prefix := tasks[..n];
    assert forall i :: 0 <= i < n ==> prefix[i] == tasks[i];
    var a :| 0 <= a < n && (prefix[a].startDate == w.minStart || prefix[a].dueDate == w.minStart);
    var b :| 0 <= b < n && (prefix[b].startDate == w.maxEnd || prefix[b].dueDate == w.maxEnd);
    if r.minStart == w.minStart {
      assert tasks[a] == prefix[a];
    } else {
      assert tasks[n].startDate == r.minStart || tasks[n].dueDate == r.minStart;
    }
    if r.maxEnd == w.maxEnd {
      assert tasks[b] == prefix[b];
    } else {
      assert tasks[n].startDate == r.maxEnd || tasks[n].dueDate == r.maxEnd;
    }
    assert Covers(r, tasks) by {
      forall i | 0 <= i < |tasks|
        ensures r.minStart <= tasks[i].startDate <= r.maxEnd && r.minStart <= tasks[i].dueDate <= r.maxEnd
      {
        if i < n {
          assert tasks[i] == prefix[i];
        }
      }
    }
  }

  /** A task list has only one tight window. */
  lemma TightWindowUnique(w1: Window, w2: Window, tasks: seq<Task>)
    requires IsTightWindow(w1, tasks) && IsTightWindow(w2, tasks)
    ensures w1 == w2
  {
    var a :| 0 <= a < |tasks| && (tasks[a].startDate == w1.minStart || tasks[a].dueDate == w1.minStart);
    var b :| 0 <= b < |tasks| && (tasks[b].startDate == w2.minStart || tasks[b].dueDate == w2.minStart);
    var c :| 0 <= c < |tasks| && (tasks[c].startDate == w1.maxEnd || tasks[c].dueDate == w1.maxEnd);
    var d :| 0 <= d < |tasks| && (tasks[d].startDate == w2.maxEnd || tasks[d].dueDate == w2.maxEnd);
  }

  /** Reordering the tasks does not move the window: the bounds computed on
      the props and on their sorted copy agree. */
  lemma {:induction false} TightWindowOfPermutation(w: Window, a: seq<Task>, b: seq<Task>)
    requires multiset(a) == multiset(b) && IsTightWindow(w, a)
    ensures IsTightWindow(w, b)
  {
    forall i | 0 <= i < |b|
      ensures w.minStart <= b[i].startDate <= w.maxEnd && w.minStart <= b[i].dueDate <= w.maxEnd
    {
      assert b[i] in multiset(a);
      var j :| 0 <= j < |a| && a[j] == b[i];
    }
    var p :| 0 <= p < |a| && (a[p].startDate == w.minStart || a[p].dueDate == w.minStart);
    assert a[p] in multiset(b);
    var q :| 0 <= q < |b| && b[q] == a[p];
    var r :| 0 <= r < |a| && (a[r].startDate == w.maxEnd || a[r].dueDate == w.maxEnd);
    assert a[r] in multiset(b);
    var s :| 0 <= s < |b| && b[s] == a[r];
  }

  /** `_findDateBoundaries`: one pass comparing both dates of every task
      with the running minimum and maximum; both bounds stay undefined for
      an empty list. */
  method FindDateBoundaries(tasks: seq<Task>) returns (w: Option<Window>)
    ensures w.None? <==> tasks == []
    ensures w.Some? ==> IsTightWindow(w.value, tasks) && w.value == DateWindow(tasks)
  {
    var minStart: Option<int> := None;
    var maxEnd: Option<int> := None;
    for i := 0 to |tasks|
      invariant minStart.None? <==> i == 0
      invariant maxEnd.None? <==> i == 0
      invariant i > 0 ==> IsTightWindow(Window(minStart.value, maxEnd.value), tasks[..i])
    {
      var t := tasks[i];
      if minStart.None? || t.startDate < minStart.value { minStart := Some(t.startDate); }
      if minStart.None? || t.dueDate < minStart.value { minStart := Some(t.dueDate); }
      if maxEnd.None? || t.dueDate > maxEnd.value { maxEnd := Some(t.dueDate); }
      if maxEnd.None? || t.startDate > maxEnd.value { maxEnd := Some(t.startDate); }
      assert tasks[..i + 1][i] == t;
      assert forall k :: 0 <= k < i ==> tasks[..i + 1][k] == tasks[..i][k];
    }
    assert tasks[..|tasks|] == tasks;
    if minStart.None? {
      return None;
    }
    w := Some(Window(minStart.value, maxEnd.value));
    TightWindowUnique(w.value, DateWindow(tasks), tasks);
  }

  /** The tight window has its bounds in order. */
  lemma TightWindowOrdered(w: Window, tasks: seq<Task>)
    requires IsTightWindow(w, tasks)
    ensures w.minStart <= w.maxEnd
  {
    var i :| 0 <= i < |tasks| && (tasks[i].startDate == w.minStart || tasks[i].dueDate == w.minStart);
  }

  /** Days added on each side of the window (`subtract(2, 'days')`,
      `add(2, 'days')`). */
  const PaddingDays: int := 2

  function PadWindow(w: Window): (p: Window)
    ensures w.minStart - p.minStart == PaddingDays * MsPerDay
    ensures p.maxEnd - w.maxEnd == PaddingDays * MsPerDay
    ensures forall tasks: seq<Task> :: Covers(w, tasks) ==> Covers(p, tasks)
  {
    Window(AddDays(w.minStart, -PaddingDays), AddDays(w.maxEnd, PaddingDays))
  }

  /** A moment object, which `add` and `subtract` change in place. */
  class MomentBox {
    var time: int

    constructor(t: int)
      ensures time == t
    {
      time := t;
    }

    method Add(days: int)
      modifies this
      ensures time == AddDays(old(time), days)
    {
      time := time + days * MsPerDay;
    }

    method Subtract(days: int)
      modifies this
      ensures time == AddDays(old(time), -days)
    {
      time := time - days * MsPerDay;
    }
  }

  /** The padding of `_createGanttChart`: fresh moments for the two bounds,
      moved two days outwards in place. The tasks' own dates are values and
      stay as they were. */
  method PadBounds(w: Window) returns (padded: Window)
    ensures padded == PadWindow(w)
  {
    var minStart := new MomentBox(w.minStart);
    var maxEnd := new MomentBox(w.maxEnd);
    minStart.Subtract(PaddingDays);
    maxEnd.Add(PaddingDays);
    padded := Window(minStart.time, maxEnd.time);
  }

  /** `Math.abs(moment(minStart).diff(moment(maxEnd), 'days'))`. */
  function DaysBetween(w: Window): nat {
    Abs(DiffDays(w.minStart, w.maxEnd))
  }

  /** Padding widens an ordered window by exactly two days on each side, so
      the padded window spans at least four days and its day count grows by
      four. */
  lemma PaddedWindow(w: Window)
    requires w.minStart <= w.maxEnd
    ensures PadWindow(w).maxEnd - PadWindow(w).minStart == w.maxEnd - w.minStart + 4 * MsPerDay
    ensures PadWindow(w).maxEnd - PadWindow(w).minStart >= 4 * MsPerDay
    ensures DaysBetween(PadWindow(w)) == DaysBetween(w) + 4
  {
    var x := w.maxEnd - w.minStart;
    DivMsPerDay(x / MsPerDay + 4, x % MsPerDay);
  }

  // ---------------------------------------------------------------------
  // Time scale

  /** d3 `scaleTime().domain([t0, t1]).range([0, width])`: the linear map
      from instants to pixels. */
  datatype TimeScale = TimeScale(t0: int, t1: int, width: real) {
    predicate Valid() {
      t0 < t1
    }

    function Apply(t: int): real
      requires Valid()
    {
      (t - t0) as real * width / (t1 - t0) as real
    }
  }

  /** The scale sends the window's ends to 0 and `width`, and it is
      increasing (strictly so for a positive width). */
  lemma ScaleMapsWindow(s: TimeScale, a: int, b: int)
    requires s.Valid()
    ensures s.Apply(s.t0) == 0.0 && s.Apply(s.t1) == s.width
    ensures s.width >= 0.0 && a <= b ==> s.Apply(a) <= s.Apply(b)
    ensures s.width > 0.0 && a < b ==> s.Apply(a) < s.Apply(b)
  {
    var span := (s.t1 - s.t0) as real;
    assert s.Apply(b) - s.Apply(a) == (b - a) as real * s.width / span;
    if s.width > 0.0 && a < b {
      assert (b - a) as real * s.width > 0.0;
    }
    if s.width >= 0.0 && a <= b {
      assert (b - a) as real * s.width >= 0.0;
    }
  }

  // ---------------------------------------------------------------------
  // Chart size

  datatype Margin = Margin(top: real, left: real)

  datatype ChartSize = ChartSize(scaleWidth: real, scaleHeight: real, svgWidth: real, svgHeight: real)

  function RealMax(a: real, b: real): real {
    if a <= b then b else a
  }

  /** The size arithmetic of `_createGanttChart`: the drawable area is the
      requested size less a margin on both sides, at least two element
      heights per task tall; adding the margins back gives the requested
      width and the (grown) requested height. */
  function SizeChart(width: Option<real>, height: Option<real>, defaultWidth: real, defaultHeight: real,
                     margin: Margin, taskCount: nat, elementHeight: real): (s: ChartSize)
    ensures s.svgWidth == NumberOr(width, defaultWidth)
    ensures s.svgHeight == RealMax(NumberOr(height, defaultHeight), taskCount as real * elementHeight * 2.0)
    ensures s.svgWidth - s.scaleWidth == 2.0 * margin.left
    ensures s.svgHeight - s.scaleHeight == 2.0 * margin.top
  {
    var scaleWidth := NumberOr(width, defaultWidth) - margin.left * 2.0;
    var scaleHeight := RealMax(NumberOr(height, defaultHeight), taskCount as real * elementHeight * 2.0) - margin.top * 2.0;
    ChartSize(scaleWidth, scaleHeight, scaleWidth + margin.left * 2.0, scaleHeight + margin.top * 2.0)
  }

  // ---------------------------------------------------------------------
  // Labels

  const Ellipsis: string := "..."

  /** The label rule of `_createElementData` as written: a title longer
      than `maxChars` becomes `title.slice(0, maxChars - 3) + '...'` (the slice is taken of the
      title's characters). For `maxChars <= 2` the slice end truncates to a
      negative number and counts back from the end of the title. The chart
      layouts use this rule. */
  function FitLabelAsWritten(title: string, maxChars: real): (caption: string)
    ensures |title| as real <= maxChars ==> caption == title
    ensures |title| as real > maxChars ==>
      && |caption| >= 3
      && caption[..|caption| - 3] <= title
      && caption[|caption| - 3..] == Ellipsis
  {
    if |title| as real > maxChars then SliceTo(title, maxChars - 3.0) + Ellipsis else title
  }

  /** The label rule with the slice end clamped at zero, as the truncation
      evidently intends. */
  function FitLabel(title: string, maxChars: real): (caption: string)
    ensures |title| as real <= maxChars ==> caption == title
    ensures |title| as real > maxChars ==>
      && |caption| >= 3
      && caption[..|caption| - 3] <= title
      && caption[|caption| - 3..] == Ellipsis
  {
    if |title| as real > maxChars then SliceTo(title, RealMax(maxChars - 3.0, 0.0)) + Ellipsis else title
  }

  /** A truncated label fits the estimate when at least three characters
      fit: it is then exactly `floor(maxChars)` characters long; otherwise
      it is the bare ellipsis. Either way it is never longer than the title
      unless it is the ellipsis. */
  lemma FitLabelLength(title: string, maxChars: real)
    requires |title| as real > maxChars
    ensures maxChars >= 3.0 ==> |FitLabel(title, maxChars)| == maxChars.Floor
    ensures maxChars < 3.0 ==> FitLabel(title, maxChars) == Ellipsis
    ensures |FitLabel(title, maxChars)| <= Max(|title|, 3)
  {
    if maxChars >= 3.0 {
      assert Trunc(maxChars - 3.0) == maxChars.Floor - 3;
    }
  }

  /** The two label rules differ only where the slice end truncates to a
      negative number: for an estimate above two characters they agree. */
  lemma {:induction false} FitLabelRulesAgree(title: string, maxChars: real)
    requires maxChars > 2.0
    ensures FitLabelAsWritten(title, maxChars) == FitLabel(title, maxChars)
  {
    if maxChars < 3.0 {
      assert Trunc(maxChars - 3.0) == 0;
      assert Trunc(RealMax(maxChars - 3.0, 0.0)) == 0;
    } else {
      assert RealMax(maxChars - 3.0, 0.0) == maxChars - 3.0;
    }
  }

  /** Counterexample: a 6-character title in a box estimated at 1.5
      characters gets a label of 8 characters. */
  lemma FitLabelAsWrittenGrowsLabel()
    ensures FitLabelAsWritten("Design", 1.5) == "Desig..."
    ensures |FitLabelAsWritten("Design", 1.5)| > |"Design"|
    ensures FitLabel("Design", 1.5) == "..."
  {
    assert Trunc(1.5 - 3.0) == -1;
    assert SliceTo("Design", 1.5 - 3.0) == "Desig";
    assert Trunc(RealMax(1.5 - 3.0, 0.0)) == 0;
  }

  // ---------------------------------------------------------------------
  // Task rectangle

  /** Row pitch and the text-metric estimates of `_createElementData`. */
  const RowPitch: real := 1.5
  const CharWidthFactor: real := 0.5
  const CharHeightFactor: real := 0.45

  /** The geometry and label of one task on the chart (IChartElement). */
  datatype Rect = Rect(
    id: int,
    x: real,
    y: real,
    xEnd: real,
    width: real,
    height: real,
    caption: string,
    labelX: real,
    labelY: real,
    tooltip: string)

  /** The rectangle of task `t` drawn in row `row`. */
  function TaskRect(t: Task, row: nat, scale: TimeScale, elementHeight: real, fontSize: real): Rect
    requires scale.Valid() && fontSize != 0.0
  {
    var x := scale.Apply(t.startDate);
    var xEnd := scale.Apply(t.dueDate);
    var y := row as real * elementHeight * RowPitch;
    var width := xEnd - x;
    var caption := FitLabelAsWritten(t.title, width / fontSize);
    Rect(
      t.id, x, y, xEnd, width, elementHeight, caption,
      x + width / 2.0 - (|caption| as real / 2.0) * (fontSize * CharWidthFactor),
      y + (elementHeight / 2.0 + fontSize * CharHeightFactor),
      t.title)
  }

  /** What a rectangle says about its task: the same id, the full title as
      tooltip, row `row` at 1.5 element heights per row, a horizontal extent
      from the scaled start to the scaled due date (negative exactly when
      the due date precedes the start date, as nothing clamps it), and a
      label whose estimated extent is centred on the rectangle. */
  lemma TaskRectProperties(t: Task, row: nat, scale: TimeScale, elementHeight: real, fontSize: real)
    requires scale.Valid() && fontSize != 0.0
    ensures var r := TaskRect(t, row, scale, elementHeight, fontSize);
      && r.id == t.id && r.tooltip == t.title
      && r.y == row as real * elementHeight * 1.5 && r.height == elementHeight
      && r.x == scale.Apply(t.startDate) && r.xEnd == scale.Apply(t.dueDate)
      && r.width == r.xEnd - r.x
      && (scale.width > 0.0 ==> (r.width < 0.0 <==> t.dueDate < t.startDate))
      && r.labelX + |r.caption| as real * fontSize * 0.5 / 2.0 == r.x + r.width / 2.0
      && r.labelY == r.y + r.height / 2.0 + 0.45 * fontSize
  {
    TaskRectPlacement(t, row, scale, elementHeight, fontSize);
    TaskRectDirection(t, row, scale, elementHeight, fontSize);
    TaskRectLabel(t, row, scale, elementHeight, fontSize);
  }

  lemma TaskRectPlacement(t: Task, row: nat, scale: TimeScale, elementHeight: real, fontSize: real)
    requires scale.Valid() && fontSize != 0.0
    ensures var r := TaskRect(t, row, scale, elementHeight, fontSize);
      && r.id == t.id && r.tooltip == t.title
      && r.y == row as real * elementHeight * 1.5 && r.height == elementHeight
      && r.x == scale.Apply(t.startDate) && r.xEnd == scale.Apply(t.dueDate)
      && r.width == r.xEnd - r.x
  {
  }

  lemma TaskRectDirection(t: Task, row: nat, scale: TimeScale, elementHeight: real, fontSize: real)
    requires scale.Valid() && fontSize != 0.0
    ensures var r := TaskRect(t, row, scale, elementHeight, fontSize);
      scale.width > 0.0 ==> (r.width < 0.0 <==> t.dueDate < t.startDate)
  {
    WidthSign(scale, t.startDate, t.dueDate);
  }

  lemma TaskRectLabel(t: Task, row: nat, scale: TimeScale, elementHeight: real, fontSize: real)
    requires scale.Valid() && fontSize != 0.0
    ensures var r := TaskRect(t, row, scale, elementHeight, fontSize);
      && r.labelX + |r.caption| as real * fontSize * 0.5 / 2.0 == r.x + r.width / 2.0
      && r.labelY == r.y + r.height / 2.0 + 0.45 * fontSize
  {
    var r := TaskRect(t, row, scale, elementHeight, fontSize);
    LabelCentred(|r.caption| as real, fontSize, r.x, r.width);
  }

  /** The scaled extent from `a` to `b` is negative exactly when `b`
      precedes `a`, for a positive width. */
  lemma WidthSign(s: TimeScale, a: int, b: int)
    requires s.Valid()
    ensures s.width > 0.0 ==> (s.Apply(b) - s.Apply(a) < 0.0 <==> b < a)
  {
    ScaleMapsWindow(s, a, b);
    ScaleMapsWindow(s, b, a);
  }

  /** The label starts half its estimated extent left of the centre. */
  lemma LabelCentred(n: real, fontSize: real, x: real, width: real)
    ensures (x + width / 2.0 - (n / 2.0) * (fontSize * CharWidthFactor)) + n * fontSize * 0.5 / 2.0 == x + width / 2.0
  {
    assert (n / 2.0) * (fontSize * CharWidthFactor) == n * fontSize * 0.5 / 2.0;
  }
}
