/** The older chart component (GanttChart): it sorts a copy of its tasks
    only to find the date window, and lays the bars out in the order the
    tasks arrive, on a scale as wide as the drawable area. It draws no
    connectors. */
module GanttChart {
  import opened Wrappers
  import opened Js
  import opened Calendar
  import opened Models
  import opened Timeline

  /** The options both lifecycle hooks pass: width 1200, height 400, font
      size 12, element height 20, no margin. */
  const ElementHeight: real := 20.0
  const SvgWidth: real := 1200.0
  const SvgHeight: real := 400.0
  const FontSize: real := 12.0

  /** Defaults of `_createGanttChart` for a missing (or zero) width, height
      and font size. */
  const DefaultWidth: real := 600.0
  const DefaultHeight: real := 200.0
  const DefaultFontSize: real := 12.0

  datatype ChartOptions = ChartOptions(width: Option<real>, height: Option<real>, fontSize: Option<real>, margin: Option<Margin>)

  /** The options of `componentDidMount` and `componentDidUpdate`. */
  function HookOptions(): ChartOptions {
    ChartOptions(Some(SvgWidth), Some(SvgHeight), Some(FontSize), None)
  }

  /** The margin: the one given, or two element heights on each side. */
  function MarginOr(margin: Option<Margin>, elementHeight: real): (m: Margin)
    ensures margin.Some? ==> m == margin.value
    ensures margin.None? ==> m.top == m.left == 2.0 * elementHeight
  {
    if margin.Some? then margin.value else Margin(elementHeight * 2.0, elementHeight * 2.0)
  }

  /** What a layout pass computes before drawing. */
  datatype ChartLayout = ChartLayout(
    size: ChartSize,
    margin: Margin,
    fontSize: real,
    window: Window,
    scale: TimeScale,
    rects: seq<Rect>)

  /** `_createElementData`: one rectangle per task, in the order given, the
      i-th drawn in row i. */
  function CreateElementData(tasks: seq<Task>, elementHeight: real, scale: TimeScale, fontSize: real): (rects: seq<Rect>)
    requires scale.Valid() && fontSize != 0.0
    ensures |rects| == |tasks|
    ensures forall i :: 0 <= i < |tasks| ==>
      && rects[i].id == tasks[i].id
      && rects[i].tooltip == tasks[i].title
      && rects[i].y == i as real * elementHeight * RowPitch
      && rects[i].height == elementHeight
      && rects[i].width == rects[i].xEnd - rects[i].x
      && rects[i].x == scale.Apply(tasks[i].startDate)
      && rects[i].xEnd == scale.Apply(tasks[i].dueDate)
  {
    seq(|tasks|, i requires 0 <= i < |tasks| => TaskRect(tasks[i], i, scale, elementHeight, fontSize))
  }

  /** Every bar's label follows the same truncation rule as the SVG chart:
      the title when it fits, otherwise a prefix of it followed by the
      ellipsis, centred on the bar and 0.45 font sizes below its middle. */
  lemma ElementDataLabels(tasks: seq<Task>, elementHeight: real, scale: TimeScale, fontSize: real, i: int)
    requires scale.Valid() && fontSize != 0.0 && 0 <= i < |tasks|
    ensures var r := CreateElementData(tasks, elementHeight, scale, fontSize)[i];
      && r.caption == FitLabelAsWritten(tasks[i].title, r.width / fontSize)
      && (|tasks[i].title| as real <= r.width / fontSize ==> r.caption == tasks[i].title)
      && (|tasks[i].title| as real > r.width / fontSize ==>
            |r.caption| >= 3 && r.caption[..|r.caption| - 3] <= tasks[i].title && r.caption[|r.caption| - 3..] == Ellipsis)
      && r.labelX + |r.caption| as real * fontSize * 0.5 / 2.0 == r.x + r.width / 2.0
      && r.labelY == r.y + r.height / 2.0 + 0.45 * fontSize
  {
    TaskRectProperties(tasks[i], i, scale, elementHeight, fontSize);
  }

  /** `_createGanttChart` with the computing part of `_createChartSvg`.
      The window comes from the sorted copy, which has the same dates as
      the tasks; the bars keep the order of the tasks as given; the scale
      maps the padded window onto the drawable width. An empty list fails
      when the window is padded. */
  method CreateGanttChart(tasks: seq<Task>, elementHeight: real, options: ChartOptions) returns (r: Result<ChartLayout, LayoutError>)
    ensures tasks == [] <==> r.Failure?
    ensures r.Failure? ==> r.error == NoTasks
    ensures r.Success? ==>
      var margin := MarginOr(options.margin, elementHeight);
      var size := SizeChart(options.width, options.height, DefaultWidth, DefaultHeight, margin, |tasks|, elementHeight);
      var window := PadWindow(DateWindow(tasks));
      var scale := TimeScale(window.minStart, window.maxEnd, size.scaleWidth);
      var fontSize := NumberOr(options.fontSize, DefaultFontSize);
      r.value == ChartLayout(size, margin, fontSize, window, scale, CreateElementData(tasks, elementHeight, scale, fontSize))
  {
    var margin := MarginOr(options.margin, elementHeight);
    var size := SizeChart(options.width, options.height, DefaultWidth, DefaultHeight, margin, |tasks|, elementHeight);
    var fontSize := NumberOr(options.fontSize, DefaultFontSize);
    var sorted := SortedCopy(tasks);
    var bounds := FindDateBoundaries(sorted);
    if bounds.None? {
      assert |tasks| == |sorted|;
      return Failure(NoTasks);
    }
    assert tasks != [] by {
      assert sorted[0] in multiset(tasks);
    }
    TightWindowOfPermutation(bounds.value, sorted, tasks);
    TightWindowUnique(bounds.value, DateWindow(tasks), tasks);
    var window := PadBounds(bounds.value);
    var scale := TimeScale(window.minStart, window.maxEnd, size.scaleWidth);
    var rects := CreateElementData(tasks, elementHeight, scale, fontSize);
    return Success(ChartLayout(size, margin, fontSize, window, scale, rects));
  }

  /** With the hooks' options the drawable area is 1120 pixels wide and the
      svg 1200 wide and at least 400 tall, growing by 40 pixels per task
      beyond ten tasks. */
  lemma HookSize(taskCount: nat)
    ensures var size := SizeChart(HookOptions().width, HookOptions().height, DefaultWidth, DefaultHeight,
                                  MarginOr(HookOptions().margin, ElementHeight), taskCount, ElementHeight);
      && size.scaleWidth == 1120.0
      && size.svgWidth == 1200.0
      && size.svgHeight == RealMax(400.0, 40.0 * taskCount as real)
      && size.scaleHeight == size.svgHeight - 80.0
      && (taskCount <= 10 ==> size.svgHeight == 400.0)
  {
  }
}
