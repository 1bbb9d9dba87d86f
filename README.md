# SharePoint tasks Gantt web part — a Dafny model

The web part reads the items of a SharePoint tasks list and turns them into
tasks. It draws them as a Gantt chart: one bar per task on a time axis, with
connectors from each task to its predecessors, and month and day header
rows. It also offers a panel for editing a task's fields, assignees and
predecessors. This project models the computing core of that web part, not
its drawing:

- **Timeline** (`timeline.dfy`): the start-date sort of a copy of the tasks,
  the date window that covers every start and due date, the two-day padding
  of that window, the linear time scale, the chart size arithmetic, and the
  rectangle and label of each bar.
- **GanttChartSvg** (`gantt_chart_svg.dfy`): the SVG chart component. It
  keeps a sorted copy of its tasks and the day count in its state. It lays
  out one element per task, caches the elements by id, and routes one
  six-point connector per (task, predecessor) pair. Per-element connection
  counters offset the connectors.
- **GanttChart** (`gantt_chart.dfy`): the older chart component, with its
  own size and margin defaults and bars in the order the tasks arrive.
- **MonthsRow / DaysRow / TaskRow**: the header loops that bucket days by
  month and list day numbers, and the width of an HTML task bar.
- **Funcs**: date-only equality.
- **SpfxTasksGantt**: the root component's state, the change detection and
  copy-and-replace of a task field, the assignee-list comparison, the
  assembly of user ids for a person field, and the render branches.
- **GanttPeoplePicker**: the suggestion filter that hides people already
  chosen, and the result limit.
- **ViewEditTaskPanel**: the predecessor display string, the initial
  predecessor selection, the multi-select toggle, and the commit mapping.
- **GanttService**: the list-item to task mapping and sort, the user photo
  URL, the property-to-column mapping of an update, and the choice options.

Support modules:

- `calendar.dfy` models instants as integer milliseconds (a day is
  86 400 000 ms). It also has civil dates for the header rows.
- `js.dfy` holds the JavaScript semantics the code relies on:
  `Array.prototype.slice(0, end)` with a real end (the label code slices
  the character array `split('')` returns), `x || d`, `parseInt` of
  digits, and `filter`.
- `models.dfy` holds the record types.
- `wrappers.dfy` holds `Option` and `Result`.

Pixel geometry is exact `real` arithmetic. The source throws in some cases:
an empty task list when the window is padded, a predecessor whose id is not
on the chart, a task id that is not in the list, and an account the
directory cannot resolve. The model turns each into a `Failure` value.

## Model

| member | source | states |
|---|---|---|
| Funcs.JsDate.StartOfDay | src/webparts/spfxTasksGantt/funcs.ts:3 | the date rebuilt from its date string is midnight of the same day |
| Funcs.JsDate.SetHours | src/webparts/spfxTasksGantt/funcs.ts:4 | replaces the hour of the day and keeps the day, minutes, seconds and milliseconds |
| Funcs.JsDate.SetMinutes | src/webparts/spfxTasksGantt/funcs.ts:5 | replaces the minutes and keeps everything else |
| Funcs.JsDate.SetSeconds | src/webparts/spfxTasksGantt/funcs.ts:6 | replaces the seconds and keeps everything else |
| Funcs.JsDate.SetMilliseconds | src/webparts/spfxTasksGantt/funcs.ts:7 | replaces the milliseconds and keeps everything else |
| Funcs.DateNoTime | src/webparts/spfxTasksGantt/funcs.ts:2-9 | the result falls on the same calendar day as the input, at time of day 0 |
| Funcs.EqualDatesNoTime | src/webparts/spfxTasksGantt/funcs.ts:11-13 | true exactly when both instants fall on the same calendar day |
| Funcs.SameDayAtAnyTime | src/webparts/spfxTasksGantt/funcs.ts:11-13 | two times on one day compare equal whatever their times of day; a time on the next day never does |
| Calendar.TruncDiv | src/webparts/spfxTasksGantt/components/GanttChart/TaskRow/TaskRow.tsx:17 | a day difference rounds toward zero: its magnitude is the floor of the magnitude, and it has the sign of the difference |
| Calendar.DiffDaysAddDays | src/webparts/spfxTasksGantt/components/GanttChart/TaskRow/TaskRow.tsx:17 | adding n days and taking the day difference gives back n, in either order with opposite sign |
| Calendar.EndOfMonth | src/webparts/spfxTasksGantt/components/GanttChart/MonthsRow/MonthsRow.tsx:18 | the end of the month stays in the same month and year, and lies the rest of the month's days and the rest of the day later |
| Calendar.AddDay | src/webparts/spfxTasksGantt/components/GanttChart/DaysRow/DaysRow.tsx:18 | adding a day yields a valid date exactly one day later at the same time of day |
| Calendar.DiffToEndOfMonth | src/webparts/spfxTasksGantt/components/GanttChart/MonthsRow/MonthsRow.tsx:23 | the whole days from a date to its month's end are the month's remaining days |
| Js.SliceTo | src/webparts/spfxTasksGantt/components/GanttChartSvg/GanttChartSvg.tsx:242 | `slice(0, end)` is a prefix; a non-negative end truncates toward zero and is capped at the length; a negative end counts back from the end |
| Js.NumberOr | src/webparts/spfxTasksGantt/components/GanttChart/GanttChart.tsx:49 | `x or d` (JavaScript's logical or) is x when x is present and non-zero, d otherwise |
| Js.Filter | src/webparts/spfxTasksGantt/components/GanttPeoplePicker/GanttPeoplePicker.tsx:74 | keeps exactly the elements satisfying the test, all of them when all do |
| Js.FilterIsSubsequence | src/webparts/spfxTasksGantt/components/GanttPeoplePicker/GanttPeoplePicker.tsx:74 | `filter` keeps the original order |
| Js.ParseIntOfNatToString | src/webparts/spfxTasksGantt/components/SpfxTasksGantt.tsx:111 | `parseInt` of a printed non-negative id gives the id back |
| Timeline.SortByStartDate | src/webparts/spfxTasksGantt/components/GanttChartSvg/GanttChartSvg.tsx:42-44 | the in-place sort leaves the array ascending by start date and a permutation of what it held |
| Timeline.SortedCopy | src/webparts/spfxTasksGantt/components/GanttChartSvg/GanttChartSvg.tsx:41-44 | the sorted copy is ascending by start date and holds the same tasks as the input, which is not reordered |
| Timeline.DateWindow | src/webparts/spfxTasksGantt/components/GanttChartSvg/GanttChartSvg.tsx:309-325 | the window of a non-empty list covers every start and due date, both ends are task dates, and min <= max |
| Timeline.WindowStep | src/webparts/spfxTasksGantt/components/GanttChartSvg/GanttChartSvg.tsx:311-319 | one task's four comparisons turn the tight window of the earlier tasks into the tight window including that task |
| Timeline.TightWindowUnique | src/webparts/spfxTasksGantt/components/GanttChartSvg/GanttChartSvg.tsx:309-325 | a list has only one covering window whose ends are task dates |
| Timeline.TightWindowOfPermutation | src/webparts/spfxTasksGantt/components/GanttChart/GanttChart.tsx:57-62 | reordering the tasks leaves their window unchanged, so the sorted copy gives the window of the tasks |
| Timeline.FindDateBoundaries | src/webparts/spfxTasksGantt/components/GanttChartSvg/GanttChartSvg.tsx:309-325 | the forEach scan yields nothing exactly for an empty list, and otherwise the tight window |
| Timeline.TightWindowOrdered | src/webparts/spfxTasksGantt/components/GanttChartSvg/GanttChartSvg.tsx:309-325 | the window's start is never after its end |
| Timeline.PadWindow | src/webparts/spfxTasksGantt/components/GanttChartSvg/GanttChartSvg.tsx:104-105 | padding moves the start exactly two days earlier and the end two days later, so the padded window still covers every task the window covered |
| Timeline.MomentBox.constructor | src/webparts/spfxTasksGantt/components/GanttChartSvg/GanttChartSvg.tsx:312 | a fresh moment holds the task date it was built from |
| Timeline.MomentBox.Add | src/webparts/spfxTasksGantt/components/GanttChartSvg/GanttChartSvg.tsx:105 | `add(n, 'days')` moves the moment itself n days later |
| Timeline.MomentBox.Subtract | src/webparts/spfxTasksGantt/components/GanttChartSvg/GanttChartSvg.tsx:104 | `subtract(n, 'days')` moves the moment itself n days earlier |
| Timeline.PadBounds | src/webparts/spfxTasksGantt/components/GanttChartSvg/GanttChartSvg.tsx:102-105 | mutating the two fresh moments in place yields the padded window |
| Timeline.PaddedWindow | src/webparts/spfxTasksGantt/components/GanttChartSvg/GanttChartSvg.tsx:104-105 | the padded window is at least four days long and its day count is four more than the unpadded one |
| Timeline.ScaleMapsWindow | src/webparts/spfxTasksGantt/components/GanttChartSvg/GanttChartSvg.tsx:128-130 | the scale sends the window's ends to 0 and to the width, and preserves the order of instants (strictly when the width is positive) |
| Timeline.SizeChart | src/webparts/spfxTasksGantt/components/GanttChart/GanttChart.tsx:49-53 | the svg is the requested or default width, and the larger of the requested height and two element heights per task; the drawable area is that less a margin on each side |
| Timeline.FitLabelAsWritten | src/webparts/spfxTasksGantt/components/GanttChartSvg/GanttChartSvg.tsx:239-243 | the label rule the layouts use: a title that fits is the label; otherwise the label is a prefix of the title followed by "..." |
| Timeline.FitLabel | src/webparts/spfxTasksGantt/components/GanttChartSvg/GanttChartSvg.tsx:241-242 | the corrected rule, with the slice end clamped at zero: a title that fits is the label; otherwise a prefix of it followed by "..." |
| Timeline.FitLabelLength | src/webparts/spfxTasksGantt/components/GanttChartSvg/GanttChartSvg.tsx:241-242 | under the corrected rule a truncated label has as many characters as fit (at least "..."), and is never longer than the title or "..." |
| Timeline.FitLabelRulesAgree | src/webparts/spfxTasksGantt/components/GanttChartSvg/GanttChartSvg.tsx:241-242 | with more than two characters of room the rule as written and the corrected rule give the same label |
| Timeline.FitLabelAsWrittenGrowsLabel | src/webparts/spfxTasksGantt/components/GanttChartSvg/GanttChartSvg.tsx:241-242 | with fewer than three characters of room the label as written is longer than the title; the corrected rule gives "..." |
| Timeline.TaskRectProperties | src/webparts/spfxTasksGantt/components/GanttChartSvg/GanttChartSvg.tsx:227-246 | a bar keeps the task's id, has the full title as tooltip, sits in row i at y = 1.5·i·h with height h, spans the scaled start and due dates, has negative width exactly when due precedes start, and has a centred label |
| Timeline.TaskRectPlacement | src/webparts/spfxTasksGantt/components/GanttChartSvg/GanttChartSvg.tsx:227-234 | the bar's id, tooltip, row position, height and x extent |
| Timeline.TaskRectDirection | src/webparts/spfxTasksGantt/components/GanttChartSvg/GanttChartSvg.tsx:230 | on a positive-width axis the width is not clamped: it is negative exactly when the due date precedes the start date |
| Timeline.TaskRectLabel | src/webparts/spfxTasksGantt/components/GanttChartSvg/GanttChartSvg.tsx:236-246 | the label's centre is the bar's centre at half a font size per character, and it sits 0.45 font sizes below the bar's middle |
| GanttChartSvg.ImageOf | src/webparts/spfxTasksGantt/components/GanttChartSvg/GanttChartSvg.tsx:261 | the bar's picture is the first assignee's image, or empty without assignees |
| GanttChartSvg.CreateElementData | src/webparts/spfxTasksGantt/components/GanttChartSvg/GanttChartSvg.tsx:225-263 | one element per task in input order, with the task's id, title as tooltip, row position, predecessors, completion and image |
| GanttChartSvg.ElementDataRects | src/webparts/spfxTasksGantt/components/GanttChartSvg/GanttChartSvg.tsx:227-246 | each element spans the scaled dates, its label is the title or a prefix of it with "...", and the label is centred on the bar and sits 0.45 font sizes below its middle |
| GanttChartSvg.CreateDataCacheById | src/webparts/spfxTasksGantt/components/GanttChartSvg/GanttChartSvg.tsx:327-330 | the cache has a key for exactly the elements' ids, each mapped to an element with that id |
| GanttChartSvg.CacheKeepsLast | src/webparts/spfxTasksGantt/components/GanttChartSvg/GanttChartSvg.tsx:329 | when ids repeat, the cache holds the last element with that id |
| GanttChartSvg.InitialConnections | src/webparts/spfxTasksGantt/components/GanttChartSvg/GanttChartSvg.tsx:271 | the counters start at 0 for every element id and for no other key |
| GanttChartSvg.EdgesFrom | src/webparts/spfxTasksGantt/components/GanttChartSvg/GanttChartSvg.tsx:275-276 | one edge per predecessor of a task, in predecessor order |
| GanttChartSvg.ConnectorPoints | src/webparts/spfxTasksGantt/components/GanttChartSvg/GanttChartSvg.tsx:284-294 | six points from the middle of the child's left end to the middle of the parent's right end, each segment horizontal or vertical, the bends offset by counter·h/4 |
| GanttChartSvg.ConnectorsSnoc | src/webparts/spfxTasksGantt/components/GanttChartSvg/GanttChartSvg.tsx:281-294 | one more edge adds one connector, drawn with both endpoints' counters raised by that edge |
| GanttChartSvg.CountersStep | src/webparts/spfxTasksGantt/components/GanttChartSvg/GanttChartSvg.tsx:281-282 | the two increments keep the counters equal to the number of drawn edges touching each id |
| GanttChartSvg.DrawnStep | src/webparts/spfxTasksGantt/components/GanttChartSvg/GanttChartSvg.tsx:276-301 | drawing one edge keeps the lines and counters in step with the edges drawn so far |
| GanttChartSvg.CreatePolylineData | src/webparts/spfxTasksGantt/components/GanttChartSvg/GanttChartSvg.tsx:266-307 | the nested loop with its counter map produces the connectors of all edges, or fails on a dangling predecessor |
| GanttChartSvg.ConnectPredecessors | src/webparts/spfxTasksGantt/components/GanttChartSvg/GanttChartSvg.tsx:275-302 | for one task it reports a missing predecessor exactly when one is absent from the cache, and otherwise draws all of the task's edges in order |
| GanttChartSvg.ConnectStep | src/webparts/spfxTasksGantt/components/GanttChartSvg/GanttChartSvg.tsx:276-294 | one predecessor's two increments and six points extend the drawn edges by that edge |
| GanttChartSvg.EdgesAppend | src/webparts/spfxTasksGantt/components/GanttChartSvg/GanttChartSvg.tsx:305 | the flattened edges of two element lists are the edges of each, concatenated |
| GanttChartSvg.EdgeCount | src/webparts/spfxTasksGantt/components/GanttChartSvg/GanttChartSvg.tsx:274-305 | there are as many edges as predecessor entries |
| GanttChartSvg.EdgeIsListed | src/webparts/spfxTasksGantt/components/GanttChartSvg/GanttChartSvg.tsx:274-305 | the edge for predecessor j of task i sits after all edges of earlier tasks, at offset j |
| GanttChartSvg.LoadEdgesFrom | src/webparts/spfxTasksGantt/components/GanttChartSvg/GanttChartSvg.tsx:281-282 | one task's edges raise its own counter by its predecessor count, and each other id's counter by its occurrences |
| GanttChartSvg.FinalCountersAreDegrees | src/webparts/spfxTasksGantt/components/GanttChartSvg/GanttChartSvg.tsx:271-282 | at the end every counter is the number of edges touching that id |
| GanttChartSvg.ConnectorCount | src/webparts/spfxTasksGantt/components/GanttChartSvg/GanttChartSvg.tsx:274-305 | a successful routing has one connector per predecessor entry |
| GanttChartSvg.ConnectorOfEdge | src/webparts/spfxTasksGantt/components/GanttChartSvg/GanttChartSvg.tsx:281-294 | connector k joins edge k's child to its cached parent, offset by both counters as they stand after that edge, each at least 1 |
| GanttChartSvg.DanglingPredecessorFails | src/webparts/spfxTasksGantt/components/GanttChartSvg/GanttChartSvg.tsx:276-281 | a predecessor id not on the chart makes routing fail |
| GanttChartSvg.ResolvedWhenIdsPresent | src/webparts/spfxTasksGantt/components/GanttChartSvg/GanttChartSvg.tsx:276 | when every predecessor id is on the chart, routing succeeds |
| GanttChartSvg.EdgeOrigin | src/webparts/spfxTasksGantt/components/GanttChartSvg/GanttChartSvg.tsx:274-276 | every edge comes from some task and one of its predecessors |
| GanttChartSvg.SharedParentOffsets | src/webparts/spfxTasksGantt/components/GanttChartSvg/GanttChartSvg.tsx:281-294 | with B after A and C after A and B, the three connectors carry counters (1,1), (2,1) and (2,2) |
| GanttChartSvg.CreateGanttChart | src/webparts/spfxTasksGantt/components/GanttChartSvg/GanttChartSvg.tsx:91-142 | the layout: padded window, 20 pixels per day of it, one element per task, and connectors when relations are shown; it fails on no tasks or a dangling predecessor |
| GanttChartSvg.BarsInsideAxis | src/webparts/spfxTasksGantt/components/GanttChartSvg/GanttChartSvg.tsx:104-130 | the axis spans at least four days and every bar starts and ends strictly inside it |
| GanttChartSvg.DayCountOfPermutation | src/webparts/spfxTasksGantt/components/GanttChartSvg/GanttChartSvg.tsx:46-47 | the day count from the unsorted props equals that of the sorted copy |
| GanttChartSvg.GanttChartSvgComponent.constructor | src/webparts/spfxTasksGantt/components/GanttChartSvg/GanttChartSvg.tsx:30-37 | the state starts with no tasks and 0 days |
| GanttChartSvg.GanttChartSvgComponent.ComponentDidMount | src/webparts/spfxTasksGantt/components/GanttChartSvg/GanttChartSvg.tsx:39-63 | the state holds a sorted permutation of the props and their day count, and the chart is the layout of that copy with the mount options |
| GanttChartSvg.GanttChartSvgComponent.ComponentDidUpdate | src/webparts/spfxTasksGantt/components/GanttChartSvg/GanttChartSvg.tsx:65-89 | unchanged tasks change nothing; changed ones redo the mount's work |
| GanttChart.MarginOr | src/webparts/spfxTasksGantt/components/GanttChart/GanttChart.tsx:44-47 | the margin given, or two element heights on top and left |
| GanttChart.CreateElementData | src/webparts/spfxTasksGantt/components/GanttChart/GanttChart.tsx:139-176 | one bar per task in the order given, with the task's id and title, row position and scaled extent |
| GanttChart.ElementDataLabels | src/webparts/spfxTasksGantt/components/GanttChart/GanttChart.tsx:147-161 | each bar's label follows the SVG chart's rule: the title when it fits, otherwise a prefix of it followed by "..."; it is centred on the bar and sits 0.45 font sizes below the bar's middle |
| GanttChart.CreateGanttChart | src/webparts/spfxTasksGantt/components/GanttChart/GanttChart.tsx:42-91 | it fails exactly on no tasks; the window of the sorted copy is the tasks' window padded, the scale spans the drawable width, and the bars keep the tasks' order |
| GanttChart.HookSize | src/webparts/spfxTasksGantt/components/GanttChart/GanttChart.tsx:26-53 | with the hooks' options the drawable width is 1120 and the svg 1200 by at least 400, growing 40 pixels per task beyond ten |
| MonthsRow.NextMonthStart | src/webparts/spfxTasksGantt/components/GanttChart/MonthsRow/MonthsRow.tsx:18-25 | the day after a month's end is the first of a month and later than the date |
| MonthsRow.BuildMonthDays | src/webparts/spfxTasksGantt/components/GanttChart/MonthsRow/MonthsRow.tsx:14-26 | the do-while loop produces the month buckets from minDate to maxDate |
| MonthsRow.MonthBucketsStep | src/webparts/spfxTasksGantt/components/GanttChart/MonthsRow/MonthsRow.tsx:16-26 | each pass adds the current month's entry and continues from the next month while that is before maxDate |
| MonthsRow.MonthBucketsShape | src/webparts/spfxTasksGantt/components/GanttChart/MonthsRow/MonthsRow.tsx:14-26 | at least one entry, the first for minDate's month; consecutive months; a first month that is not the last counts the days from minDate to its end; middle months count all their days |
| MonthsRow.MonthsIncrease | src/webparts/spfxTasksGantt/components/GanttChart/MonthsRow/MonthsRow.tsx:20-23 | the months strictly increase, so no key is written twice |
| MonthsRow.LastMonthEntry | src/webparts/spfxTasksGantt/components/GanttChart/MonthsRow/MonthsRow.tsx:14-26 | over more than one month, the last entry is made from the 1st of its month at 23:59:59.999: the whole days from there to maxDate plus one when the month ends after maxDate, otherwise the whole month |
| MonthsRow.LastMonthStopsAtMax | src/webparts/spfxTasksGantt/components/GanttChart/MonthsRow/MonthsRow.tsx:19-20 | when the month ends after maxDate, its only entry counts the whole days to maxDate plus one |
| MonthsRow.MonthStyle | src/webparts/spfxTasksGantt/components/GanttChart/MonthsRow/MonthsRow.tsx:32-35 | width equals flexBasis, and both are count day columns plus count − 1 borders |
| DaysRow.MomentRef.constructor | src/webparts/spfxTasksGantt/components/GanttChart/DaysRow/DaysRow.tsx:15 | the shared moment holds the given date |
| DaysRow.MomentRef.AddOneDay | src/webparts/spfxTasksGantt/components/GanttChart/DaysRow/DaysRow.tsx:18 | the caller's moment itself moves one day later |
| DaysRow.AddDaysTo | src/webparts/spfxTasksGantt/components/GanttChart/DaysRow/DaysRow.tsx:18 | n single-day steps move a date n days later at the same time of day |
| DaysRow.CollectDays | src/webparts/spfxTasksGantt/components/GanttChart/DaysRow/DaysRow.tsx:13-19 | the loop lists the day numbers of the days before maxDate, and leaves the caller's minDate at the first date not before maxDate |
| DaysRow.DaysFromStep | src/webparts/spfxTasksGantt/components/GanttChart/DaysRow/DaysRow.tsx:16-18 | a date before maxDate contributes its day number and the list continues from the next day |
| DaysRow.DaysFromShape | src/webparts/spfxTasksGantt/components/GanttChart/DaysRow/DaysRow.tsx:14-19 | the list has one entry per started day before maxDate (none when minDate is not before it), entry i is the day number i days on, in 1..31, and the moment ends that many days on |
| DaysRow.DaysFromLength | src/webparts/spfxTasksGantt/components/GanttChart/DaysRow/DaysRow.tsx:16 | the number of entries is the span to maxDate in days, rounded up, or 0 |
| DaysRow.DayAt | src/webparts/spfxTasksGantt/components/GanttChart/DaysRow/DaysRow.tsx:17 | entry i is the day of the month i days after minDate |
| DaysRow.StopDateAfterDays | src/webparts/spfxTasksGantt/components/GanttChart/DaysRow/DaysRow.tsx:15-18 | the caller's moment ends as many days on as there are entries |
| DaysRow.DayCells | src/webparts/spfxTasksGantt/components/GanttChart/DaysRow/DaysRow.tsx:23-26 | one cell per day, each with width and flexBasis equal to the day column width |
| TaskRow.TaskRowStyle | src/webparts/spfxTasksGantt/components/GanttChart/TaskRow/TaskRow.tsx:19-24 | top is y, height is the row height, the radius is half of it, and the width is one day width per whole day |
| TaskRow.NumberOfDaysProperties | src/webparts/spfxTasksGantt/components/GanttChart/TaskRow/TaskRow.tsx:17-24 | the day count is the whole days between the dates, rounded down, in either order; swapping start and due changes neither the count nor the style |
| TaskRow.WholeDayTask | src/webparts/spfxTasksGantt/components/GanttChart/TaskRow/TaskRow.tsx:17-23 | a task due n days after its start at the same time spans n day widths |
| SpfxTasksGantt.Get | src/webparts/spfxTasksGantt/components/SpfxTasksGantt.tsx:74 | reading a field gives a value of that field's type |
| SpfxTasksGantt.Set | src/webparts/spfxTasksGantt/components/SpfxTasksGantt.tsx:87 | the spread copy has the new value in the named field and every other field unchanged |
| SpfxTasksGantt.FindIndex | src/webparts/spfxTasksGantt/components/SpfxTasksGantt.tsx:68-70 | it finds the first task with the id, and nothing exactly when no task has it |
| SpfxTasksGantt.DifferentPersonaLists | src/webparts/spfxTasksGantt/components/SpfxTasksGantt.tsx:141-156 | true exactly when the lengths differ or some persona of the first list has no match in the second |
| SpfxTasksGantt.SwapOfAssigneesUndetected | src/webparts/spfxTasksGantt/components/SpfxTasksGantt.tsx:148 | replacing one list assignee by another is not seen as a change by the comparison as written, and is by the corrected one |
| SpfxTasksGantt.SamePersonaProperties | src/webparts/spfxTasksGantt/components/SpfxTasksGantt.tsx:148 | the corrected match is reflexive; for other accounts it needs a defined shared id or email, so it never matches on two missing ones |
| SpfxTasksGantt.DifferProperties | src/webparts/spfxTasksGantt/components/SpfxTasksGantt.tsx:142-144 | under the corrected match, lists of other lengths differ, and a list never differs from itself |
| SpfxTasksGantt.DifferAsWrittenProperties | src/webparts/spfxTasksGantt/components/SpfxTasksGantt.tsx:141-156 | under the match as written, lists of other lengths differ, and a list never differs from itself |
| SpfxTasksGantt.ResolveUsers | src/webparts/spfxTasksGantt/components/SpfxTasksGantt.tsx:107-119 | one entry per person in order (the parsed id, or the directory's id), and failure exactly when some person cannot be resolved |
| SpfxTasksGantt.FindByAccount | src/webparts/spfxTasksGantt/components/SpfxTasksGantt.tsx:131 | the first entry for the account, and nothing exactly when there is none |
| SpfxTasksGantt.AttachIds | src/webparts/spfxTasksGantt/components/SpfxTasksGantt.tsx:127-133 | each person gets the printed id of the entry for their account, in order |
| SpfxTasksGantt.RefsListAllAccounts | src/webparts/spfxTasksGantt/components/SpfxTasksGantt.tsx:107-133 | entry i is for person i's account, so every person's lookup succeeds |
| SpfxTasksGantt.OwnIdAttached | src/webparts/spfxTasksGantt/components/SpfxTasksGantt.tsx:130-133 | with distinct accounts, each person gets the id resolved for them |
| SpfxTasksGantt.NumericIdKept | src/webparts/spfxTasksGantt/components/SpfxTasksGantt.tsx:109-113 | a person with a numeric id sends that number and keeps the same id text |
| SpfxTasksGantt.DirectoryIdAttached | src/webparts/spfxTasksGantt/components/SpfxTasksGantt.tsx:115-118 | a person without an id gets the directory's id, and cannot be resolved when the directory has none |
| SpfxTasksGantt.Render | src/webparts/spfxTasksGantt/components/SpfxTasksGantt.tsx:158-191 | shimmer exactly while tasks are null, the empty message exactly for an empty list, the chart exactly for a non-empty list with status options; the modal shows the first task with the selected id, and only when there is one |
| SpfxTasksGantt.SpfxTasksGanttComponent.constructor | src/webparts/spfxTasksGantt/components/SpfxTasksGantt.tsx:28-38 | no tasks, closed, nothing selected, no status options |
| SpfxTasksGantt.SpfxTasksGanttComponent.ComponentDidMount | src/webparts/spfxTasksGantt/components/SpfxTasksGantt.tsx:40-50 | stores the loaded tasks and status options and nothing else |
| SpfxTasksGantt.SpfxTasksGanttComponent.OpenTaskModal | src/webparts/spfxTasksGantt/components/SpfxTasksGantt.tsx:52-57 | selects the task and opens the modal, nothing else |
| SpfxTasksGantt.SpfxTasksGanttComponent.SetIsOpen | src/webparts/spfxTasksGantt/components/SpfxTasksGantt.tsx:59-63 | sets the open flag, nothing else |
| SpfxTasksGantt.SpfxTasksGanttComponent.OnTaskPropertyChange | src/webparts/spfxTasksGantt/components/SpfxTasksGantt.tsx:65-91 | fails on unloaded tasks or an unknown id; a date on the same day or an equal value changes nothing; otherwise it sends one update and replaces only that task's field |
| SpfxTasksGantt.SpfxTasksGanttComponent.OnTaskPersonPropertyChange | src/webparts/spfxTasksGantt/components/SpfxTasksGantt.tsx:93-139 | a list with no difference under the match as written (same id or same email) changes nothing; an unresolvable person fails; otherwise it sends the ids in order under "assignedToId" and stores the people with their ids attached |
| SpfxTasksGantt.SecondChangeUnchanged | src/webparts/spfxTasksGantt/components/SpfxTasksGantt.tsx:72-87 | repeating a change just made is detected as no change |
| SpfxTasksGantt.DateChangeNeedsNewDay | src/webparts/spfxTasksGantt/components/SpfxTasksGantt.tsx:74-77 | a new time on the same day is no change to a date field; the next day is one |
| SpfxTasksGantt.OpenedTaskShown | src/webparts/spfxTasksGantt/components/SpfxTasksGantt.tsx:161-186 | after opening a listed task, the open modal shows that task |
| GanttPeoplePicker.ListContainsPersonaAsWritten | src/webparts/spfxTasksGantt/components/GanttPeoplePicker/GanttPeoplePicker.tsx:77-82 | false for a missing or empty list; otherwise true exactly when some item has the same id, missing ids included |
| GanttPeoplePicker.ListContainsPersona | src/webparts/spfxTasksGantt/components/GanttPeoplePicker/GanttPeoplePicker.tsx:77-82 | false for a missing or empty list; otherwise true exactly when some item is the same account |
| GanttPeoplePicker.RemoveDuplicatesWith | src/webparts/spfxTasksGantt/components/GanttPeoplePicker/GanttPeoplePicker.tsx:73-75 | keeps, in order, exactly the personas the test does not find in the list |
| GanttPeoplePicker.RemoveDuplicatesAsWritten | src/webparts/spfxTasksGantt/components/GanttPeoplePicker/GanttPeoplePicker.tsx:73-75 | keeps, in order, exactly the personas no chosen person shares an id with, and all of them when nothing is chosen |
| GanttPeoplePicker.RemoveDuplicates | src/webparts/spfxTasksGantt/components/GanttPeoplePicker/GanttPeoplePicker.tsx:73-82 | the corrected filter: keeps, in order, exactly the personas whose account is not already chosen, and all of them when nothing is chosen |
| GanttPeoplePicker.LimitResults | src/webparts/spfxTasksGantt/components/GanttPeoplePicker/GanttPeoplePicker.tsx:37 | a prefix of the results: all of them for a missing or zero limit, otherwise as many as `slice` keeps |
| GanttPeoplePicker.LimitKeepsFirst | src/webparts/spfxTasksGantt/components/GanttPeoplePicker/GanttPeoplePicker.tsx:37 | a positive limit keeps the first that many results |
| GanttPeoplePicker.OnFilterChanged | src/webparts/spfxTasksGantt/components/GanttPeoplePicker/GanttPeoplePicker.tsx:29-39 | the suggestions are search results in order, none sharing an id with a chosen person: all such results when there is no limit, otherwise the first of them as `slice` keeps |
| GanttPeoplePicker.GetTextFromItem | src/webparts/spfxTasksGantt/components/GanttPeoplePicker/GanttPeoplePicker.tsx:84-86 | the picker shows a persona by its text |
| GanttPeoplePicker.IdlessSelectionHidesAllSuggestions | src/webparts/spfxTasksGantt/components/GanttPeoplePicker/GanttPeoplePicker.tsx:81 | as written, one chosen person without an id hides every suggestion without an id |
| GanttPeoplePicker.OtherAccountsSuggested | src/webparts/spfxTasksGantt/components/GanttPeoplePicker/GanttPeoplePicker.tsx:73-81 | results for accounts not yet chosen are all kept |
| GanttPeoplePicker.SuggestionHiddenAsWritten | src/webparts/spfxTasksGantt/components/GanttPeoplePicker/GanttPeoplePicker.tsx:81 | choosing Alice hides Bob as written, in the filter and in the suggestions, and the corrected filter keeps him |
| ViewEditTaskPanel.ReduceFromIsJoin | src/webparts/spfxTasksGantt/components/ViewEditTaskPanel/ViewEditTaskPanel.tsx:307-309 | the reduce from any index appends the remaining texts joined by ", " |
| ViewEditTaskPanel.PredecessorsStringIsJoin | src/webparts/spfxTasksGantt/components/ViewEditTaskPanel/ViewEditTaskPanel.tsx:306-310 | the texts joined by ", " with no trailing separator; "" for none; the text alone for one |
| ViewEditTaskPanel.JoinEndsWithLast | src/webparts/spfxTasksGantt/components/ViewEditTaskPanel/ViewEditTaskPanel.tsx:308 | the joined string ends with the last text, so no separator trails it |
| ViewEditTaskPanel.InitialSelection | src/webparts/spfxTasksGantt/components/ViewEditTaskPanel/ViewEditTaskPanel.tsx:83 | in option order, exactly the options whose key is the printed id of a predecessor |
| ViewEditTaskPanel.Toggle | src/webparts/spfxTasksGantt/components/ViewEditTaskPanel/ViewEditTaskPanel.tsx:285-291 | no option leaves the selection as is; selecting appends; deselecting drops every entry with that key and keeps the rest in order |
| ViewEditTaskPanel.SelectThenDeselect | src/webparts/spfxTasksGantt/components/ViewEditTaskPanel/ViewEditTaskPanel.tsx:288-290 | selecting a new option and deselecting it restores the selection |
| ViewEditTaskPanel.Commit | src/webparts/spfxTasksGantt/components/ViewEditTaskPanel/ViewEditTaskPanel.tsx:276 | each selected option becomes its key and text, in order |
| ViewEditTaskPanel.CommitInitialSelection | src/webparts/spfxTasksGantt/components/ViewEditTaskPanel/ViewEditTaskPanel.tsx:83-96 | committing the initial selection sends only keys of the task's own predecessors |
| GanttService.UserImage | src/webparts/spfxTasksGantt/services/GanttService.ts:169-171 | the photo URL is the fixed prefix followed by the account name |
| GanttService.UserImageInjective | src/webparts/spfxTasksGantt/services/GanttService.ts:169-171 | different accounts get different photo URLs |
| GanttService.ToUser | src/webparts/spfxTasksGantt/services/GanttService.ts:128-134 | a list person keeps title and account, gets the account's photo, and has no id or email |
| GanttService.ToTask | src/webparts/spfxTasksGantt/services/GanttService.ts:125-156 | id, title, body and dates copied; completion parsed or 0; completed unless the checkmark is "0"; predecessors and assignees mapped in order or empty when absent |
| GanttService.GetTasks | src/webparts/spfxTasksGantt/services/GanttService.ts:116-167 | nothing for an empty site URL; otherwise the mapped items sorted by start date |
| GanttService.OneTaskPerItem | src/webparts/spfxTasksGantt/services/GanttService.ts:125-160 | exactly one task per list item, and each task is some item's mapping |
| GanttService.Lookup | src/webparts/spfxTasksGantt/services/GanttService.ts:51-64 | the first column for a property name, and nothing exactly when the name is not mapped |
| GanttService.UpdateKey | src/webparts/spfxTasksGantt/services/GanttService.ts:175-179 | the update's key is the mapped column, or "undefined" for a name with no column |
| GanttService.ChangesHaveColumns | src/webparts/spfxTasksGantt/services/GanttService.ts:51-64 | every field the panel changes, and the person field, has a column |
| GanttService.PersonColumn | src/webparts/spfxTasksGantt/services/GanttService.ts:61 | the person update goes to the "AssignedToId" column |
| GanttService.DescriptionColumn | src/webparts/spfxTasksGantt/services/GanttService.ts:55 | a description change goes to the "Body" column |
| GanttService.UnmappedName | src/webparts/spfxTasksGantt/services/GanttService.ts:175-179 | "assignedTo" has no column, so its update key is "undefined" |
| GanttService.ChoiceOptions | src/webparts/spfxTasksGantt/services/GanttService.ts:199-206 | one option per choice, in order, with the choice as key and text; none without the field |
| GanttService.ChoiceKeyIsText | src/webparts/spfxTasksGantt/services/GanttService.ts:200-205 | each option's key and text are the same choice |
| GanttService.TaskLists | src/webparts/spfxTasksGantt/services/GanttService.ts:101-114 | no lists for an empty site URL; otherwise the fetched lists |

## Left out

- SharePoint, search and directory calls become parameters: the fetched list items, the loaded tasks and status options, and a `resolve` function from account name to user id. The async sequencing, error logging and the `getInstance` singleton are not modelled. The update requests become returned values.
- React rendering and the d3 selection chains that draw the SVG are not modelled. Axis ticks, the hatch pattern and the avatar clip are also not modelled.
- The connector colour comes from `Math.random()` and is not modelled. A polyline holds only its points.
- Time zones, daylight saving and `toDateString` locale behaviour are not modelled. Instants are milliseconds on one local calendar with 86 400 000 ms per day.
- Parsing of dates and of percent-complete strings from list items is not modelled. Dates arrive as instants and the percentage as an optional real.
- NaN and Infinity are not modelled. `parseInt` is modelled only for leading decimal digits, without a sign or leading whitespace.
- `numberOfDaysInMonth` in MonthsRow is not modelled, because it is never called.
- The month names in the months row header are not modelled; the row is modelled as its entries and widths.
- Timeline.FitLabelAsWritten: counts the title in Unicode characters, where `split('')` and `length` count UTF-16 code units; the two differ for characters outside the Basic Multilingual Plane. The same holds for the caption widths in the layouts.
- GanttService.GetTasks: the source also returns `undefined` when reading the list fails (its `catch`); the model takes the items as already read, so that `undefined` is not modelled.
- Timeline.SortByStartDate: proves sortedness and permutation, but not the stability of the engine's `sort`.
- GanttChartSvg.GanttChartSvgComponent.ComponentDidUpdate: compares the task lists as values where the source compares `JSON.stringify` texts; the two agree on values that round-trip through JSON.
- SpfxTasksGantt.SpfxTasksGanttComponent.OnTaskPersonPropertyChange: is modelled for the one person field, `assignedTo`, which is the only one the panel edits.
- SpfxTasksGantt.SpfxTasksGanttComponent.OnTaskPersonPropertyChange: the source writes `user.id` into the user objects the caller passed; the model builds new user values, so it does not capture that aliasing.
- The status and priority lookups in the panel's state set-up are not modelled; they are `find` calls over option lists.
- NewTaskPanel, TaskModal, EditableLabel and the other form widgets are not modelled; they hold no logic beyond what is modelled in ViewEditTaskPanel.
- Concurrent state updates from overlapping async handlers are not modelled. Each handler runs to completion against the state it read.

## Findings

| source | as written | input that shows it | evidently intended | confidence | as-written member | corrected member |
|---|---|---|---|---|---|---|
| src/webparts/spfxTasksGantt/components/GanttChartSvg/GanttChartSvg.tsx:241-242 | the title is cut with `slice(0, charWidth - 3)`; when fewer than three characters fit, the end is negative and `slice` counts back from the end of the title | title "Design" on a bar 1.5 characters wide gives "Desig...", longer than the title | a label of at most the room available: only "..." when fewer than three characters fit | not executed | Timeline.FitLabelAsWrittenGrowsLabel | Timeline.FitLabel |
| src/webparts/spfxTasksGantt/components/SpfxTasksGantt.tsx:148 | personas match when their ids or their emails are strictly equal; assignees read from the list have neither, so `undefined === undefined` matches any two | replacing assignee Alice by Bob, both without id, and Alice without email, is reported as no change and not saved | match on a defined id, a defined email, or the same account | not executed | SpfxTasksGantt.SwapOfAssigneesUndetected | SpfxTasksGantt.SamePersona |
| src/webparts/spfxTasksGantt/components/GanttPeoplePicker/GanttPeoplePicker.tsx:81 | a suggestion counts as already chosen when `item.id === persona.id`; a chosen list assignee has no id, and neither has a search result without one, so they match | with Alice chosen, both without ids, a search for Bob suggests nothing | hide only suggestions for an account already chosen | not executed | GanttPeoplePicker.SuggestionHiddenAsWritten | GanttPeoplePicker.ListContainsPersona |

The layouts and handlers follow the code as written: the chart labels use
`Timeline.FitLabelAsWritten`, the assignee handler compares with
`SpfxTasksGantt.SamePersonaAsWritten`, and the suggestion filter uses
`GanttPeoplePicker.RemoveDuplicatesAsWritten`. Each corrected member sits
beside its as-written member, and its intended property is proved.
