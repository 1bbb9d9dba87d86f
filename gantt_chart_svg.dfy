/** The SVG chart component (GanttChartSvg): the sorted copy of the tasks
    kept in its state, the day count, the layout pass of
    `_createGanttChart`/`_createChartSvg`, the element records and the
    connector polylines between each task and its predecessors. */
module GanttChartSvg {
  import opened Wrappers
  import opened Js
  import opened Calendar
  import opened Models
  import opened Timeline

  /** The component's element height, svg height and font size. */
  const ElementHeight: real := 20.0
  const SvgHeight: real := 400.0
  const FontSize: real := 12.0

  /** Pixels per day: the scale range and the requested width are
      `days * 20`. */
  const DayWidth: int := 20

  /** Defaults of `_createGanttChart` for a missing (or zero) width, height
      and font size. */
  const DefaultWidth: real := 1200.0
  const DefaultHeight: real := 420.0
  const DefaultFontSize: real := 12.0

  // ---------------------------------------------------------------------
  // Element records

  /** One bar of the chart (IChartElement): the rectangle plus what the
      connectors and the drawing read from the task. */
  datatype ChartElement = ChartElement(
    rect: Rect,
    predecessors: seq<Predecessor>,
    completionPercentage: real,
    image: string)

  /** The picture shown on a bar: the first assignee's image, or none. */
  function ImageOf(t: Task): (url: string)
    ensures t.assignedTo == [] ==> url == ""
    ensures t.assignedTo != [] ==> url == t.assignedTo[0].imageUrl
  {
    if |t.assignedTo| > 0 then t.assignedTo[0].imageUrl else ""
  }

  /** `_createElementData`: one element per task, in task order, the i-th
      drawn in row i. */
  function CreateElementData(tasks: seq<Task>, elementHeight: real, scale: TimeScale, fontSize: real): (elements: seq<ChartElement>)
    requires scale.Valid() && fontSize != 0.0
    ensures |elements| == |tasks|
    ensures forall i :: 0 <= i < |tasks| ==>
      && elements[i].rect.id == tasks[i].id
      && elements[i].rect.tooltip == tasks[i].title
      && elements[i].rect.y == i as real * elementHeight * RowPitch
      && elements[i].rect.height == elementHeight
      && elements[i].rect.width == elements[i].rect.xEnd - elements[i].rect.x
      && elements[i].predecessors == tasks[i].predecessors
      && elements[i].completionPercentage == tasks[i].percentComplete
      && elements[i].image == ImageOf(tasks[i])
  {
    seq(|tasks|, i requires 0 <= i < |tasks| =>
      ChartElement(TaskRect(tasks[i], i, scale, elementHeight, fontSize), tasks[i].predecessors,
                   tasks[i].percentComplete, ImageOf(tasks[i])))
  }

  /** Every element carries the rectangle of its task: its label is the
      title or a prefix of it followed by the ellipsis, centred on the bar
      and 0.45 font sizes below its middle. */
  lemma ElementDataRects(tasks: seq<Task>, elementHeight: real, scale: TimeScale, fontSize: real, i: int)
    requires scale.Valid() && fontSize != 0.0 && 0 <= i < |tasks|
    ensures var r := CreateElementData(tasks, elementHeight, scale, fontSize)[i].rect;
      && r.x == scale.Apply(tasks[i].startDate)
      && r.xEnd == scale.Apply(tasks[i].dueDate)
      && (|tasks[i].title| as real <= r.width / fontSize ==> r.caption == tasks[i].title)
      && (|tasks[i].title| as real > r.width / fontSize ==>
            |r.caption| >= 3 && r.caption[..|r.caption| - 3] <= tasks[i].title && r.caption[|r.caption| - 3..] == Ellipsis)
      && r.labelX + |r.caption| as real * fontSize * 0.5 / 2.0 == r.x + r.width / 2.0
      && r.labelY == r.y + r.height / 2.0 + 0.45 * fontSize
  {
    TaskRectProperties(tasks[i], i, scale, elementHeight, fontSize);
  }

  // ---------------------------------------------------------------------
  // Cache by id

  function IdsOf(elements: seq<ChartElement>): set<int> {
    set k | 0 <= k < |elements| :: elements[k].rect.id
  }

  /** `e` is the last element of `elements` whose id is `id`. */
  predicate LastWithId(elements: seq<ChartElement>, id: int, e: ChartElement) {
    exists k :: 0 <= k < |elements| && elements[k] == e && e.rect.id == id &&
      forall j :: k < j < |elements| ==> elements[j].rect.id != id
  }

  lemma IdsOfSnoc(elements: seq<ChartElement>)
    requires elements != []
    ensures IdsOf(elements) == IdsOf(elements[..|elements| - 1]) + {elements[|elements| - 1].rect.id}
  {
    var n := |elements| - 1;
    forall id | id in IdsOf(elements) ensures id in IdsOf(elements[..n]) + {elements[n].rect.id} {
      var k :| 0 <= k < |elements| && elements[k].rect.id == id;
      if k < n { assert elements[..n][k].rect.id == id; }
    }
  }

  /** `_createDataCacheById`: the elements keyed by id. */
  function CreateDataCacheById(elements: seq<ChartElement>): (cache: map<int, ChartElement>)
    ensures cache.Keys == IdsOf(elements)
    ensures forall id :: id in cache ==> cache[id].rect.id == id
    decreases |elements|
  {
    if elements == [] then map[]
    else
      var n := |elements| - 1;
      IdsOfSnoc(elements);
      CreateDataCacheById(elements[..n])[elements[n].rect.id := elements[n]]
  }

  lemma LastWithIdExtend(prefix: seq<ChartElement>, x: ChartElement, id: int, e: ChartElement)
    requires LastWithId(prefix, id, e) && x.rect.id != id
    ensures LastWithId(prefix + [x], id, e)
  {
    var k :| 0 <= k < |prefix| && prefix[k] == e && e.rect.id == id &&
      forall j :: k < j < |prefix| ==> prefix[j].rect.id != id;
    assert (prefix + [x])[k] == e;
  }

  /** When two elements share an id, the cache keeps the later one. */
  lemma {:induction false} CacheKeepsLast(elements: seq<ChartElement>, id: int)
    requires id in IdsOf(elements)
    ensures LastWithId(elements, id, CreateDataCacheById(elements)[id])
    decreases |elements|
  {
    var n := |elements| - 1;
    var prefix := elements[..n];
    assert elements == prefix + [elements[n]];
    if elements[n].rect.id == id {
      assert elements[n] == CreateDataCacheById(elements)[id];
    } else {
      IdsOfSnoc(elements);
      CacheKeepsLast(prefix, id);
      LastWithIdExtend(prefix, elements[n], id, CreateDataCacheById(prefix)[id]);
    }
  }

  /** `storedConnections` as first built: a zero counter per element id. */
  function InitialConnections(elements: seq<ChartElement>): (counters: map<int, nat>)
    ensures counters.Keys == IdsOf(elements)
    ensures forall id :: id in counters ==> counters[id] == 0
  {
    map id | id in IdsOf(elements) :: 0
  }

  // ---------------------------------------------------------------------
  // Edges and connection counters

  /** A dependency: the element that depends, and the id it depends on. */
  datatype Edge = Edge(child: ChartElement, parentId: int)

  /** The edges of one element, in predecessor order. */
  function EdgesFrom(child: ChartElement, preds: seq<Predecessor>): (es: seq<Edge>)
    ensures |es| == |preds|
    ensures forall j :: 0 <= j < |preds| ==> es[j] == Edge(child, preds[j].id)
    decreases |preds|
  {
    if preds == [] then []
    else EdgesFrom(child, preds[..|preds| - 1]) + [Edge(child, preds[|preds| - 1].id)]
  }

  /** All edges, ordered by element and then by predecessor: the order of
      the flattened nested map. */
  function Edges(elements: seq<ChartElement>): seq<Edge>
    decreases |elements|
  {
    if elements == [] then []
    else
      var n := |elements| - 1;
      Edges(elements[..n]) + EdgesFrom(elements[n], elements[n].predecessors)
  }

  /** The number of predecessor entries over all elements. */
  function PredecessorCount(elements: seq<ChartElement>): nat
    decreases |elements|
  {
    if elements == [] then 0
    else PredecessorCount(elements[..|elements| - 1]) + |elements[|elements| - 1].predecessors|
  }

  /** How much an edge raises the counter of `id`: one for each of its
      ends that is `id`. */
  function Touches(e: Edge, id: int): nat {
    (if e.parentId == id then 1 else 0) + (if e.child.rect.id == id then 1 else 0)
  }

  /** The counter of `id` after the edges `es` have been drawn. */
  function Load(es: seq<Edge>, id: int): nat
    decreases |es|
  {
    if es == [] then 0 else Load(es[..|es| - 1], id) + Touches(es[|es| - 1], id)
  }

  /** The number of times `id` occurs among `preds`. */
  function Occurrences(preds: seq<Predecessor>, id: int): nat
    decreases |preds|
  {
    if preds == [] then 0
    else Occurrences(preds[..|preds| - 1], id) + (if preds[|preds| - 1].id == id then 1 else 0)
  }

  /** How many edges touch `id` (an edge from `id` to itself twice): its own
      predecessor entries plus the entries that name it. */
  function Degree(elements: seq<ChartElement>, id: int): nat
    decreases |elements|
  {
    if elements == [] then 0
    else
      var e := elements[|elements| - 1];
      Degree(elements[..|elements| - 1], id)
        + (if e.rect.id == id then |e.predecessors| else 0)
        + Occurrences(e.predecessors, id)
  }

  // ---------------------------------------------------------------------
  // Connectors

  datatype Point = Point(x: real, y: real)

  /** A connector (ILine) without its random colour. */
  datatype Polyline = Polyline(points: seq<Point>)

  /** The six points from the child's left end to the parent's right end.
      The route leaves the child at mid-height, steps left by the child's
      counter times a quarter element height, rises to a quarter element
      height above the child's row, runs to the parent's right end plus the
      parent's counter times a quarter height, and goes down (or up) to the
      parent's mid-height. Every segment is horizontal or vertical. */
  function ConnectorPoints(child: Rect, parent: Rect, parentCount: nat, childCount: nat, h: real): (points: seq<Point>)
    ensures |points| == 6
    ensures points[0] == Point(child.x, child.y + h / 2.0)
    ensures points[5] == Point(parent.xEnd, parent.y + h / 2.0)
    ensures forall k :: 0 <= k < 5 ==> points[k].x == points[k + 1].x || points[k].y == points[k + 1].y
    ensures points[1].x == child.x - childCount as real * (h / 4.0)
    ensures points[3].x == parent.xEnd + parentCount as real * (h / 4.0)
    ensures points[2].y == points[3].y == child.y - h / 4.0
  {
    var deltaParent := parentCount as real * (h / 4.0);
    var deltaChild := childCount as real * (h / 4.0);
    [Point(child.x, child.y + h / 2.0),
     Point(child.x - deltaChild, child.y + h / 2.0),
     Point(child.x - deltaChild, child.y - h * 0.25),
     Point(parent.xEnd + deltaParent, child.y - h * 0.25),
     Point(parent.xEnd + deltaParent, parent.y + h / 2.0),
     Point(parent.xEnd, parent.y + h / 2.0)]
  }

  /** Every edge names an element that exists. */
  predicate Resolved(es: seq<Edge>, cache: map<int, ChartElement>) {
    forall k :: 0 <= k < |es| ==> es[k].parentId in cache
  }

  /** The connectors of `es`, each drawn with the counters as they stand
      right after its own two increments. */
  function Connectors(es: seq<Edge>, cache: map<int, ChartElement>, h: real): (lines: seq<Polyline>)
    requires Resolved(es, cache)
    ensures |lines| == |es|
    decreases |es|
  {
    if es == [] then []
    else
      var n := |es| - 1;
      var e := es[n];
      assert forall k :: 0 <= k < n ==> es[..n][k] == es[k];
      Connectors(es[..n], cache, h)
        + [Polyline(ConnectorPoints(e.child.rect, cache[e.parentId].rect, Load(es, e.parentId), Load(es, e.child.rect.id), h))]
  }

  /** Drawing one more edge: its two counters rise by the edge's ends and
      its connector is appended. */
  lemma ConnectorsSnoc(es: seq<Edge>, e: Edge, cache: map<int, ChartElement>, h: real)
    requires Resolved(es, cache) && e.parentId in cache
    ensures Resolved(es + [e], cache)
    ensures forall id :: Load(es + [e], id) == Load(es, id) + Touches(e, id)
    ensures Connectors(es + [e], cache, h) == Connectors(es, cache, h)
      + [Polyline(ConnectorPoints(e.child.rect, cache[e.parentId].rect,
           Load(es, e.parentId) + Touches(e, e.parentId), Load(es, e.child.rect.id) + Touches(e, e.child.rect.id), h))]
  {
    assert (es + [e])[..|es|] == es;
  }

  /** The two increments of one edge keep every counter equal to the load
      of the edges drawn so far. */
  lemma CountersStep(stored: map<int, nat>, done: seq<Edge>, e: Edge)
    requires e.parentId in stored && e.child.rect.id in stored
    requires forall id :: id in stored ==> stored[id] == Load(done, id)
    requires forall id :: Load(done + [e], id) == Load(done, id) + Touches(e, id)
    ensures var raised := stored[e.parentId := stored[e.parentId] + 1];
      var next := raised[e.child.rect.id := raised[e.child.rect.id] + 1];
      && next.Keys == stored.Keys
      && forall id :: id in next ==> next[id] == Load(done + [e], id)
  {
  }

  /** What `_createPolylineData` returns: the connectors of all edges, or
      the TypeError raised when a predecessor id has no element. */
  function RouteConnectors(elements: seq<ChartElement>, h: real): Result<seq<Polyline>, LayoutError> {
    var es := Edges(elements);
    var cache := CreateDataCacheById(elements);
    if Resolved(es, cache) then Success(Connectors(es, cache, h)) else Failure(UndefinedPredecessor)
  }

  /** The connectors and counters once the edges `done` are drawn. */
  predicate Drawn(done: seq<Edge>, cache: map<int, ChartElement>, stored: map<int, nat>, lines: seq<Polyline>, h: real) {
    && Resolved(done, cache)
    && lines == Connectors(done, cache, h)
    && stored.Keys == cache.Keys
    && forall id :: id in stored ==> stored[id] == Load(done, id)
  }

  /** The counters after one edge's two increments. */
  function Raise(stored: map<int, nat>, e: Edge): map<int, nat>
    requires e.parentId in stored && e.child.rect.id in stored
  {
    var raised := stored[e.parentId := stored[e.parentId] + 1];
    raised[e.child.rect.id := raised[e.child.rect.id] + 1]
  }

  /** Drawing one edge keeps the counters and connectors in step. */
  lemma DrawnStep(done: seq<Edge>, e: Edge, cache: map<int, ChartElement>, stored: map<int, nat>, lines: seq<Polyline>, h: real)
    requires Drawn(done, cache, stored, lines, h)
    requires e.parentId in cache && e.child.rect.id in cache
    ensures Drawn(done + [e], cache, Raise(stored, e),
      lines + [Polyline(ConnectorPoints(e.child.rect, cache[e.parentId].rect,
        Raise(stored, e)[e.parentId], Raise(stored, e)[e.child.rect.id], h))], h)
  {
    ConnectorsSnoc(done, e, cache, h);
    CountersStep(stored, done, e);
  }

  /** `_createPolylineData`: for each element and each of its predecessors,
      look the parent up, raise both counters, and emit the route. */
  method CreatePolylineData(elements: seq<ChartElement>, elementHeight: real) returns (r: Result<seq<Polyline>, LayoutError>)
    ensures r == RouteConnectors(elements, elementHeight)
  {
    var cache := CreateDataCacheById(elements);
    var stored := InitialConnections(elements);
    var lines: seq<Polyline> := [];
    ghost var done: seq<Edge> := [];
    for i := 0 to |elements|
      invariant done == Edges(elements[..i])
      invariant Drawn(done, cache, stored, lines, elementHeight)
    {
      var d := elements[i];
      assert d.rect.id in IdsOf(elements);
      assert elements[..i + 1][..i] == elements[..i];
      var missing;
      missing, stored, lines := ConnectPredecessors(d, cache, stored, lines, done, elementHeight);
      if missing {
        var j :| 0 <= j < |d.predecessors| && d.predecessors[j].id !in cache;
        EdgeIsListed(elements, i, j);
        return Failure(UndefinedPredecessor);
      }
      done := done + EdgesFrom(d, d.predecessors);
    }
    assert elements[..|elements|] == elements;
    return Success(lines);
  }

  /** The inner `map` of `_createPolylineData`: the connectors of one
      element's predecessors, in order, or `missing` at the first
      predecessor id without an element. */
  method ConnectPredecessors(d: ChartElement, cache: map<int, ChartElement>, stored: map<int, nat>,
                             lines: seq<Polyline>, ghost done: seq<Edge>, elementHeight: real)
    returns (missing: bool, stored': map<int, nat>, lines': seq<Polyline>)
    requires d.rect.id in cache
    requires forall id :: id in cache ==> cache[id].rect.id == id
    requires Drawn(done, cache, stored, lines, elementHeight)
    ensures missing <==> exists j :: 0 <= j < |d.predecessors| && d.predecessors[j].id !in cache
    ensures !missing ==> Drawn(done + EdgesFrom(d, d.predecessors), cache, stored', lines', elementHeight)
  {
    stored', lines' := stored, lines;
    ghost var drawn := done;
    for j := 0 to |d.predecessors|
      invariant drawn == done + EdgesFrom(d, d.predecessors[..j])
      invariant FirstResolved(d.predecessors, j, cache)
      invariant Drawn(drawn, cache, stored', lines', elementHeight)
    {
      var pid := d.predecessors[j].id;
      if pid !in cache {
        return true, stored', lines';
      }
      var parent := cache[pid];
      FirstResolvedStep(d.predecessors, j, cache);
      ConnectStep(done, d, j, drawn, cache, stored', lines', elementHeight);
      stored' := stored'[parent.rect.id := stored'[parent.rect.id] + 1];
      stored' := stored'[d.rect.id := stored'[d.rect.id] + 1];
      var points := ConnectorPoints(d.rect, parent.rect, stored'[parent.rect.id], stored'[d.rect.id], elementHeight);
      lines' := lines' + [Polyline(points)];
      drawn := drawn + [Edge(d, pid)];
    }
    assert d.predecessors[..|d.predecessors|] == d.predecessors;
    return false, stored', lines';
  }

  /** The first `j` predecessors all have an element. */
  predicate FirstResolved(preds: seq<Predecessor>, j: int, cache: map<int, ChartElement>) {
    forall k :: 0 <= k < j && k < |preds| ==> preds[k].id in cache
  }

  lemma FirstResolvedStep(preds: seq<Predecessor>, j: nat, cache: map<int, ChartElement>)
    requires j < |preds| && FirstResolved(preds, j, cache) && preds[j].id in cache
    ensures FirstResolved(preds, j + 1, cache)
  {
  }

  /** One step of the inner loop: the two increments and the connector of
      `d`'s `j`-th predecessor keep the drawn state in step. */
  lemma ConnectStep(done: seq<Edge>, d: ChartElement, j: nat, drawn: seq<Edge>, cache: map<int, ChartElement>,
                    stored: map<int, nat>, lines: seq<Polyline>, h: real)
    requires j < |d.predecessors| && d.predecessors[j].id in cache && d.rect.id in cache
    requires cache[d.predecessors[j].id].rect.id == d.predecessors[j].id
    requires drawn == done + EdgesFrom(d, d.predecessors[..j])
    requires Drawn(drawn, cache, stored, lines, h)
    ensures var pid := cache[d.predecessors[j].id].rect.id;
      && pid in stored && d.rect.id in stored
      && var raised := stored[pid := stored[pid] + 1];
      && d.rect.id in raised
      && var raised' := raised[d.rect.id := raised[d.rect.id] + 1];
      && drawn + [Edge(d, d.predecessors[j].id)] == done + EdgesFrom(d, d.predecessors[..j + 1])
      && Drawn(drawn + [Edge(d, d.predecessors[j].id)], cache, raised',
               lines + [Polyline(ConnectorPoints(d.rect, cache[d.predecessors[j].id].rect, raised'[pid], raised'[d.rect.id], h))], h)
  {
    var e := Edge(d, d.predecessors[j].id);
    DrawnStep(drawn, e, cache, stored, lines, h);
    EdgesFromPrefixStep(done, d, j);
    var raised := stored[e.parentId := stored[e.parentId] + 1];
    assert Raise(stored, e) == raised[d.rect.id := raised[d.rect.id] + 1];
  }

  /** The edges of one more predecessor of `d`. */
  lemma EdgesFromPrefixStep(done: seq<Edge>, d: ChartElement, j: nat)
    requires j < |d.predecessors|
    ensures done + EdgesFrom(d, d.predecessors[..j + 1]) == (done + EdgesFrom(d, d.predecessors[..j])) + [Edge(d, d.predecessors[j].id)]
  {
    assert d.predecessors[..j + 1][..j] == d.predecessors[..j];
  }

  // ---------------------------------------------------------------------
  // Properties of the connectors

  lemma {:induction false} EdgesAppend(a: seq<ChartElement>, b: seq<ChartElement>)
    ensures Edges(a + b) == Edges(a) + Edges(b)
    decreases |b|
  {
    if b == [] {
      assert a + b == a;
    } else {
      var n := |b| - 1;
      var ab := a + b;
      assert ab[..|a| + n] == a + b[..n];
      assert ab[|a| + n] == b[n];
      EdgesAppend(a, b[..n]);
      var last := EdgesFrom(b[n], b[n].predecessors);
      calc {
        Edges(ab);
        Edges(a + b[..n]) + last;
        (Edges(a) + Edges(b[..n])) + last;
        Edges(a) + (Edges(b[..n]) + last);
      }
    }
  }

  lemma {:induction false} EdgeCount(elements: seq<ChartElement>)
    ensures |Edges(elements)| == PredecessorCount(elements)
    decreases |elements|
  {
    if elements != [] {
      EdgeCount(elements[..|elements| - 1]);
    }
  }

  /** The edge of element `i`'s `j`-th predecessor sits at position
      (predecessor entries of the earlier elements) + j: edges run element
      by element, and within an element in predecessor order. */
  lemma EdgeIsListed(elements: seq<ChartElement>, i: int, j: int)
    requires 0 <= i < |elements| && 0 <= j < |elements[i].predecessors|
    ensures PredecessorCount(elements[..i]) + j < |Edges(elements)|
    ensures Edges(elements)[PredecessorCount(elements[..i]) + j] == Edge(elements[i], elements[i].predecessors[j].id)
  {
    assert elements == elements[..i + 1] + elements[i + 1..];
    EdgesAppend(elements[..i + 1], elements[i + 1..]);
    assert elements[..i + 1][..i] == elements[..i];
    EdgeCount(elements[..i]);
  }

  lemma {:induction false} LoadAppend(a: seq<Edge>, b: seq<Edge>, id: int)
    ensures Load(a + b, id) == Load(a, id) + Load(b, id)
    decreases |b|
  {
    if b == [] {
      assert a + b == a;
    } else {
      var n := |b| - 1;
      assert (a + b)[..|a| + n] == a + b[..n];
      LoadAppend(a, b[..n], id);
    }
  }

  lemma {:induction false} LoadEdgesFrom(child: ChartElement, preds: seq<Predecessor>, id: int)
    ensures Load(EdgesFrom(child, preds), id) == (if child.rect.id == id then |preds| else 0) + Occurrences(preds, id)
    decreases |preds|
  {
    if preds != [] {
      var n := |preds| - 1;
      var es := EdgesFrom(child, preds);
      assert es[..n] == EdgesFrom(child, preds[..n]);
      LoadEdgesFrom(child, preds[..n], id);
    }
  }

  /** Counter accounting: once every edge is drawn, the counter of an
      element is the number of edge ends at it (its own predecessor
      entries plus the entries naming it). */
  lemma {:induction false} FinalCountersAreDegrees(elements: seq<ChartElement>, id: int)
    ensures Load(Edges(elements), id) == Degree(elements, id)
    decreases |elements|
  {
    if elements != [] {
      var n := |elements| - 1;
      FinalCountersAreDegrees(elements[..n], id);
      LoadAppend(Edges(elements[..n]), EdgesFrom(elements[n], elements[n].predecessors), id);
      LoadEdgesFrom(elements[n], elements[n].predecessors, id);
    }
  }

  lemma {:induction false} ConnectorsPrefix(es: seq<Edge>, cache: map<int, ChartElement>, h: real, m: int)
    requires Resolved(es, cache) && 0 <= m <= |es|
    ensures Resolved(es[..m], cache)
    ensures Connectors(es[..m], cache, h) == Connectors(es, cache, h)[..m]
    decreases |es|
  {
    assert forall k :: 0 <= k < m ==> es[..m][k] == es[k];
    if m < |es| {
      var n := |es| - 1;
      assert es[..n][..m] == es[..m];
      assert forall k :: 0 <= k < n ==> es[..n][k] == es[k];
      ConnectorsPrefix(es[..n], cache, h, m);
    } else {
      assert es[..m] == es;
    }
  }

  /** One connector per predecessor entry. */
  lemma ConnectorCount(elements: seq<ChartElement>, h: real)
    requires RouteConnectors(elements, h).Success?
    ensures |RouteConnectors(elements, h).value| == PredecessorCount(elements)
  {
    EdgeCount(elements);
  }

  /** The k-th connector is the route of the k-th edge from the child's
      left end to the parent's right end, drawn with the counters as they
      stand after that edge, both at least one. */
  lemma ConnectorOfEdge(elements: seq<ChartElement>, h: real, k: int)
    requires RouteConnectors(elements, h).Success?
    requires 0 <= k < |Edges(elements)|
    ensures var es := Edges(elements);
      var parent := CreateDataCacheById(elements)[es[k].parentId];
      && parent.rect.id == es[k].parentId
      && Load(es[..k + 1], es[k].parentId) >= 1
      && Load(es[..k + 1], es[k].child.rect.id) >= 1
      && RouteConnectors(elements, h).value[k]
         == Polyline(ConnectorPoints(es[k].child.rect, parent.rect,
              Load(es[..k + 1], es[k].parentId), Load(es[..k + 1], es[k].child.rect.id), h))
  {
    var es := Edges(elements);
    var cache := CreateDataCacheById(elements);
    ConnectorsPrefix(es, cache, h, k + 1);
    var front := es[..k + 1];
    assert front[..k] == es[..k];
    assert front[k] == es[k];
    assert Connectors(front, cache, h)[k] == Connectors(es, cache, h)[k];
  }

  /** A dangling predecessor id makes the whole pass fail. */
  lemma DanglingPredecessorFails(elements: seq<ChartElement>, h: real, i: int, j: int)
    requires 0 <= i < |elements| && 0 <= j < |elements[i].predecessors|
    requires elements[i].predecessors[j].id !in IdsOf(elements)
    ensures RouteConnectors(elements, h) == Failure(UndefinedPredecessor)
  {
    EdgeIsListed(elements, i, j);
  }

  /** With every predecessor id present, the pass succeeds. */
  lemma {:induction false} ResolvedWhenIdsPresent(elements: seq<ChartElement>, h: real)
    requires forall i, j :: 0 <= i < |elements| && 0 <= j < |elements[i].predecessors| ==>
      elements[i].predecessors[j].id in IdsOf(elements)
    ensures RouteConnectors(elements, h).Success?
  {
    var es := Edges(elements);
    forall k | 0 <= k < |es| ensures es[k].parentId in CreateDataCacheById(elements) {
      var i, j := EdgeOrigin(elements, k);
    }
  }

  /** Every edge comes from a predecessor entry. */
  lemma {:induction false} EdgeOrigin(elements: seq<ChartElement>, k: int) returns (i: int, j: int)
    requires 0 <= k < |Edges(elements)|
    ensures 0 <= i < |elements| && 0 <= j < |elements[i].predecessors|
    ensures Edges(elements)[k] == Edge(elements[i], elements[i].predecessors[j].id)
    decreases |elements|
  {
    var n := |elements| - 1;
    var front := Edges(elements[..n]);
    if k < |front| {
      i, j := EdgeOrigin(elements[..n], k);
    } else {
      i, j := n, k - |front|;
    }
  }

  lemma ScenarioEdges(a: ChartElement, b: ChartElement, c: ChartElement)
    requires a.predecessors == [] && b.predecessors == [Predecessor(1, "A")]
    requires c.predecessors == [Predecessor(1, "A"), Predecessor(2, "B")]
    ensures Edges([a, b, c]) == [Edge(b, 1), Edge(c, 1), Edge(c, 2)]
  {
    assert [a, b, c][..2] == [a, b] && [a, b][..1] == [a] && [a][..0] == [];
    assert Edges([a]) == [];
    assert Edges([a, b]) == [Edge(b, 1)];
  }

  lemma ScenarioCache(a: ChartElement, b: ChartElement, c: ChartElement)
    requires a.rect.id == 1 && b.rect.id == 2 && c.rect.id == 3
    ensures CreateDataCacheById([a, b, c]) == map[1 := a, 2 := b, 3 := c]
  {
    assert [a, b, c][..2] == [a, b] && [a, b][..1] == [a] && [a][..0] == [];
    assert CreateDataCacheById([a]) == map[1 := a];
    assert CreateDataCacheById([a, b]) == map[1 := a, 2 := b];
  }

  /** Three tasks where B depends on A and C on both: the second connector
      into A stands twice as far out as the first, and C's second connector
      twice as far as its first. */
  lemma SharedParentOffsets(ra: Rect, rb: Rect, rc: Rect, h: real)
    requires ra.id == 1 && rb.id == 2 && rc.id == 3
    ensures
      var a := ChartElement(ra, [], 0.0, "");
      var b := ChartElement(rb, [Predecessor(1, "A")], 0.0, "");
      var c := ChartElement(rc, [Predecessor(1, "A"), Predecessor(2, "B")], 0.0, "");
      RouteConnectors([a, b, c], h) == Success([
        Polyline(ConnectorPoints(rb, ra, 1, 1, h)),
        Polyline(ConnectorPoints(rc, ra, 2, 1, h)),
        Polyline(ConnectorPoints(rc, rb, 2, 2, h))])
  {
    var a := ChartElement(ra, [], 0.0, "");
    var b := ChartElement(rb, [Predecessor(1, "A")], 0.0, "");
    var c := ChartElement(rc, [Predecessor(1, "A"), Predecessor(2, "B")], 0.0, "");
    ScenarioEdges(a, b, c);
    ScenarioCache(a, b, c);
    ScenarioConnectors(a, b, c, h);
  }

  lemma ScenarioLoads(b: ChartElement, c: ChartElement)
    requires b.rect.id == 2 && c.rect.id == 3
    ensures Load([Edge(b, 1)], 1) == 1 && Load([Edge(b, 1)], 2) == 1
    ensures Load([Edge(b, 1), Edge(c, 1)], 1) == 2 && Load([Edge(b, 1), Edge(c, 1)], 3) == 1
    ensures Load([Edge(b, 1), Edge(c, 1), Edge(c, 2)], 2) == 2 && Load([Edge(b, 1), Edge(c, 1), Edge(c, 2)], 3) == 2
  {
    var eb, ec1, ec2 := Edge(b, 1), Edge(c, 1), Edge(c, 2);
    assert [eb, ec1, ec2][..2] == [eb, ec1] && [eb, ec1][..1] == [eb] && [eb][..0] == [];
    assert Load([eb], 3) == 0;
  }

  lemma ScenarioConnectors(a: ChartElement, b: ChartElement, c: ChartElement, h: real)
    requires a.rect.id == 1 && b.rect.id == 2 && c.rect.id == 3
    ensures var cache := map[1 := a, 2 := b, 3 := c];
      var es := [Edge(b, 1), Edge(c, 1), Edge(c, 2)];
      && Resolved(es, cache)
      && Connectors(es, cache, h) == [
        Polyline(ConnectorPoints(b.rect, a.rect, 1, 1, h)),
        Polyline(ConnectorPoints(c.rect, a.rect, 2, 1, h)),
        Polyline(ConnectorPoints(c.rect, b.rect, 2, 2, h))]
  {
    var eb, ec1, ec2 := Edge(b, 1), Edge(c, 1), Edge(c, 2);
    var cache := map[1 := a, 2 := b, 3 := c];
    var es := [eb, ec1, ec2];
    ScenarioLoads(b, c);
    assert es[..2] == [eb, ec1] && [eb, ec1][..1] == [eb] && [eb][..0] == [];
    assert Resolved(es, cache);
    assert Connectors([eb], cache, h) == [Polyline(ConnectorPoints(b.rect, a.rect, 1, 1, h))];
    assert Connectors([eb, ec1], cache, h) == Connectors([eb], cache, h) + [Polyline(ConnectorPoints(c.rect, a.rect, 2, 1, h))];
  }

  // ---------------------------------------------------------------------
  // Layout pass

  /** The options `_createGanttChart` receives (its `svgOptions`). */
  datatype SvgOptions = SvgOptions(width: Option<real>, height: Option<real>, fontSize: Option<real>, margin: Margin)

  /** What `_createGanttChart` hands to `_createChartSvg` (ISvgProps). */
  datatype SvgProps = SvgProps(
    size: ChartSize,
    elementHeight: real,
    fontSize: real,
    window: Window,
    margin: Margin,
    showRelations: bool)

  /** Everything a layout pass computes before drawing. */
  datatype SvgLayout = SvgLayout(
    props: SvgProps,
    days: nat,
    scale: TimeScale,
    elements: seq<ChartElement>,
    polylines: seq<Polyline>)

  /** The layout of `tasks`: the padded window of all task dates, a scale
      of 20 pixels per day over it, one element per task and, when
      relations are shown, the connectors. An empty list fails when the
      window is padded; a dangling predecessor fails when connectors are
      built. */
  predicate IsLayoutOf(r: Result<SvgLayout, LayoutError>, tasks: seq<Task>, elementHeight: real, showRelations: bool, options: SvgOptions) {
    if tasks == [] then r == Failure(NoTasks)
    else
      var window := PadWindow(DateWindow(tasks));
      var days := DaysBetween(window);
      var scale := TimeScale(window.minStart, window.maxEnd, (days * DayWidth) as real);
      var fontSize := NumberOr(options.fontSize, DefaultFontSize);
      var elements := CreateElementData(tasks, elementHeight, scale, fontSize);
      var routes := RouteConnectors(elements, elementHeight);
      if showRelations && routes.Failure? then r == Failure(UndefinedPredecessor)
      else
        var size := SizeChart(options.width, options.height, DefaultWidth, DefaultHeight, options.margin, |tasks|, elementHeight);
        r == Success(SvgLayout(
          SvgProps(size, elementHeight, fontSize, window, options.margin, showRelations),
          days, scale, elements, if showRelations then routes.value else []))
  }

  /** `_createGanttChart` followed by the computing part of
      `_createChartSvg`. */
  method CreateGanttChart(tasks: seq<Task>, elementHeight: real, showRelations: bool, options: SvgOptions)
    returns (r: Result<SvgLayout, LayoutError>)
    ensures IsLayoutOf(r, tasks, elementHeight, showRelations, options)
  {
    var size := SizeChart(options.width, options.height, DefaultWidth, DefaultHeight, options.margin, |tasks|, elementHeight);
    var fontSize := NumberOr(options.fontSize, DefaultFontSize);
    var bounds := FindDateBoundaries(tasks);
    if bounds.None? {
      return Failure(NoTasks);
    }
    var window := PadBounds(bounds.value);
    var props := SvgProps(size, elementHeight, fontSize, window, options.margin, showRelations);
    var days := DaysBetween(window);
    var scale := TimeScale(window.minStart, window.maxEnd, (days * DayWidth) as real);
    var elements := CreateElementData(tasks, elementHeight, scale, fontSize);
    var polylines: seq<Polyline> := [];
    if showRelations {
      var routes := CreatePolylineData(elements, elementHeight);
      if routes.Failure? {
        return Failure(UndefinedPredecessor);
      }
      polylines := routes.value;
    }
    return Success(SvgLayout(props, days, scale, elements, polylines));
  }

  /** Every bar of a layout lies on the axis, at least two days in from
      either end, and the axis is at least four days long. */
  lemma BarsInsideAxis(r: Result<SvgLayout, LayoutError>, tasks: seq<Task>, elementHeight: real, showRelations: bool, options: SvgOptions, i: int)
    requires IsLayoutOf(r, tasks, elementHeight, showRelations, options) && r.Success?
    requires 0 <= i < |tasks|
    ensures r.value.days >= 4
    ensures |r.value.elements| == |tasks|
    ensures 0.0 < r.value.elements[i].rect.x < r.value.scale.width
    ensures 0.0 < r.value.elements[i].rect.xEnd < r.value.scale.width
  {
    var w := DateWindow(tasks);
    PaddedWindow(w);
    var l := r.value;
    var lo := AddDays(w.minStart, -PaddingDays);
    var hi := AddDays(w.maxEnd, PaddingDays);
    ScaleMapsWindow(l.scale, lo, tasks[i].startDate);
    ScaleMapsWindow(l.scale, tasks[i].startDate, hi);
    ScaleMapsWindow(l.scale, lo, tasks[i].dueDate);
    ScaleMapsWindow(l.scale, tasks[i].dueDate, hi);
  }

  // ---------------------------------------------------------------------
  // Component

  /** `numberOfDays` of the state: the whole days between the earliest and
      the latest task date; with no tasks both moments are "now", 0 days
      apart. */
  function DayCount(tasks: seq<Task>): nat {
    if tasks == [] then 0 else DaysBetween(DateWindow(tasks))
  }

  /** The day count does not depend on the order of the tasks. */
  lemma DayCountOfPermutation(a: seq<Task>, b: seq<Task>)
    requires multiset(a) == multiset(b)
    ensures DayCount(a) == DayCount(b)
  {
    if a != [] {
      assert a[0] in multiset(b);
      TightWindowOfPermutation(DateWindow(a), a, b);
      TightWindowUnique(DateWindow(a), DateWindow(b), b);
    }
  }

  /** The options `componentDidMount` passes: a width of 20 pixels per day,
      the fixed height and font size, and margins of two element heights. */
  function MountOptions(numberOfDays: nat): SvgOptions {
    SvgOptions(Some((numberOfDays * DayWidth) as real), Some(SvgHeight), Some(FontSize),
               Margin(ElementHeight * 2.0, ElementHeight * 2.0))
  }

  /** The component's state: the sorted copy of its tasks (null until
      mounted) and the day count. */
  class GanttChartSvgComponent {
    var tasks: Option<seq<Task>>
    var numberOfDays: nat

    constructor()
      ensures tasks == None && numberOfDays == 0
    {
      tasks := None;
      numberOfDays := 0;
    }

    /** `componentDidMount`: store a sorted copy and the day count, then
        lay the chart out from the stored copy. */
    method ComponentDidMount(props: seq<Task>) returns (chart: Result<SvgLayout, LayoutError>)
      modifies this
      ensures tasks.Some? && SortedByStart(tasks.value) && multiset(tasks.value) == multiset(props)
      ensures numberOfDays == DayCount(props) == DayCount(tasks.value)
      ensures IsLayoutOf(chart, tasks.value, ElementHeight, true, MountOptions(numberOfDays))
    {
      var sorted := SortedCopy(props);
      var bounds := FindDateBoundaries(props);
      tasks := Some(sorted);
      numberOfDays := if bounds.None? then 0 else DaysBetween(bounds.value);
      DayCountOfPermutation(props, sorted);
      chart := CreateGanttChart(sorted, ElementHeight, true, MountOptions(numberOfDays));
    }

    /** `componentDidUpdate`: the same work when the tasks differ from the
        previous ones, nothing otherwise. */
    method ComponentDidUpdate(props: seq<Task>, prevProps: seq<Task>) returns (chart: Option<Result<SvgLayout, LayoutError>>)
      modifies this
      ensures props == prevProps ==> chart.None? && tasks == old(tasks) && numberOfDays == old(numberOfDays)
      ensures props != prevProps ==>
        && tasks.Some? && SortedByStart(tasks.value) && multiset(tasks.value) == multiset(props)
        && numberOfDays == DayCount(props)
        && chart.Some? && IsLayoutOf(chart.value, tasks.value, ElementHeight, true, MountOptions(numberOfDays))
    {
      if props == prevProps {
        return None;
      }
      var drawn := ComponentDidMount(props);
      chart := Some(drawn);
    }
  }
}
