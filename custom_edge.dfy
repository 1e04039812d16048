/** The custom edge: an orthogonal "staircase" route between two handles, the
    label placed on it, the arrowhead chosen for it and the delete action. */
module CustomEdge {
  import opened Wrappers
  import opened Flow

  const OFFSET: real := 30.0
  const MINIMUM_STEPS: int := 4
  const MAXIMUM_STEPS: int := 8
  /** Extra stand-off at the source end. */
  const EDGE_START_OFFSET: real := 3.0
  /** Extra stand-off at the target end. */
  const EDGE_END_OFFSET: real := 3.0

  function Max(a: int, b: int): int { if a >= b then a else b }
  function Min(a: int, b: int): int { if a <= b then a else b }
  function Abs(v: real): real { if v < 0.0 then -v else v }

  /** Number of evenly spaced interior points: the literal 3 clamped into
      [MINIMUM_STEPS, MAXIMUM_STEPS]. */
  const STEPS: int := Max(MINIMUM_STEPS, Min(MAXIMUM_STEPS, 3))

  datatype Point = Point(x: real, y: real)

  // ---------------------------------------------------------------------
  // Stand-off from a node side
  // ---------------------------------------------------------------------

  /** The outward unit normal of a side name (screen y grows downwards);
      the zero vector for any other string. */
  function OutwardNormal(pos: string): Point {
    if pos == "top" then Point(0.0, -1.0)
    else if pos == "bottom" then Point(0.0, 1.0)
    else if pos == "left" then Point(-1.0, 0.0)
    else if pos == "right" then Point(1.0, 0.0)
    else Point(0.0, 0.0)
  }

  predicate IsSideName(pos: string) {
    pos == "top" || pos == "bottom" || pos == "left" || pos == "right"
  }

  /** `getOffsetCoords`: moves (x, y) by `distance` along the outward normal
      of the side; an unknown side leaves the point where it is. */
  function GetOffsetCoords(x: real, y: real, pos: string, distance: real): (r: Point)
    ensures r == Point(x + distance * OutwardNormal(pos).x, y + distance * OutwardNormal(pos).y)
  {
    if pos == "top" then Point(x, y - distance)
    else if pos == "bottom" then Point(x, y + distance)
    else if pos == "left" then Point(x - distance, y)
    else if pos == "right" then Point(x + distance, y)
    else Point(x, y)
  }

  /** The offset changes at most one coordinate, by exactly |distance| on a
      known side, and not at all on an unknown one. */
  lemma OffsetMovesOneCoordinate(x: real, y: real, pos: string, distance: real)
    ensures var r := GetOffsetCoords(x, y, pos, distance);
      && (r.x == x || r.y == y)
      && (IsSideName(pos) ==> Abs(r.x - x) + Abs(r.y - y) == Abs(distance))
      && (!IsSideName(pos) ==> r == Point(x, y))
  {
  }

  /** Offsetting by `distance` and then by `-distance` returns to the start. */
  lemma OffsetRoundTrip(x: real, y: real, pos: string, distance: real)
    ensures var r := GetOffsetCoords(x, y, pos, distance);
      GetOffsetCoords(r.x, r.y, pos, -distance) == Point(x, y)
  {
  }

  // ---------------------------------------------------------------------
  // The route
  // ---------------------------------------------------------------------

  /** Primary axis: horizontal only when the horizontal distance is strictly
      larger; ties go vertical. */
  predicate HorizontalFirst(start: Point, end: Point) {
    Abs(end.x - start.x) > Abs(end.y - start.y)
  }

  /** The i-th interior point (1 <= i <= STEPS): i equal steps from `start`
      along the primary axis, still on `start`'s cross-axis coordinate. */
  function StepPoint(start: Point, end: Point, i: int): Point {
    if HorizontalFirst(start, end) then
      Point(start.x + i as real * ((end.x - start.x) / (STEPS + 1) as real), start.y)
    else
      Point(start.x, start.y + i as real * ((end.y - start.y) / (STEPS + 1) as real))
  }

  /** The turn onto `end`'s cross-axis coordinate. */
  function Corner(start: Point, end: Point): Point {
    if HorizontalFirst(start, end) then Point(end.x, start.y) else Point(start.x, end.y)
  }

  /** Reference route: the source anchor, the source stand-off point, the
      interior steps, the corner, the target stand-off point and the target
      anchor. */
  function RoutePoints(source: Point, sourcePosition: string, target: Point, targetPosition: string): seq<Point> {
    var start := GetOffsetCoords(source.x, source.y, sourcePosition, OFFSET + EDGE_START_OFFSET);
    var end := GetOffsetCoords(target.x, target.y, targetPosition, OFFSET + EDGE_END_OFFSET);
    [source, start] + seq(STEPS, k => StepPoint(start, end, k + 1)) + [Corner(start, end), end, target]
  }

  /** Builds the point list as the component does: seed with the anchor and
      its stand-off, push the interior steps in a loop, then the corner, the
      target stand-off and the target anchor. */
  method BuildPoints(sourceX: real, sourceY: real, targetX: real, targetY: real,
                     sourcePosition: string, targetPosition: string)
    returns (points: seq<Point>)
    ensures points == RoutePoints(Point(sourceX, sourceY), sourcePosition, Point(targetX, targetY), targetPosition)
  {
    var start := GetOffsetCoords(sourceX, sourceY, sourcePosition, OFFSET + EDGE_START_OFFSET);
    var end := GetOffsetCoords(targetX, targetY, targetPosition, OFFSET + EDGE_END_OFFSET);
    points := [Point(sourceX, sourceY), start];
    var horizontalFirst := Abs(end.x - start.x) > Abs(end.y - start.y);
    var steps := Max(MINIMUM_STEPS, Min(MAXIMUM_STEPS, 3));
    var segments: seq<Point> := [];
    if horizontalFirst {
      var stepX := (end.x - start.x) / (steps + 1) as real;
      var i := 1;
      while i <= steps
        invariant 1 <= i <= steps + 1
        invariant |segments| == i - 1
        invariant forall k :: 0 <= k < i - 1 ==> segments[k] == StepPoint(start, end, k + 1)
      {
        segments := segments + [Point(start.x + i as real * stepX, start.y)];
        i := i + 1;
      }
      segments := segments + [Point(end.x, start.y), Point(end.x, end.y)];
    } else {
      var stepY := (end.y - start.y) / (steps + 1) as real;
      var i := 1;
      while i <= steps
        invariant 1 <= i <= steps + 1
        invariant |segments| == i - 1
        invariant forall k :: 0 <= k < i - 1 ==> segments[k] == StepPoint(start, end, k + 1)
      {
        segments := segments + [Point(start.x, start.y + i as real * stepY)];
        i := i + 1;
      }
      segments := segments + [Point(start.x, end.y), Point(end.x, end.y)];
    }
    points := points + segments + [Point(targetX, targetY)];
  }

  /** The route always has nine points, starts at the source anchor, ends at
      the target anchor, and leaves and enters the nodes 33 units out along
      the sides' normals. */
  lemma RouteShape(source: Point, sourcePosition: string, target: Point, targetPosition: string)
    ensures var pts := RoutePoints(source, sourcePosition, target, targetPosition);
      && |pts| == 9
      && pts[0] == source
      && pts[1] == GetOffsetCoords(source.x, source.y, sourcePosition, 33.0)
      && pts[7] == GetOffsetCoords(target.x, target.y, targetPosition, 33.0)
      && pts[8] == target
  {
  }

  /** Every segment of the route is horizontal or vertical. */
  lemma RouteIsOrthogonal(source: Point, sourcePosition: string, target: Point, targetPosition: string)
    ensures var pts := RoutePoints(source, sourcePosition, target, targetPosition);
      forall k :: 0 <= k < |pts| - 1 ==> pts[k].x == pts[k + 1].x || pts[k].y == pts[k + 1].y
  {
    var pts := RoutePoints(source, sourcePosition, target, targetPosition);
    var start, end := pts[1], pts[7];
    OffsetMovesOneCoordinate(source.x, source.y, sourcePosition, OFFSET + EDGE_START_OFFSET);
    OffsetMovesOneCoordinate(target.x, target.y, targetPosition, OFFSET + EDGE_END_OFFSET);
    forall k | 0 <= k < |pts| - 1 ensures pts[k].x == pts[k + 1].x || pts[k].y == pts[k + 1].y {
      if 1 <= k <= 5 {
        assert pts[k + 1] == (if k < 5 then StepPoint(start, end, k) else Corner(start, end));
        assert pts[k] == (if k == 1 then start else StepPoint(start, end, k - 1));
      }
    }
  }

  /** From the source stand-off point to the corner the route advances along
      the primary axis in five equal steps of a fifth of the distance, holding
      the cross-axis coordinate at the start value; ties go vertical. */
  lemma RouteEvenSpacing(source: Point, sourcePosition: string, target: Point, targetPosition: string)
    ensures var pts := RoutePoints(source, sourcePosition, target, targetPosition);
      var start, end := pts[1], pts[7];
      && (Abs(end.x - start.x) > Abs(end.y - start.y) ==>
            pts[6] == Point(end.x, start.y)
            && forall k :: 1 <= k < 6 ==> pts[k].y == start.y && pts[k + 1].x - pts[k].x == (end.x - start.x) / 5.0)
      && (Abs(end.x - start.x) <= Abs(end.y - start.y) ==>
            pts[6] == Point(start.x, end.y)
            && forall k :: 1 <= k < 6 ==> pts[k].x == start.x && pts[k + 1].y - pts[k].y == (end.y - start.y) / 5.0)
  {
    var pts := RoutePoints(source, sourcePosition, target, targetPosition);
    var start, end := pts[1], pts[7];
    RouteAt(source, sourcePosition, target, targetPosition);
    assert (STEPS + 1) as real == 5.0;
    var dx, dy := (end.x - start.x) / 5.0, (end.y - start.y) / 5.0;
    if HorizontalFirst(start, end) {
      assert pts[2].x == start.x + 1.0 * dx && pts[3].x == start.x + 2.0 * dx;
      assert pts[4].x == start.x + 3.0 * dx && pts[5].x == start.x + 4.0 * dx;
      assert forall k :: 1 <= k < 6 ==> StepGap(pts, start, end, k);
    } else {
      assert pts[2].y == start.y + 1.0 * dy && pts[3].y == start.y + 2.0 * dy;
      assert pts[4].y == start.y + 3.0 * dy && pts[5].y == start.y + 4.0 * dy;
      assert forall k :: 1 <= k < 6 ==> StepGap(pts, start, end, k);
    }
  }

  /** The route point by point. */
  lemma RouteAt(source: Point, sourcePosition: string, target: Point, targetPosition: string)
    ensures var pts := RoutePoints(source, sourcePosition, target, targetPosition);
      var start, end := pts[1], pts[7];
      && |pts| == 9
      && (forall k :: 2 <= k < 6 ==> pts[k] == StepPoint(start, end, k - 1))
      && pts[6] == Corner(start, end)
  {
  }

  /** Gap k of the staircase: one fifth of the primary-axis distance, with
      the cross-axis coordinate held at the start value. */
  ghost predicate StepGap(pts: seq<Point>, start: Point, end: Point, k: int)
    requires 1 <= k < 6 <= |pts| - 1
  {
    if HorizontalFirst(start, end) then
      pts[k].y == start.y && pts[k + 1].x - pts[k].x == (end.x - start.x) / 5.0
    else
      pts[k].x == start.x && pts[k + 1].y - pts[k].y == (end.y - start.y) / 5.0
  }

  // ---------------------------------------------------------------------
  // Path commands, label and arrowhead
  // ---------------------------------------------------------------------

  /** One SVG path command per point. */
  datatype PathCommand = MoveTo(p: Point) | LineTo(p: Point)

  /** `pathData`: a move-to for the first point and a line-to for each of the
      others, in order. */
  function PathData(points: seq<Point>): (cmds: seq<PathCommand>)
    ensures |cmds| == |points|
    ensures forall i :: 0 <= i < |cmds| ==> cmds[i].p == points[i] && (cmds[i].MoveTo? <==> i == 0)
  {
    seq(|points|, i requires 0 <= i < |points| => if i == 0 then MoveTo(points[i]) else LineTo(points[i]))
  }

  /** The label sits on the point at index floor(n / 2) of the list. */
  function LabelPoint(points: seq<Point>): (p: Point)
    requires points != []
    ensures p in points
    ensures |points| == 9 ==> p == points[4]
  {
    points[|points| / 2]
  }

  /** On every route the label sits on the third interior step. */
  lemma LabelOnThirdStep(source: Point, sourcePosition: string, target: Point, targetPosition: string)
    ensures var pts := RoutePoints(source, sourcePosition, target, targetPosition);
      var start, end := pts[1], pts[7];
      && LabelPoint(pts) == pts[4]
      && (Abs(end.x - start.x) > Abs(end.y - start.y) ==>
            LabelPoint(pts) == Point(start.x + 3.0 * ((end.x - start.x) / 5.0), start.y))
      && (Abs(end.x - start.x) <= Abs(end.y - start.y) ==>
            LabelPoint(pts) == Point(start.x, start.y + 3.0 * ((end.y - start.y) / 5.0)))
  {
    var pts := RoutePoints(source, sourcePosition, target, targetPosition);
    assert pts[4] == StepPoint(pts[1], pts[7], 3);
  }

  /** The label as a string; an empty or absent label falls back to "Edge". */
  function EdgeName(labelProp: Option<string>): (name: string)
    ensures name != ""
    ensures Truthy(labelProp) ==> name == labelProp.value
    ensures !Truthy(labelProp) ==> name == "Edge"
  {
    if Truthy(labelProp) then labelProp.value else "Edge"
  }

  /** `displayText`: the full name when hovered or at most 8 characters long,
      otherwise its first 8 characters and an ellipsis. */
  function DisplayText(labelProp: Option<string>, isHovered: bool): (r: string)
    ensures var name := EdgeName(labelProp);
      && (isHovered || |name| <= 8 ==> r == name)
      && (!isHovered && |name| > 8 ==> |r| == 11 && r[..8] == name[..8] && r[8..] == "...")
  {
    var name := EdgeName(labelProp);
    if isHovered || |name| <= 8 then name else name[..8] + "..."
  }

  /** A shown label is never longer than 11 characters unless hovered, and it
      always starts as the name does. */
  lemma DisplayTextBounds(labelProp: Option<string>, isHovered: bool)
    ensures var r := DisplayText(labelProp, isHovered);
      var name := EdgeName(labelProp);
      && r != ""
      && (!isHovered ==> |r| <= 11)
      && (|r| <= 8 ==> r == name)
      && r[..Min(|r|, 8)] == name[..Min(|r|, 8)]
  {
  }

  /** A 15-character label is cut to 8 characters plus an ellipsis unless
      hovered. */
  lemma DisplayTextExample()
    ensures DisplayText(Some("PaymentCallback"), false) == "PaymentC..."
    ensures DisplayText(Some("PaymentCallback"), true) == "PaymentCallback"
    ensures DisplayText(Some(""), false) == "Edge"
    ensures DisplayText(None, true) == "Edge"
  {
  }

  /** `directionMap`: each side to the opposite one. */
  const DIRECTION_MAP: map<string, string> :=
    map["top" := "bottom", "bottom" := "top", "left" := "right", "right" := "left"]

  /** `markerId`: "arrowhead-" followed by the side opposite the target handle
      when the handle is exactly a side name, otherwise "arrowhead-right";
      the id always names one of the four defined markers. */
  function MarkerId(targetHandle: Option<string>): (r: string)
    ensures |r| > 10 && r[..10] == "arrowhead-" && IsSideName(r[10..])
    ensures targetHandle.Some? && IsSideName(targetHandle.value) ==> r[10..] == DIRECTION_MAP[targetHandle.value]
    ensures !(targetHandle.Some? && IsSideName(targetHandle.value)) ==> r == "arrowhead-right"
  {
    var direction := if targetHandle.Some? && targetHandle.value in DIRECTION_MAP then DIRECTION_MAP[targetHandle.value] else "right";
    assert IsSideName(direction);
    var r := "arrowhead-" + direction;
    assert r[10..] == direction;
    r
  }

  /** The direction map is an involution without fixed points. */
  lemma DirectionMapIsOpposite(side: string)
    requires side in DIRECTION_MAP
    ensures DIRECTION_MAP[side] in DIRECTION_MAP
    ensures DIRECTION_MAP[DIRECTION_MAP[side]] == side
    ensures DIRECTION_MAP[side] != side
  {
  }

  // ---------------------------------------------------------------------
  // Deleting an edge
  // ---------------------------------------------------------------------

  /** The delete action's filter: the edges whose id differs from `id`, in
      their original order. */
  function WithoutEdge(edges: seq<Edge>, id: string): (r: seq<Edge>)
    ensures |r| <= |edges|
  {
    if edges == [] then []
    else (if edges[0].id != id then [edges[0]] else []) + WithoutEdge(edges[1..], id)
  }

  /** Exactly the edges with a different id survive the delete. */
  lemma {:induction false} WithoutEdgeMembers(edges: seq<Edge>, id: string)
    ensures forall e :: e in WithoutEdge(edges, id) <==> e in edges && e.id != id
  {
    if edges != [] {
      WithoutEdgeMembers(edges[1..], id);
      assert forall e :: e in edges <==> e == edges[0] || e in edges[1..];
    }
  }

  /** Filtering distributes over concatenation, so relative order is kept. */
  lemma {:induction false} WithoutEdgeAppend(a: seq<Edge>, b: seq<Edge>, id: string)
    ensures WithoutEdge(a + b, id) == WithoutEdge(a, id) + WithoutEdge(b, id)
  {
    if a != [] {
      var head := if a[0].id != id then [a[0]] else [];
      calc {
        WithoutEdge(a + b, id);
        { assert (a + b)[0] == a[0]; assert (a + b)[1..] == a[1..] + b; }
        head + WithoutEdge(a[1..] + b, id);
        { WithoutEdgeAppend(a[1..], b, id); }
        head + (WithoutEdge(a[1..], id) + WithoutEdge(b, id));
        (head + WithoutEdge(a[1..], id)) + WithoutEdge(b, id);
        WithoutEdge(a, id) + WithoutEdge(b, id);
      }
    } else {
      assert a + b == b;
    }
  }

  /** When no edge carries the id, nothing is removed; in particular deleting
      twice is deleting once. */
  lemma {:induction false} WithoutEdgeAbsent(edges: seq<Edge>, id: string)
    requires forall e :: e in edges ==> e.id != id
    ensures WithoutEdge(edges, id) == edges
  {
    if edges != [] {
      assert edges[0] in edges;
      assert forall e :: e in edges[1..] ==> e in edges;
      WithoutEdgeAbsent(edges[1..], id);
    }
  }

  lemma WithoutEdgeIdempotent(edges: seq<Edge>, id: string)
    ensures WithoutEdge(WithoutEdge(edges, id), id) == WithoutEdge(edges, id)
  {
    WithoutEdgeMembers(edges, id);
    WithoutEdgeAbsent(WithoutEdge(edges, id), id);
  }

  // ---------------------------------------------------------------------
  // The component
  // ---------------------------------------------------------------------

  /** The props the edge component reads; `label` and `targetHandle` may be
      absent. */
  datatype EdgeProps = EdgeProps(
    id: string,
    sourceX: real, sourceY: real, targetX: real, targetY: real,
    sourcePosition: string, targetPosition: string,
    labelProp: Option<string>, targetHandle: Option<string>)

  /** What the component renders: the path, where the label goes, the label
      text and the arrowhead marker. */
  datatype EdgeView = EdgeView(path: seq<PathCommand>, labelPoint: Point, displayText: string, markerId: string)

  /** Renders one edge. The path has nine commands, begins with a move to the
      source anchor and ends with a line to the target anchor. */
  method RenderEdge(props: EdgeProps, isHovered: bool) returns (view: EdgeView)
    ensures |view.path| == 9
    ensures view.path == PathData(RoutePoints(Point(props.sourceX, props.sourceY), props.sourcePosition,
                                              Point(props.targetX, props.targetY), props.targetPosition))
    ensures view.path[0] == MoveTo(Point(props.sourceX, props.sourceY))
    ensures view.path[8] == LineTo(Point(props.targetX, props.targetY))
    ensures forall k :: 1 <= k < 9 ==> view.path[k].LineTo?
    ensures view.labelPoint == view.path[4].p
    ensures view.path[1].p == GetOffsetCoords(props.sourceX, props.sourceY, props.sourcePosition, 33.0)
    ensures view.displayText == DisplayText(props.labelProp, isHovered)
    ensures view.markerId == MarkerId(props.targetHandle)
  {
    var points := BuildPoints(props.sourceX, props.sourceY, props.targetX, props.targetY,
                              props.sourcePosition, props.targetPosition);
    RouteShape(Point(props.sourceX, props.sourceY), props.sourcePosition,
               Point(props.targetX, props.targetY), props.targetPosition);
    var pathData := PathData(points);
    view := EdgeView(pathData, LabelPoint(points), DisplayText(props.labelProp, isHovered), MarkerId(props.targetHandle));
  }
}
