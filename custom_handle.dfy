/** The connection handles of a node: for each side, a row of alternating
    target and source hotspots, their rectangles and ids, and the rule that
    decides which of them accept pointer interaction. */
module CustomHandle {
  import opened Wrappers
  import opened Flow
  import opened Text
  import opened ConnectionContext
  import CustomEdge

  datatype Role = Target | Source {
    function Name(): string {
      match this
      case Target => "target"
      case Source => "source"
    }
  }

  /** A rectangle in the node's local coordinates. */
  datatype Rect = Rect(top: real, left: real, width: real, height: real)

  /** One rendered handle: its id, role, side, rectangle and the style and
      connectability flags it is rendered with. */
  datatype HandleRecord = HandleRecord(
    id: string,
    role: Role,
    position: Position,
    rect: Rect,
    zIndex: int,
    pointerEvents: string,
    opacity: real,
    isConnectable: bool)

  /** The layout parameters of one side. */
  datatype LayoutConfig = LayoutConfig(
    count: nat,
    position: Position,
    isVertical: bool,
    totalHeight: real,
    totalWidth: real,
    verticalHandleSize: real,
    horizontalHandleSize: real,
    verticalHeight: real)

  /** The parameters with the defaults for the optional sizes. */
  function WithDefaults(count: nat, position: Position, isVertical: bool, totalHeight: real, totalWidth: real): (c: LayoutConfig)
    ensures c.count == count && c.position == position && c.isVertical == isVertical
    ensures c.totalHeight == totalHeight && c.totalWidth == totalWidth
    ensures c.verticalHandleSize == 10.0 && c.horizontalHandleSize == 10.0 && c.verticalHeight == 50.0
  {
    LayoutConfig(count, position, isVertical, totalHeight, totalWidth, 10.0, 10.0, 50.0)
  }

  // ---------------------------------------------------------------------
  // Visibility
  // ---------------------------------------------------------------------

  /** Which roles a node currently offers. */
  datatype Visibility = Visibility(showSource: bool, showTarget: bool)

  /** A node offers targets exactly while a gesture from another node is in
      progress, and sources in every other state; hover never matters and a
      null source node is nobody's. */
  function ResolveVisibility(sourceNodeId: Option<string>, isConnectionStarted: bool, nodeId: string, isHovered: bool): (v: Visibility)
    ensures v.showTarget <==> isConnectionStarted && sourceNodeId != Some(nodeId)
    ensures v.showSource <==> !v.showTarget
    ensures sourceNodeId == None ==> (v.showTarget <==> isConnectionStarted)
  {
    var isSourceNode := sourceNodeId == Some(nodeId);
    var effectiveHover := if isConnectionStarted then false else isHovered;
    Visibility(!isConnectionStarted || isSourceNode || effectiveHover, isConnectionStarted && !isSourceNode)
  }

  /** During a gesture from node A: A offers only sources, every other node
      only targets; at rest every node offers only sources. */
  lemma VisibilityDuringGesture(a: string, b: string, hoverA: bool, hoverB: bool)
    requires a != b
    ensures ResolveVisibility(Some(a), true, a, hoverA) == Visibility(true, false)
    ensures ResolveVisibility(Some(a), true, b, hoverB) == Visibility(false, true)
    ensures ResolveVisibility(None, false, b, hoverB) == Visibility(true, false)
  {
  }

  function ShouldShow(role: Role, v: Visibility): bool {
    if role == Target then v.showTarget else v.showSource
  }

  // ---------------------------------------------------------------------
  // Layout of one side
  // ---------------------------------------------------------------------

  /** Number of handles on a side: 2 * count - 1 on the left and right sides,
      2 * count on the top and bottom ones (none when count is 0). */
  function TotalHandles(count: nat, isVertical: bool): nat {
    if isVertical then (if count == 0 then 0 else 2 * count - 1) else 2 * count
  }

  /** Even positions are targets, odd ones sources. */
  function RoleAt(i: nat): Role {
    if i % 2 == 0 then Target else Source
  }

  /** `${position}-${role}-${floor(i / 2) + 1}-${i % 2}`. */
  function HandleId(position: Position, i: nat): string {
    position.Name() + "-" + RoleAt(i).Name() + "-" + NatToString(i / 2 + 1) + "-" + NatToString(i % 2)
  }

  /** The rectangle of handle i. */
  function HandleRect(c: LayoutConfig, i: nat): Rect
    requires c.count >= 1
  {
    if c.isVertical then
      var segmentHeight := c.verticalHeight / (c.count * 2) as real;
      var startTop := (c.totalHeight - c.verticalHeight) / 2.0;
      Rect(startTop + segmentHeight * i as real - 5.0,
           if c.position == Left then -1.0 else c.totalWidth - c.verticalHandleSize - 10.0,
           c.verticalHandleSize + 10.0,
           c.verticalHandleSize * 2.0)
    else
      var segmentWidth := c.totalWidth / (c.count * 2) as real;
      Rect(if c.position == Top then -3.0 else c.totalHeight / 2.0 - 5.0,
           ClampLeft(segmentWidth * i as real, c.totalWidth, c.horizontalHandleSize),
           c.horizontalHandleSize * 2.0,
           c.horizontalHandleSize + 10.0)
  }

  /** The left edge of a top/bottom handle: its segment start, pulled back to
      `totalWidth - size` once the start comes within 10 of the right edge. */
  function ClampLeft(x: real, totalWidth: real, size: real): real {
    if x + 10.0 > totalWidth then totalWidth - size else x
  }

  /** For sizes up to 10 the clamp keeps a non-negative start inside
      [0, totalWidth - size] and preserves order. */
  lemma ClampLeftBounds(x: real, y: real, totalWidth: real, size: real)
    requires 0.0 <= x <= y && 0.0 <= size <= 10.0 && totalWidth >= size
    ensures 0.0 <= ClampLeft(x, totalWidth, size) <= totalWidth - size
    ensures ClampLeft(x, totalWidth, size) <= ClampLeft(y, totalWidth, size)
  {
  }

  /** Handle i of a side, rendered with the node's current visibility. */
  function HandleAt(c: LayoutConfig, v: Visibility, i: nat): HandleRecord
    requires c.count >= 1
  {
    var role := RoleAt(i);
    var show := ShouldShow(role, v);
    HandleRecord(HandleId(c.position, i), role, c.position, HandleRect(c, i),
                 100, if show then "auto" else "none", 0.0, show)
  }

  /** Reference layout of one side. */
  function Layout(c: LayoutConfig, v: Visibility): seq<HandleRecord> {
    if c.count == 0 then []
    else seq(TotalHandles(c.count, c.isVertical), i requires 0 <= i => HandleAt(c, v, i))
  }

  /** `generateHandlers`: reads the connection context (failing without a
      provider), resolves the node's visibility and emits the side's
      handles. */
  method GenerateHandlers(context: ConnectionStore?, c: LayoutConfig, nodeId: string, isHovered: bool)
    returns (r: Result<seq<HandleRecord>, string>)
    ensures context == null ==> r == Failure(MISSING_PROVIDER_MESSAGE)
    ensures context != null ==>
      r == Success(Layout(c, ResolveVisibility(context.sourceNodeId, context.isConnectionStarted, nodeId, isHovered)))
  {
    var ctx := UseConnectionContext(context);
    if ctx.Failure? {
      return Failure(ctx.error);
    }
    var store := ctx.value;
    var isSourceNode := store.sourceNodeId == Some(nodeId);
    var effectiveHover := if store.isConnectionStarted then false else isHovered;
    var shouldShowSourceHandles := !store.isConnectionStarted || isSourceNode || effectiveHover;
    var shouldShowTargetHandles := store.isConnectionStarted && !isSourceNode;
    var handlers := PushHandles(c, Visibility(shouldShowSourceHandles, shouldShowTargetHandles));
    return Success(handlers);
  }

  /** The layout loop of `generateHandlers`: one handle per position, its
      rectangle computed from the side's orientation, pushed in order. */
  method PushHandles(c: LayoutConfig, v: Visibility) returns (handlers: seq<HandleRecord>)
    ensures handlers == Layout(c, v)
  {
    var totalHandles: int := if c.isVertical then c.count * 2 - 1 else c.count * 2;
    handlers := [];
    var i := 0;
    while i < totalHandles
      invariant 0 <= i <= TotalHandles(c.count, c.isVertical)
      invariant |handlers| == i
      invariant forall k :: 0 <= k < i ==> c.count >= 1 && handlers[k] == HandleAt(c, v, k)
    {
      var handle := NewHandle(c, v, i);
      handlers := handlers + [handle];
      i := i + 1;
    }
    assert handlers == Layout(c, v) by {
      assert |Layout(c, v)| == i;
      forall k | 0 <= k < i ensures Layout(c, v)[k] == HandleAt(c, v, k) {
      }
    }
  }

  /** One iteration of the layout loop: the rectangle of handle i from the
      side's orientation, its role from the parity of i, its id, and the
      interaction flags of that role. */
  method NewHandle(c: LayoutConfig, v: Visibility, i: nat) returns (handle: HandleRecord)
    requires c.count >= 1
    ensures handle == HandleAt(c, v, i)
  {
    var index := i / 2 + 1;
    var isTarget := i % 2 == 0;
    var top, left, width, height;
    if c.isVertical {
      var segmentHeight := c.verticalHeight / (c.count * 2) as real;
      var startTop := (c.totalHeight - c.verticalHeight) / 2.0;
      top := startTop + segmentHeight * i as real - 5.0;
      left := if c.position == Left then -1.0 else c.totalWidth - c.verticalHandleSize - 10.0;
      width := c.verticalHandleSize + 10.0;
      height := c.verticalHandleSize * 2.0;
    } else {
      var segmentWidth := c.totalWidth / (c.count * 2) as real;
      top := if c.position == Top then -3.0 else c.totalHeight / 2.0 - 5.0;
      left := if segmentWidth * i as real + 10.0 > c.totalWidth then c.totalWidth - c.horizontalHandleSize else segmentWidth * i as real;
      width := c.horizontalHandleSize * 2.0;
      height := c.horizontalHandleSize + 10.0;
    }
    assert Rect(top, left, width, height) == HandleRect(c, i);
    var shouldShow := if isTarget then v.showTarget else v.showSource;
    var role := if isTarget then Target else Source;
    var id := c.position.Name() + "-" + role.Name() + "-" + NatToString(index) + "-" + NatToString(i % 2);
    handle := HandleRecord(id, role, c.position, Rect(top, left, width, height),
                           100, if shouldShow then "auto" else "none", 0.0, shouldShow);
  }

  // ---------------------------------------------------------------------
  // Properties of one side
  // ---------------------------------------------------------------------

  /** Number of handles with the given role. */
  function CountRole(hs: seq<HandleRecord>, role: Role): nat {
    if hs == [] then 0
    else CountRole(hs[..|hs| - 1], role) + (if hs[|hs| - 1].role == role then 1 else 0)
  }

  /** In a sequence whose roles alternate target, source, target, ... the
      first n entries hold ceil(n / 2) targets and floor(n / 2) sources. */
  lemma {:induction false} CountRolePrefix(hs: seq<HandleRecord>, n: nat)
    requires n <= |hs|
    requires forall k :: 0 <= k < |hs| ==> hs[k].role == RoleAt(k)
    ensures CountRole(hs[..n], Target) == (n + 1) / 2
    ensures CountRole(hs[..n], Source) == n / 2
  {
    if n > 0 {
      assert hs[..n][..n - 1] == hs[..n - 1];
      assert hs[..n][n - 1] == hs[n - 1];
      CountRolePrefix(hs, n - 1);
    }
  }

  /** A side has 2 * count - 1 (left/right) or 2 * count (top/bottom)
      handles: count targets, and count - 1 or count sources. */
  lemma LayoutRoleCounts(c: LayoutConfig, v: Visibility)
    requires c.count >= 1
    ensures |Layout(c, v)| == if c.isVertical then 2 * c.count - 1 else 2 * c.count
    ensures CountRole(Layout(c, v), Target) == c.count
    ensures CountRole(Layout(c, v), Source) == if c.isVertical then c.count - 1 else c.count
  {
    var hs := Layout(c, v);
    forall k | 0 <= k < |hs| ensures hs[k].role == RoleAt(k) {
      LayoutAt(c, v, k);
    }
    assert hs[..|hs|] == hs;
    CountRolePrefix(hs, |hs|);
  }

  /** The ids of a side are pairwise distinct. */
  lemma HandleIdInjective(p: Position, i: nat, j: nat)
    requires HandleId(p, i) == HandleId(p, j)
    ensures i == j
  {
    var pre := p.Name() + "-";
    var ni, nj := NatToString(i / 2 + 1), NatToString(j / 2 + 1);
    var ti, tj := "-" + NatToString(i % 2), "-" + NatToString(j % 2);
    var ai, aj := pre + RoleAt(i).Name() + "-", pre + RoleAt(j).Name() + "-";
    assert HandleId(p, i) == ai + ni + ti;
    assert HandleId(p, j) == aj + nj + tj;
    assert HandleId(p, i)[|pre|] == RoleAt(i).Name()[0];
    assert HandleId(p, j)[|pre|] == RoleAt(j).Name()[0];
    assert RoleAt(i) == RoleAt(j);
    assert i % 2 == j % 2;
    assert ai == aj && ti == tj;
    assert |ni| == |nj|;
    assert ni == HandleId(p, i)[|ai|..|ai| + |ni|];
    assert nj == HandleId(p, j)[|aj|..|aj| + |nj|];
    NatToStringInjective(i / 2 + 1, j / 2 + 1);
  }

  /** The last character of an id is '0' exactly for targets, and the first
      one is the first letter of the side. */
  lemma HandleIdEnds(p: Position, i: nat)
    ensures var id := HandleId(p, i);
      && |id| >= 10
      && id[0] == p.Name()[0]
      && (id[|id| - 1] == '0' <==> RoleAt(i) == Target)
  {
    var id := HandleId(p, i);
    assert NatToString(i % 2) == [DigitChar(i % 2)];
    assert id[|id| - 1] == DigitChar(i % 2);
  }

  /** Every handle is styled alike (invisible, z-order 100) and accepts
      pointer events exactly when it is connectable, which it is exactly when
      its role is the one the node offers; so all connectable handles of a
      side share one role. */
  lemma LayoutInteraction(c: LayoutConfig, v: Visibility)
    requires v.showSource != v.showTarget
    ensures forall h :: h in Layout(c, v) ==>
      && h.opacity == 0.0 && h.zIndex == 100
      && (h.pointerEvents == "auto" <==> h.isConnectable)
      && (h.isConnectable <==> (h.role == Target <==> v.showTarget))
    ensures forall h, g :: h in Layout(c, v) && g in Layout(c, v) && h.isConnectable && g.isConnectable ==> h.role == g.role
  {
  }

  /** Handle i of the layout carries the id, role and rectangle of position i. */
  lemma LayoutAt(c: LayoutConfig, v: Visibility, i: nat)
    requires i < |Layout(c, v)|
    ensures c.count >= 1 && i < TotalHandles(c.count, c.isVertical)
    ensures Layout(c, v)[i].rect == HandleRect(c, i)
    ensures Layout(c, v)[i].id == HandleId(c.position, i) && Layout(c, v)[i].role == RoleAt(i)
  {
  }

  /** On the left and right sides consecutive handles are one segment height
      apart, every top lies in a band of height `verticalHeight` centred on
      the node (shifted up by 5), and on the right side each rectangle ends
      flush with the node's right edge. */
  lemma VerticalSideGeometry(c: LayoutConfig, i: nat)
    requires c.isVertical && c.count >= 1 && c.verticalHeight >= 0.0 && i < TotalHandles(c.count, c.isVertical)
    ensures var segmentHeight := c.verticalHeight / (2 * c.count) as real;
      && (i + 1 < TotalHandles(c.count, c.isVertical) ==> HandleRect(c, i + 1).top - HandleRect(c, i).top == segmentHeight)
      && (c.totalHeight - c.verticalHeight) / 2.0 - 5.0 <= HandleRect(c, i).top
      && HandleRect(c, i).top + 5.0 <= (c.totalHeight + c.verticalHeight) / 2.0
      && (c.position == Right ==> HandleRect(c, i).left + HandleRect(c, i).width == c.totalWidth)
  {
    var seg := c.verticalHeight / (2 * c.count) as real;
    BandBound(seg, i, 2 * c.count, c.verticalHeight);
    MulSucc(seg, i);
  }

  lemma MulSucc(a: real, i: nat)
    ensures a * (i + 1) as real == a * i as real + a
  {
  }

  lemma MulMonotone(a: real, x: real, y: real)
    requires a >= 0.0 && x <= y
    ensures a * x <= a * y
  {
    assert a * y - a * x == a * (y - x);
  }

  lemma QuotientNonNegative(a: real, n: real)
    requires a >= 0.0 && n > 0.0
    ensures a / n >= 0.0
  {
  }

  /** seg * i stays within [0, h] when seg = h / n and i < n. */
  lemma BandBound(seg: real, i: nat, n: nat, h: real)
    requires n >= 1 && i < n && h >= 0.0 && seg == h / n as real
    ensures 0.0 <= seg * i as real <= h
  {
    assert seg * n as real == h;
    MulMonotone(seg, i as real, n as real);
    MulMonotone(seg, 0.0, i as real);
  }

  /** On the top and bottom sides (handle size at most 10) each handle's left
      edge lies in [0, totalWidth - size] and never moves left from one handle
      to a later one; a rectangle extends at most `size` beyond the right
      edge. */
  lemma HorizontalSideGeometry(c: LayoutConfig, i: nat, j: nat)
    requires !c.isVertical && c.count >= 1 && i <= j < TotalHandles(c.count, c.isVertical)
    requires 0.0 <= c.horizontalHandleSize <= 10.0 && c.totalWidth >= c.horizontalHandleSize
    ensures 0.0 <= HandleRect(c, i).left <= c.totalWidth - c.horizontalHandleSize
    ensures HandleRect(c, i).left + HandleRect(c, i).width <= c.totalWidth + c.horizontalHandleSize
    ensures HandleRect(c, i).left <= HandleRect(c, j).left
    ensures HandleRect(c, i).top == if c.position == Top then -3.0 else c.totalHeight / 2.0 - 5.0
  {
    var seg := c.totalWidth / (c.count * 2) as real;
    QuotientNonNegative(c.totalWidth, (c.count * 2) as real);
    MulMonotone(seg, i as real, j as real);
    MulMonotone(seg, 0.0, i as real);
    ClampLeftBounds(seg * i as real, seg * j as real, c.totalWidth, c.horizontalHandleSize);
    assert HandleRect(c, i).left == ClampLeft(seg * i as real, c.totalWidth, c.horizontalHandleSize);
    assert HandleRect(c, j).left == ClampLeft(seg * j as real, c.totalWidth, c.horizontalHandleSize);
  }

  // ---------------------------------------------------------------------
  // The four sides of a node
  // ---------------------------------------------------------------------

  /** The handles of one node: 3 pairs on the left and on the right, 10 on
      the top and on the bottom, all with the default sizes. */
  function NodeHandles(totalHeight: real, totalWidth: real, v: Visibility): seq<HandleRecord> {
    Layout(WithDefaults(3, Left, true, totalHeight, totalWidth), v)
    + Layout(WithDefaults(3, Right, true, totalHeight, totalWidth), v)
    + Layout(WithDefaults(10, Top, false, totalHeight, totalWidth), v)
    + Layout(WithDefaults(10, Bottom, false, totalHeight, totalWidth), v)
  }

  /** `CustomHandle`: the four sides in order. */
  method RenderHandles(context: ConnectionStore?, totalHeight: real, totalWidth: real, id: string, isHovered: bool)
    returns (r: Result<seq<HandleRecord>, string>)
    ensures context == null ==> r == Failure(MISSING_PROVIDER_MESSAGE)
    ensures context != null ==>
      r == Success(NodeHandles(totalHeight, totalWidth, ResolveVisibility(context.sourceNodeId, context.isConnectionStarted, id, isHovered)))
  {
    var left := GenerateHandlers(context, WithDefaults(3, Left, true, totalHeight, totalWidth), id, isHovered);
    if left.Failure? { return left; }
    var right := GenerateHandlers(context, WithDefaults(3, Right, true, totalHeight, totalWidth), id, isHovered);
    if right.Failure? { return right; }
    var top := GenerateHandlers(context, WithDefaults(10, Top, false, totalHeight, totalWidth), id, isHovered);
    if top.Failure? { return top; }
    var bottom := GenerateHandlers(context, WithDefaults(10, Bottom, false, totalHeight, totalWidth), id, isHovered);
    if bottom.Failure? { return bottom; }
    return Success(left.value + right.value + top.value + bottom.value);
  }

  predicate DistinctIds(hs: seq<HandleRecord>) {
    forall a, b :: 0 <= a < b < |hs| ==> hs[a].id != hs[b].id
  }

  /** Every id in `hs` is non-empty and starts with one of `firsts`. */
  predicate IdsStartIn(hs: seq<HandleRecord>, firsts: set<char>) {
    forall a :: 0 <= a < |hs| ==> |hs[a].id| > 0 && hs[a].id[0] in firsts
  }

  lemma LayoutIds(c: LayoutConfig, v: Visibility)
    ensures DistinctIds(Layout(c, v))
    ensures IdsStartIn(Layout(c, v), {c.position.Name()[0]})
  {
    var hs := Layout(c, v);
    forall a, b | 0 <= a < b < |hs| ensures hs[a].id != hs[b].id {
      if hs[a].id == hs[b].id {
        HandleIdInjective(c.position, a, b);
      }
    }
    forall a | 0 <= a < |hs| ensures |hs[a].id| > 0 && hs[a].id[0] in {c.position.Name()[0]} {
      HandleIdEnds(c.position, a);
    }
  }

  lemma ConcatDistinct(s: seq<HandleRecord>, t: seq<HandleRecord>, fs: set<char>, ft: set<char>)
    requires DistinctIds(s) && DistinctIds(t) && IdsStartIn(s, fs) && IdsStartIn(t, ft) && fs !! ft
    ensures DistinctIds(s + t) && IdsStartIn(s + t, fs + ft)
  {
    var u := s + t;
    forall a, b | 0 <= a < b < |u| ensures u[a].id != u[b].id {
      if a < |s| && b >= |s| {
        assert u[a].id[0] in fs && u[b].id[0] in ft;
      }
    }
  }

  /** Every node has 5 + 5 + 20 + 20 = 50 handles with pairwise distinct ids. */
  lemma NodeHandlesDistinct(totalHeight: real, totalWidth: real, v: Visibility)
    ensures |NodeHandles(totalHeight, totalWidth, v)| == 50
    ensures DistinctIds(NodeHandles(totalHeight, totalWidth, v))
  {
    var l := Layout(WithDefaults(3, Left, true, totalHeight, totalWidth), v);
    var r := Layout(WithDefaults(3, Right, true, totalHeight, totalWidth), v);
    var t := Layout(WithDefaults(10, Top, false, totalHeight, totalWidth), v);
    var b := Layout(WithDefaults(10, Bottom, false, totalHeight, totalWidth), v);
    LayoutIds(WithDefaults(3, Left, true, totalHeight, totalWidth), v);
    LayoutIds(WithDefaults(3, Right, true, totalHeight, totalWidth), v);
    LayoutIds(WithDefaults(10, Top, false, totalHeight, totalWidth), v);
    LayoutIds(WithDefaults(10, Bottom, false, totalHeight, totalWidth), v);
    ConcatDistinct(l, r, {'l'}, {'r'});
    ConcatDistinct(l + r, t, {'l', 'r'}, {'t'});
    ConcatDistinct(l + r + t, b, {'l', 'r', 't'}, {'b'});
  }

  /** A generated handle id is never a bare side name, so an edge whose target
      handle is one of them always gets the "arrowhead-right" marker. */
  lemma GeneratedIdsGiveDefaultMarker(c: LayoutConfig, v: Visibility)
    ensures forall h :: h in Layout(c, v) ==> CustomEdge.MarkerId(Some(h.id)) == "arrowhead-right"
  {
    forall h | h in Layout(c, v) ensures CustomEdge.MarkerId(Some(h.id)) == "arrowhead-right" {
      var i :| 0 <= i < |Layout(c, v)| && Layout(c, v)[i] == h;
      HandleIdEnds(c.position, i);
    }
  }
}
