# Verified model of the workflow editor's connection logic

The editor shows payment-flow nodes on a canvas and lets a user connect
them by dragging from one node's handle to another's. This project models
the four pieces of logic behind that interaction and proves properties
about them.

- **Edge router** (`custom_edge.dfy`, module `CustomEdge`). It offsets both
  anchors 33 units out along their side's normal and picks a primary axis,
  horizontal only on a strict `>`. It then builds the nine-point staircase
  route, one path command per point, the label point, the truncated label
  text, the arrowhead marker and the delete filter. The route is built by a
  method with loops, like the component's `push` loop, and is proved equal
  to a reference sequence function. The lemmas state length, endpoints,
  orthogonality, even spacing and tie-breaking.
- **Handle layout and visibility** (`custom_handle.dfy`, module
  `CustomHandle`). It holds the rule that decides which role a node offers,
  the loop that emits one side's handle records, and the component that
  emits the four sides. It proves the handle and role counts, distinct ids,
  the rectangle geometry and the interaction flags, and that exactly one
  role is live per node.
- **Connection store** (`connection_context.dfy`, module
  `ConnectionContext`). It is a class with the two state cells, their
  setters, the reset, and the hook guard that fails outside a provider.
- **Connect-and-name dialog** (`workflow.dfy`, module `Workflow`). It is a
  class with the editor's state cells: edge list, typed name, pending edge
  and dialog flag. Its methods are the gesture, connect, confirm, cancel
  and delete handlers. The class invariant says the dialog is open exactly
  while an edge is pending, and every listed edge has a non-empty label.

Supporting modules:
- `wrappers.dfy` has `Option`/`Result`.
- `flow.dfy` has the canvas library's side enum, edge and connection
  records, and JavaScript truthiness of a nullable string.
- `text.dfy` has the ECMAScript `trim` white-space set and the decimal
  printing of integers used in handle ids.

Coordinates are mathematical reals. A JavaScript `null`/`undefined` is
`None`. Nondeterministic inputs are method parameters: the edge id built
from the clock and a random number, and the hover flag.

The model follows the code:
- ties on the primary-axis test go vertical;
- the step count is the constant 4;
- no top/bottom segment is skipped;
- every handle has z-order 100 whatever its role;
- there is no single-pair variant;
- idle sources are offered whether or not the node is hovered, so hover
  never changes the result.

## Model

| member | source | states |
|---|---|---|
| CustomEdge.GetOffsetCoords | src/Workflow/CustomEdge.tsx:46-54 | the point moves by `distance` along the outward normal of the side (top −y, bottom +y, left −x, right +x) and stays put for any other string |
| CustomEdge.OffsetMovesOneCoordinate | src/Workflow/CustomEdge.tsx:46-54 | at most one coordinate changes; on a side name the move is exactly \|distance\|; on any other string the point is unchanged |
| CustomEdge.OffsetRoundTrip | src/Workflow/CustomEdge.tsx:46-54 | offsetting by `d` and then by `−d` on the same side returns the original point |
| CustomEdge.BuildPoints | src/Workflow/CustomEdge.tsx:56-79 | the seed, the loop of interior steps and the final pushes produce exactly the reference route |
| CustomEdge.RouteShape | src/Workflow/CustomEdge.tsx:56-79 | every route has 9 points; it starts at the source anchor and ends at the target anchor; points 1 and 7 are the anchors moved 30 + 3 = 33 units out |
| CustomEdge.RouteAt | src/Workflow/CustomEdge.tsx:59-79 | points 2..5 are interior steps 1..4 and point 6 is the corner |
| CustomEdge.RouteIsOrthogonal | src/Workflow/CustomEdge.tsx:56-79 | every pair of consecutive points shares an x or a y coordinate, whatever the sides are |
| CustomEdge.RouteEvenSpacing | src/Workflow/CustomEdge.tsx:61-77 | horizontal-first exactly when \|Δx\| > \|Δy\| strictly, so ties go vertical; from the start stand-off to the corner there are five equal steps of a fifth of the primary-axis distance; the cross axis is held at the start value; the corner is (end.x, start.y) or (start.x, end.y) |
| CustomEdge.PathData | src/Workflow/CustomEdge.tsx:81 | one command per point, in order: a move-to exactly at index 0 and a line-to everywhere else |
| CustomEdge.LabelPoint | src/Workflow/CustomEdge.tsx:83-84 | the label point is one of the route's points; on a nine-point route it is point 4 = ⌊9/2⌋ |
| CustomEdge.LabelOnThirdStep | src/Workflow/CustomEdge.tsx:83-84 | the label sits on point 4 = ⌊9/2⌋, the third interior step, three fifths of the way along the primary axis |
| CustomEdge.EdgeName | src/Workflow/CustomEdge.tsx:86 | the name is never empty; a present, non-empty label is used as is; an empty or absent label gives the placeholder "Edge" |
| CustomEdge.DisplayText | src/Workflow/CustomEdge.tsx:87 | the full name when hovered or at most 8 characters long; otherwise 11 characters, the first 8 of the name followed by "..." |
| CustomEdge.DisplayTextBounds | src/Workflow/CustomEdge.tsx:87 | the shown text is never empty; it is at most 11 characters unless hovered; it always begins like the name |
| CustomEdge.DisplayTextExample | src/Workflow/CustomEdge.tsx:86-87 | "PaymentCallback" shows as "PaymentC..." unhovered and in full hovered; an empty or absent label shows "Edge" |
| CustomEdge.MarkerId | src/Workflow/CustomEdge.tsx:37-44 | the id always names one of the four defined markers; it is the side opposite the target handle when the handle is exactly a side name, otherwise "arrowhead-right" |
| CustomEdge.DirectionMapIsOpposite | src/Workflow/CustomEdge.tsx:37-42 | the direction map sends each side to a different side and back again |
| CustomEdge.WithoutEdge | src/Workflow/CustomEdge.tsx:148 | deleting never lengthens the edge list |
| CustomEdge.WithoutEdgeMembers | src/Workflow/CustomEdge.tsx:148 | an edge survives the delete exactly when it was listed and its id differs from the deleted id |
| CustomEdge.WithoutEdgeAppend | src/Workflow/CustomEdge.tsx:148 | the delete distributes over concatenation, so the survivors keep their relative order |
| CustomEdge.WithoutEdgeAbsent | src/Workflow/CustomEdge.tsx:148 | when no edge carries the id, the list is returned unchanged |
| CustomEdge.WithoutEdgeIdempotent | src/Workflow/CustomEdge.tsx:148 | deleting the same id twice is deleting it once |
| CustomEdge.RenderEdge | src/Workflow/CustomEdge.tsx:56-87 | the rendered path is exactly the path data of the reference route between the two anchors, so every route lemma above holds of it: 9 commands, from a move to the source anchor to a line to the target anchor, the second point being the 33-unit stand-off; the label sits on the fifth command's point; text and marker follow the rules above |
| CustomHandle.WithDefaults | src/Workflow/CustomHandle.tsx:18-29 | the given count, side, orientation and node size are kept; the optional sizes take their defaults |
| CustomHandle.ResolveVisibility | src/Workflow/CustomHandle.tsx:38-44 | targets are offered exactly while a gesture from another node is in progress; sources are offered exactly when targets are not, so exactly one role is live; a null source node is nobody's |
| CustomHandle.VisibilityDuringGesture | src/Workflow/CustomHandle.tsx:38-44 | during a gesture from A, A offers only sources and every other node only targets; at rest every node offers only sources; hover does not matter |
| CustomHandle.GenerateHandlers | src/Workflow/CustomHandle.tsx:18-101 | fails with the provider message when there is no provider; otherwise yields exactly the reference layout for the node's resolved visibility |
| CustomHandle.PushHandles | src/Workflow/CustomHandle.tsx:47-98 | the loop over 2·count − 1 or 2·count positions yields exactly the reference layout, in order |
| CustomHandle.NewHandle | src/Workflow/CustomHandle.tsx:50-95 | one iteration builds the rectangle, role, id and interaction flags the reference layout assigns to position i |
| CustomHandle.CountRolePrefix | src/Workflow/CustomHandle.tsx:49-51 | in any sequence whose roles alternate target, source, …, the first n entries hold ⌈n/2⌉ targets and ⌊n/2⌋ sources |
| CustomHandle.LayoutRoleCounts | src/Workflow/CustomHandle.tsx:47-51 | a side has 2·count − 1 (left/right) or 2·count (top/bottom) handles: count targets, and count − 1 or count sources |
| CustomHandle.HandleIdInjective | src/Workflow/CustomHandle.tsx:77-80 | two positions on one side never share an id |
| CustomHandle.HandleIdEnds | src/Workflow/CustomHandle.tsx:77-80 | an id starts with its side's first letter; its last character is '0' exactly for targets |
| CustomHandle.LayoutIds | src/Workflow/CustomHandle.tsx:77-80 | the ids of a side are pairwise distinct and all start with the side's first letter |
| CustomHandle.LayoutAt | src/Workflow/CustomHandle.tsx:49-98 | handle i of a side carries the id, role and rectangle computed for index i |
| CustomHandle.LayoutInteraction | src/Workflow/CustomHandle.tsx:72-95 | every handle has opacity 0 and z-order 100; pointer events are "auto" exactly when it is connectable; it is connectable exactly when its role is the one offered; so all connectable handles share one role |
| CustomHandle.VerticalSideGeometry | src/Workflow/CustomHandle.tsx:54-61 | consecutive tops differ by exactly one segment height; every top lies in the centred band of height `verticalHeight`; on the right side each rectangle ends flush with the node's right edge |
| CustomHandle.ClampLeftBounds | src/Workflow/CustomHandle.tsx:66 | for sizes up to 10, the right-edge clamp keeps a non-negative segment start inside [0, totalWidth − size] and preserves order |
| CustomHandle.HorizontalSideGeometry | src/Workflow/CustomHandle.tsx:62-69 | each left edge lies in [0, totalWidth − size] and never decreases along the side; a rectangle overhangs the right edge by at most `size`; the top is −3 on the top side and mid-height − 5 otherwise |
| CustomHandle.RenderHandles | src/Workflow/CustomHandle.tsx:110-166 | fails without a provider; otherwise the left, right, top and bottom layouts in order, with 3, 3, 10 and 10 pairs and default sizes |
| CustomHandle.NodeHandlesDistinct | src/Workflow/CustomHandle.tsx:113-165 | every node has 5 + 5 + 20 + 20 = 50 handles with pairwise distinct ids |
| CustomHandle.GeneratedIdsGiveDefaultMarker | src/Workflow/CustomEdge.tsx:44 | an edge whose target handle is any generated handle id always gets the "arrowhead-right" marker |
| ConnectionContext.ConnectionStore.constructor | src/Workflow/ConnectionContext.tsx:26-27 | the store starts at rest: no source node, no gesture |
| ConnectionContext.ConnectionStore.SetSourceNodeId | src/Workflow/ConnectionContext.tsx:26 | overwrites the source node and leaves the gesture flag alone |
| ConnectionContext.ConnectionStore.SetIsConnectionStarted | src/Workflow/ConnectionContext.tsx:27 | overwrites the gesture flag and leaves the source node alone |
| ConnectionContext.ConnectionStore.ResetConnection | src/Workflow/ConnectionContext.tsx:29-32 | from any state the store returns to rest, so a second reset changes nothing |
| ConnectionContext.UseConnectionContext | src/Workflow/ConnectionContext.tsx:13-19 | succeeds with the provider's store exactly when there is one, otherwise fails with the provider message |
| Text.TrimStart | src/Workflow/Workflow.tsx:89 | the result is a suffix of the input; everything cut off is white space; the result does not start with white space |
| Text.TrimEnd | src/Workflow/Workflow.tsx:89 | the result is a prefix of the input; everything cut off is white space; the result does not end with white space |
| Text.Trim | src/Workflow/Workflow.tsx:89 | the result is the slice of the input that starts right after its leading white space; it neither starts nor ends with white space; it is empty exactly when the input is all white space |
| Text.TrimDropsOnlyWhiteSpace | src/Workflow/Workflow.tsx:89 | everything before and after the kept slice is white space, so the slice is as long as it can be |
| Text.TrimPadded | src/Workflow/Workflow.tsx:89 | trimming removes exactly the white-space padding: trim(p + w + q) = w when p and q are white space and w neither starts nor ends with it |
| Text.TrimIdempotent | src/Workflow/Workflow.tsx:89 | trimming twice is trimming once |
| Text.NatToString | src/Workflow/CustomHandle.tsx:80 | the decimal rendering has at least one digit, only digits and no leading zero |
| Text.ParseNatToString | src/Workflow/CustomHandle.tsx:80 | reading the decimal rendering back gives the number |
| Text.NatToStringInjective | src/Workflow/CustomHandle.tsx:80 | different numbers render differently |
| Workflow.OrUndefined | src/Workflow/Workflow.tsx:56-57 | a handle id is kept exactly when it is truthy and dropped otherwise |
| Workflow.PendingEdgeFor | src/Workflow/Workflow.tsx:51-61 | the parked edge carries the given id, source and target; each handle is the connection's handle when truthy and absent otherwise; the edge is animated, of type "customEdge" and unlabelled |
| Workflow.ConfirmedLabel | src/Workflow/Workflow.tsx:89 | the label is never empty; it is the placeholder "Connection" when the typed name is all white space; otherwise it is the trimmed name, without white space at either end |
| Workflow.ConfirmedLabelPadded | src/Workflow/Workflow.tsx:89 | a name padded with white space is confirmed as the bare word |
| Workflow.ConfirmedLabelBlank | src/Workflow/Workflow.tsx:89 | a blank or empty name is confirmed as "Connection" |
| Workflow.CommittedEdgeShowsItsLabel | src/Workflow/CustomEdge.tsx:86 | a listed edge shows its own label, never the edge view's placeholder |
| Workflow.AddEdge | src/Workflow/Workflow.tsx:92 | adding an edge grows the list by one, keeps every earlier edge in place and puts the new edge last |
| Workflow.WorkflowEditor.constructor | src/Workflow/Workflow.tsx:36-42 | the editor starts with the empty initial edge list, an empty name, nothing pending and the dialog closed |
| Workflow.WorkflowEditor.OnConnect | src/Workflow/Workflow.tsx:44-69 | without a truthy source and target nothing changes; otherwise the new edge is parked, the name is cleared and the dialog opens; the edge list never changes |
| Workflow.WorkflowEditor.OnConnectStart | src/Workflow/Workflow.tsx:71-77 | with a truthy node id the store records it and marks a gesture started; otherwise the store is unchanged |
| Workflow.WorkflowEditor.OnConnectEnd | src/Workflow/Workflow.tsx:79-82 | the store is at rest afterwards, whatever the gesture's outcome |
| Workflow.WorkflowEditor.SetEdgeName | src/Workflow/Workflow.tsx:190 | the typed name is replaced; nothing else changes |
| Workflow.WorkflowEditor.HandleConfirmEdgeName | src/Workflow/Workflow.tsx:85-100 | with nothing pending nothing changes; otherwise the pending edge, with its confirmed label, is appended, so the list grows by exactly one; the name and the pending edge are cleared, the dialog closes and the store returns to rest |
| Workflow.WorkflowEditor.CommitEdge | src/Workflow/Workflow.tsx:92-98 | the labelled edge is appended to the list; the name and the pending edge are cleared, the dialog closes and the store returns to rest; every listed edge still has the committed shape |
| Workflow.WorkflowEditor.HandleCancelEdgeName | src/Workflow/Workflow.tsx:103-108 | the pending edge and the name are dropped, the dialog closes and the store returns to rest; the edge list is unchanged |
| Workflow.WorkflowEditor.DeleteEdge | src/Workflow/CustomEdge.tsx:148 | the edge list becomes the delete filter of the old list, and the editor invariant is kept |
| Workflow.ConnectAndNameScenario | src/Workflow/Workflow.tsx:44-100 | a drag from A onto B, named "  Fallback " and confirmed, yields exactly one edge labelled "Fallback", and the store is at rest |
| Workflow.DropOnCanvasScenario | src/Workflow/Workflow.tsx:71-82 | a drag from A dropped on the empty canvas adds no edge; the store is at rest and A again offers only its sources |

## Left out

- Coordinates and sizes are JavaScript doubles; the model uses exact reals, so IEEE-754 rounding is not modelled.
- The textual form of the path data (how numbers print inside the "M x,y L x,y" string) is not modelled. The path is a list of move-to/line-to commands.
- The JSX/SVG/Chakra rendering is not modelled: the marker definitions, the label container, the modal and the export/status box. The hover state is an input, not a `useState` cell.
- `exportWorkflow` and the `console.log` calls are not modelled. They write only to the console.
- The edge id is built from `Date.now()` and `Math.random()`. Here it is a parameter of `OnConnect`.
- Workflow.AddEdge: the canvas library's `addEdge` is not part of this model. It may refuse a connection it already holds; here it always appends.
- The canvas library itself is not part of this model: `useNodesState`/`useEdgesState`, `onEdgesChange`, and the order in which it fires `onConnect` and `onConnectEnd`. Each handler is a separate method. React's batched, deferred state updates are treated as taking effect at once, in program order.
- CustomEdge.MarkerId: looks the handle up only among the four side names. A JavaScript object lookup would also reach inherited keys such as "constructor", which the model does not capture.
- CustomEdge.DisplayText: counts Unicode characters. JavaScript's `length` and `slice` count UTF-16 code units.
- A left/right side with count 0: the code's bound is −1 there. The loop never runs, which the model shows as an empty side. A count is a natural number here, not an arbitrary JavaScript number.
- CustomHandle.HorizontalSideGeometry: stated for handle sizes up to the default 10 and node widths at least that size. Beyond that the clamp in the code does not keep handles inside the node.
- CustomHandle.VerticalSideGeometry: the band property is stated for a non-negative `verticalHeight`.
- The node cards that host the handles and their sizes are not part of this model. The initial node list is not either. The initial edge list is empty.
