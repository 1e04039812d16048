/** The editor's connect-and-name flow: a drag from a handle marks the source
    node, a finished drag parks a pending edge and opens the naming dialog,
    and confirming or cancelling the dialog commits or discards that edge. */
module Workflow {
  import opened Wrappers
  import opened Flow
  import opened Text
  import opened ConnectionContext
  import CustomEdge
  import CustomHandle

  const EDGE_TYPE: string := "customEdge"
  const DEFAULT_EDGE_LABEL: string := "Connection"

  /** `handle || undefined`: a truthy handle id is kept, anything else is
      dropped. */
  function OrUndefined(handle: Option<string>): (r: Option<string>)
    ensures r.Some? <==> Truthy(handle)
    ensures r.Some? ==> r == handle
  {
    if Truthy(handle) then handle else None
  }

  /** The shape of the edge parked while the dialog is open. */
  predicate IsPendingEdge(e: Edge) {
    e.source != "" && e.target != "" && e.animated && e.edgeType == EDGE_TYPE && e.edgeLabel == ""
  }

  /** The shape of an edge in the edge list: as pending, with a non-empty
      label. */
  predicate IsCommittedEdge(e: Edge) {
    e.source != "" && e.target != "" && e.animated && e.edgeType == EDGE_TYPE && e.edgeLabel != ""
  }

  /** The edge `onConnect` builds from a well-formed request. */
  function PendingEdgeFor(c: Connection, uniqueId: string): (e: Edge)
    requires Truthy(c.source) && Truthy(c.target)
    ensures IsPendingEdge(e)
    ensures e.id == uniqueId && Some(e.source) == c.source && Some(e.target) == c.target
    ensures e.sourceHandle == OrUndefined(c.sourceHandle) && e.targetHandle == OrUndefined(c.targetHandle)
    ensures Truthy(e.sourceHandle) <==> Truthy(c.sourceHandle)
    ensures Truthy(e.targetHandle) <==> Truthy(c.targetHandle)
  {
    Edge(uniqueId, c.source.value, c.target.value, OrUndefined(c.sourceHandle), OrUndefined(c.targetHandle),
         true, EDGE_TYPE, "")
  }

  /** `edgeName.trim() || "Connection"`: never empty; the placeholder exactly
      when the typed name is all white space, otherwise the trimmed name. */
  function ConfirmedLabel(edgeName: string): (confirmed: string)
    ensures confirmed != ""
    ensures AllWhiteSpace(edgeName) ==> confirmed == DEFAULT_EDGE_LABEL
    ensures !AllWhiteSpace(edgeName) ==>
      confirmed == Trim(edgeName) && !IsJsWhiteSpace(confirmed[0]) && !IsJsWhiteSpace(confirmed[|confirmed| - 1])
  {
    var trimmed := Trim(edgeName);
    if trimmed != "" then trimmed else DEFAULT_EDGE_LABEL
  }

  /** A name padded with white space is confirmed as the bare word. */
  lemma ConfirmedLabelPadded(p: string, w: string, q: string)
    requires AllWhiteSpace(p) && AllWhiteSpace(q)
    requires w != [] && !IsJsWhiteSpace(w[0]) && !IsJsWhiteSpace(w[|w| - 1])
    ensures ConfirmedLabel(p + w + q) == w
  {
    TrimPadded(p, w, q);
  }

  /** A blank name falls back to the placeholder. */
  lemma ConfirmedLabelBlank()
    ensures ConfirmedLabel("   ") == DEFAULT_EDGE_LABEL
    ensures ConfirmedLabel("") == DEFAULT_EDGE_LABEL
  {
    var blank := "   ";
    assert IsJsWhiteSpace(' ');
    assert AllWhiteSpace(blank);
  }

  /** A listed edge always shows its own label, never the edge view's
      placeholder, since confirmation never stores an empty label. */
  lemma CommittedEdgeShowsItsLabel(e: Edge)
    requires IsCommittedEdge(e)
    ensures CustomEdge.EdgeName(Some(e.edgeLabel)) == e.edgeLabel
  {
  }

  /** Adding an edge appends it and keeps every earlier edge in place. */
  function AddEdge(e: Edge, edges: seq<Edge>): (r: seq<Edge>)
    ensures |r| == |edges| + 1 && r[..|edges|] == edges && r[|edges|] == e
  {
    edges + [e]
  }

  /** The editor's state cells: the edge list, the name typed in the dialog,
      the pending edge and the dialog flag, next to the shared connection
      store. */
  class WorkflowEditor {
    var edges: seq<Edge>
    var edgeName: string
    var pendingEdge: Option<Edge>
    var isOpen: bool
    const connection: ConnectionStore

    /** The dialog is open exactly while an edge is pending; the pending edge
        and every listed edge have the shape the handlers give them. */
    predicate Valid()
      reads this
    {
      && (isOpen <==> pendingEdge.Some?)
      && (pendingEdge.Some? ==> IsPendingEdge(pendingEdge.value))
      && (forall e :: e in edges ==> IsCommittedEdge(e))
    }

    /** Starts with the (empty) initial edge list, an empty name, nothing
        pending and the dialog closed. */
    constructor (connection: ConnectionStore)
      ensures Valid()
      ensures this.connection == connection
      ensures edges == [] && edgeName == "" && pendingEdge == None && !isOpen
    {
      this.connection := connection;
      edges := [];
      edgeName := "";
      pendingEdge := None;
      isOpen := false;
    }

    /** `onConnect`: a request without a source or target changes nothing;
        otherwise the new edge is parked, the name cleared and the dialog
        opened, and the edge list is left alone. */
    method OnConnect(c: Connection, uniqueId: string)
      requires Valid()
      modifies this
      ensures Valid()
      ensures edges == old(edges)
      ensures !(Truthy(c.source) && Truthy(c.target)) ==>
        pendingEdge == old(pendingEdge) && edgeName == old(edgeName) && isOpen == old(isOpen)
      ensures Truthy(c.source) && Truthy(c.target) ==>
        pendingEdge == Some(PendingEdgeFor(c, uniqueId)) && edgeName == "" && isOpen
    {
      if !Truthy(c.source) || !Truthy(c.target) {
        return;
      }
      var edge := PendingEdgeFor(c, uniqueId);
      pendingEdge := Some(edge);
      edgeName := "";
      isOpen := true;
    }

    /** `onConnectStart`: a drag from a node marks it as the source and starts
        the gesture; without a node id nothing changes. */
    method OnConnectStart(nodeId: Option<string>)
      modifies connection
      ensures Truthy(nodeId) ==> connection.sourceNodeId == nodeId && connection.isConnectionStarted
      ensures !Truthy(nodeId) ==> unchanged(connection)
    {
      if Truthy(nodeId) {
        connection.SetSourceNodeId(nodeId);
        connection.SetIsConnectionStarted(true);
      }
    }

    /** `onConnectEnd`: the gesture is over, whatever its outcome. */
    method OnConnectEnd()
      modifies connection
      ensures connection.AtRest()
    {
      connection.ResetConnection();
    }

    /** The dialog's input field overwrites the typed name. */
    method SetEdgeName(value: string)
      requires Valid()
      modifies this`edgeName
      ensures Valid()
      ensures edgeName == value
    {
      edgeName := value;
    }

    /** `handleConfirmEdgeName`: with nothing pending nothing changes;
        otherwise the pending edge is appended with its confirmed label, the
        name and the pending edge are cleared, the dialog is closed and the
        connection store returns to rest. */
    method HandleConfirmEdgeName()
      requires Valid()
      modifies this, connection
      ensures Valid()
      ensures old(pendingEdge).None? ==> unchanged(this) && unchanged(connection)
      ensures old(pendingEdge).Some? ==>
        && edges == AddEdge(old(pendingEdge).value.(edgeLabel := ConfirmedLabel(old(edgeName))), old(edges))
        && pendingEdge == None && edgeName == "" && !isOpen
        && connection.AtRest()
    {
      if pendingEdge.Some? {
        var confirmed := ConfirmedLabel(edgeName);
        var edgeWithName := pendingEdge.value.(edgeLabel := confirmed);
        CommitEdge(edgeWithName);
      }
    }

    /** The confirm handler's updates once the label is known: the edge is
        appended, the name and the pending edge are cleared, the dialog is
        closed and the connection store returns to rest. */
    method CommitEdge(edgeWithName: Edge)
      requires Valid() && IsCommittedEdge(edgeWithName)
      modifies this, connection
      ensures Valid()
      ensures edges == AddEdge(edgeWithName, old(edges))
      ensures pendingEdge == None && edgeName == "" && !isOpen
      ensures connection.AtRest()
    {
      edges := AddEdge(edgeWithName, edges);
      pendingEdge := None;
      edgeName := "";
      isOpen := false;
      connection.ResetConnection();
    }

    /** `handleCancelEdgeName`: the pending edge and the name are dropped, the
        dialog is closed and the connection store returns to rest; the edge
        list is untouched. */
    method HandleCancelEdgeName()
      requires Valid()
      modifies this, connection
      ensures Valid()
      ensures edges == old(edges)
      ensures pendingEdge == None && edgeName == "" && !isOpen
      ensures connection.AtRest()
    {
      pendingEdge := None;
      edgeName := "";
      isOpen := false;
      connection.ResetConnection();
    }

    /** The edge's delete button: removes the edges with that id. */
    method DeleteEdge(id: string)
      requires Valid()
      modifies this`edges
      ensures Valid()
      ensures edges == CustomEdge.WithoutEdge(old(edges), id)
    {
      CustomEdge.WithoutEdgeMembers(edges, id);
      edges := CustomEdge.WithoutEdge(edges, id);
    }
  }

  /** A drag from node A onto node B, named "  Fallback " and confirmed,
      yields exactly one edge labelled "Fallback" and leaves the connection
      store at rest. */
  method ConnectAndNameScenario() returns (edges: seq<Edge>, atRest: bool)
    ensures edges == [Edge("edge-1", "A", "B", Some("right-source-1-1"), Some("left-target-1-0"), true, EDGE_TYPE, "Fallback")]
    ensures atRest
  {
    var store := new ConnectionStore();
    var editor := new WorkflowEditor(store);
    editor.OnConnectStart(Some("A"));
    editor.OnConnect(Connection(Some("A"), Some("B"), Some("right-source-1-1"), Some("left-target-1-0")), "edge-1");
    editor.OnConnectEnd();
    var typed := "  " + "Fallback" + " ";
    editor.SetEdgeName(typed);
    ConfirmedLabelPadded("  ", "Fallback", " ");
    editor.HandleConfirmEdgeName();
    edges, atRest := editor.edges, store.AtRest();
  }

  /** A drag from node A dropped on the empty canvas creates no edge, leaves
      the store at rest, and A again offers only its source handles. */
  method DropOnCanvasScenario() returns (edges: seq<Edge>, atRest: bool, visibilityOfA: CustomHandle.Visibility)
    ensures edges == [] && atRest
    ensures visibilityOfA == CustomHandle.Visibility(true, false)
  {
    var store := new ConnectionStore();
    var editor := new WorkflowEditor(store);
    editor.OnConnectStart(Some("A"));
    editor.OnConnectEnd();
    edges, atRest := editor.edges, store.AtRest();
    visibilityOfA := CustomHandle.ResolveVisibility(store.sourceNodeId, store.isConnectionStarted, "A", true);
  }
}
