/** The values the editor exchanges with its graph-canvas library: the four
    sides of a node, an edge record and a connection request. */
module Flow {
  import opened Wrappers

  /** A side of a node; `Name` is the string value of the library's enum. */
  datatype Position = Left | Right | Top | Bottom {
    function Name(): string {
      match this
      case Left => "left"
      case Right => "right"
      case Top => "top"
      case Bottom => "bottom"
    }
  }

  /** An edge of the canvas; `edgeType` is the record's `type` field,
      `edgeLabel` its `label`, and an absent handle is `None`. */
  datatype Edge = Edge(
    id: string,
    source: string,
    target: string,
    sourceHandle: Option<string>,
    targetHandle: Option<string>,
    animated: bool,
    edgeType: string,
    edgeLabel: string)

  /** A request to connect two nodes, as the canvas reports a finished drag;
      every field may be null. */
  datatype Connection = Connection(
    source: Option<string>,
    target: Option<string>,
    sourceHandle: Option<string>,
    targetHandle: Option<string>)

  /** JavaScript truthiness of a `string | null`: present and non-empty. */
  predicate Truthy(s: Option<string>) {
    s.Some? && s.value != ""
  }
}
