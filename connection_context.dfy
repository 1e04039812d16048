/** The shared connection state: which node, if any, a drag-to-connect
    gesture started from, and whether a gesture is in progress. */
module ConnectionContext {
  import opened Wrappers

  const MISSING_PROVIDER_MESSAGE: string := "useConnectionContext must be used within a ConnectionProvider"

  /** The provider's two state cells and the operations it hands out. */
  class ConnectionStore {
    var sourceNodeId: Option<string>
    var isConnectionStarted: bool

    /** The rest state: no source node and no gesture. */
    predicate AtRest()
      reads this
    {
      sourceNodeId == None && !isConnectionStarted
    }

    /** Both cells start at rest. */
    constructor ()
      ensures AtRest()
    {
      sourceNodeId := None;
      isConnectionStarted := false;
    }

    /** Overwrites the source node and nothing else. */
    method SetSourceNodeId(nodeId: Option<string>)
      modifies this
      ensures sourceNodeId == nodeId
      ensures isConnectionStarted == old(isConnectionStarted)
    {
      sourceNodeId := nodeId;
    }

    /** Overwrites the gesture flag and nothing else. */
    method SetIsConnectionStarted(started: bool)
      modifies this
      ensures isConnectionStarted == started
      ensures sourceNodeId == old(sourceNodeId)
    {
      isConnectionStarted := started;
    }

    /** Returns both cells to rest from any state; a second reset therefore
        changes nothing. */
    method ResetConnection()
      modifies this
      ensures AtRest()
    {
      SetSourceNodeId(None);
      SetIsConnectionStarted(false);
    }
  }

  /** The hook's guard: the enclosing provider's store, or the error it throws
      when there is none. */
  function UseConnectionContext(context: ConnectionStore?): (r: Result<ConnectionStore, string>)
    ensures r.Success? <==> context != null
    ensures r.Success? ==> r.value == context
    ensures r.Failure? ==> r.error == MISSING_PROVIDER_MESSAGE
  {
    if context == null then Failure(MISSING_PROVIDER_MESSAGE) else Success(context)
  }
}
