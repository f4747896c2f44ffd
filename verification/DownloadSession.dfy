/** The lifecycle of one dedicated download session, updated under its mutex. */
module DownloadSession {
  import opened Wrappers

  type ConnectionId = nat
  type SessionId = nat   // identity of the session's allocation
  type Uuid = nat        // download id

  datatype Reason =
    | Complete | ChunkTimeout | FileError | ClusterOffline
    | WebSocketClosed | WebSocketError | ResponseError | ApplicationShutdown

  datatype Lifecycle =
    | Pending
    | Connected(conn: ConnectionId)
    | Closing(bound: Option<ConnectionId>, reason: Reason)
    | Closed(bound: Option<ConnectionId>, reason: Reason)

  /** Work emitted when a session first enters `Closing`. */
  datatype Request = Request(session: SessionId, uuid: Uuid, conn: Option<ConnectionId>, reason: Reason)

  function Bind(state: Lifecycle, conn: ConnectionId): Option<Lifecycle> {
    if state.Pending? then Some(Connected(conn)) else None
  }

  function BoundTo(state: Lifecycle): Option<ConnectionId> {
    match state
    case Pending => None
    case Connected(conn) => Some(conn)
    case Closing(bound, _) => bound
    case Closed(bound, _) => bound
  }

  predicate Left(state: Lifecycle) {
    state.Closing? || state.Closed?
  }

  /** The first trigger records the reason and the connection; later ones change nothing. */
  function Triggered(state: Lifecycle, reason: Reason): Lifecycle {
    if Left(state) then state else Closing(BoundTo(state), reason)
  }

  /** `Closing` becomes `Closed` for exactly the connection it was bound to. */
  function Completed(state: Lifecycle, conn: Option<ConnectionId>): Lifecycle {
    if state.Closing? && state.bound == conn then Closed(conn, state.reason) else state
  }

  /** The state only moves forward; connection and reason, once recorded, stay. */
  predicate Advances(before: Lifecycle, after: Lifecycle) {
    match before
    case Pending => true
    case Connected(conn) => after == before || (Left(after) && after.bound == Some(conn))
    case Closing(bound, reason) => after == before || after == Closed(bound, reason)
    case Closed(_, _) => after == before
  }

  lemma AdvancesTransitive(a: Lifecycle, b: Lifecycle, c: Lifecycle)
    requires Advances(a, b) && Advances(b, c)
    ensures Advances(a, c)
  {
  }

  // ----- the transitions, each made under the lifecycle lock

  method TryBind(state: Lifecycle, conn: ConnectionId) returns (next: Lifecycle, ok: bool)
    ensures Bind(state, conn) == if ok then Some(next) else None
    ensures !ok ==> next == state
    ensures Advances(state, next)
  {
    match state {
      case Pending => return Connected(conn), true;
      case _ => return state, false;
    }
  }

  /** Only the first trigger wins; it records why. */
  method TryTrigger(state: Lifecycle, reason: Reason) returns (next: Lifecycle, won: bool)
    ensures next == Triggered(state, reason) && won == !Left(state)
    ensures Advances(state, next)
  {
    var conn;
    match state {
      case Pending => conn := None;
      case Connected(c) => conn := Some(c);
      case Closing(_, _) => return state, false;
      case Closed(_, _) => return state, false;
    }
    return Closing(conn, reason), true;
  }

  method TryComplete(state: Lifecycle, conn: Option<ConnectionId>) returns (next: Lifecycle, done: bool)
    ensures next == Completed(state, conn) && done == (next != state)
    ensures Advances(state, next)
  {
    match state {
      case Closing(expected, reason) =>
        if expected == conn {
          return Closed(expected, reason), true;
        }
      case _ =>
    }
    return state, false;
  }

  class Session {
    const id: SessionId
    const downloadId: Uuid
    var state: Lifecycle
    var emitted: seq<Request>   // requests handed to the cleanup channel

    /** Exactly one request has gone out once the session has left `Pending` and `Connected`. */
    predicate Valid()
      reads this
    {
      emitted == if Left(state) then [Request(id, downloadId, state.bound, state.reason)] else []
    }

    constructor (session: SessionId, uuid: Uuid)
      ensures Valid() && state == Pending && id == session && downloadId == uuid
    {
      id, downloadId, state, emitted := session, uuid, Pending, [];
    }

    method BindConnection(conn: ConnectionId) returns (ok: bool)
      requires Valid()
      modifies this`state
      ensures Valid() && Advances(old(state), state)
      ensures ok == old(state).Pending?
      ensures state == if ok then Connected(conn) else old(state)
    {
      state, ok := TryBind(state, conn);
    }

    method Complete(conn: Option<ConnectionId>) returns (done: bool)
      requires Valid()
      modifies this`state
      ensures Valid() && Advances(old(state), state)
      ensures state == Completed(old(state), conn) && done == (state != old(state))
    {
      state, done := TryComplete(state, conn);
    }

    /** The winner also emits the cleanup request. */
    method Trigger(reason: Reason) returns (won: bool)
      requires Valid()
      modifies this
      ensures Valid() && Advances(old(state), state)
      ensures state == Triggered(old(state), reason) && won == (emitted != old(emitted))
      ensures won == !Left(old(state))
    {
      state, won := TryTrigger(state, reason);
      if won {
        emitted := emitted + [Request(id, downloadId, state.bound, reason)];
      }
    }
  }
}
