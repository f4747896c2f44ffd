/**
 The protocol around download sessions: creation, WebSocket admission with its two re-checks,
 triggers from anywhere, the cleanup worker, direct cleanup from a connection's exit, and the exit's
 completion. One step is one map operation, lifecycle transition or sender update; a run is any
 sequence of enabled steps.
 */
module DownloadProtocol {
  import opened Wrappers
  import opened DownloadSession

  /** A session with the WebSocket sender of its dedicated cluster. */
  datatype Entry = Entry(uuid: Uuid, state: Lifecycle, sender: Option<ConnectionId>)

  /** Where a call of `cleanup_file_download` is. */
  datatype CleanPc =
    | Upgrade | GetCluster | RemoveSession | DropCluster
    | RemoveConn | CloseSender      // for a bound connection
    | ClearSender | CompletePending       // for a session that never connected

  datatype Worker = Idle | Cleaning(request: Request, at: CleanPc)

  /** Where the task of one accepted socket is. */
  datatype Conn =
    | Lookup(token: Uuid)
    | Binding(s: SessionId)
    | Finding(s: SessionId)        // about to look up the session's cluster
    | Offline(s: SessionId)        // no cluster: about to trigger `ClusterOffline`
    | Installing(s: SessionId)     // about to set the sender
    | Checking(s: SessionId)       // first re-check
    | Inserting(s: SessionId)      // about to enter `connection_map`
    | Rechecking(s: SessionId)     // second re-check
    | UndoMap(s: SessionId)
    | UndoSender(s: SessionId)
    | Rejected
    | AdmitConn(s: SessionId)      // accepted; `get_file_download_admission` begins
    | AdmitMap(s: SessionId)
    | AdmitState(s: SessionId)
    | AdmitRetain(s: SessionId)
    | Serving(s: SessionId, retained: bool)
    | ExitConn(s: SessionId, retained: bool, reason: Reason)      // `remove_connection`
    | ExitMap(s: SessionId, retained: bool, reason: Reason)
    | ExitState(s: SessionId, retained: bool, reason: Reason)
    | ExitTrigger(s: SessionId, retained: bool, reason: Reason)
    | ExitSending(s: SessionId, retained: bool, request: Request)
    | ExitCleaning(s: SessionId, retained: bool, request: Request, at: CleanPc)
    | Finishing(s: SessionId, retained: bool)
    | Finished(s: SessionId, retained: bool)

  datatype State = State(
    sessions: map<SessionId, Entry>,
    published: map<Uuid, SessionId>,         // file_download_map
    clusters: set<SessionId>,                // file_download_clusters, by session identity
    connections: map<ConnectionId, SessionId>, // connection_map, restricted to download clusters
    creating: set<SessionId>,
    inHand: map<SessionId, Request>,         // triggered, request not yet sent
    queue: seq<Request>,                     // the cleanup channel
    worker: Worker,
    conns: map<ConnectionId, Conn>,
    sent: seq<Request>,                      // history: requests sent
    torn: seq<SessionId>                     // history: teardowns past the removal gate
  )

  datatype Step =
    | Create(s: SessionId, uuid: Uuid)
    | Publish(s: SessionId)
    | Fire(s: SessionId, reason: Reason)     // any holder of a trigger
    | Send(s: SessionId)
    | Take
    | WorkerStep(alive: bool)
    | Open(c: ConnectionId, token: Uuid)
    | Refuse(c: ConnectionId)                // shutdown, or another kind of token
    | ConnStep(c: ConnectionId)
    | Exit(c: ConnectionId, reason: Reason)
    | ConnClean(c: ConnectionId, alive: bool)

  function Init(): State {
    State(map[], map[], {}, map[], {}, map[], [], Idle, map[], [], [])
  }

  predicate IsPublished(st: State, s: SessionId) {
    s in st.sessions && st.sessions[s].uuid in st.published && st.published[st.sessions[s].uuid] == s
  }

  function SetState(st: State, s: SessionId, state: Lifecycle): State
    requires s in st.sessions
  {
    st.(sessions := st.sessions[s := st.sessions[s].(state := state)])
  }

  function SetSender(st: State, s: SessionId, sender: Option<ConnectionId>): State
    requires s in st.sessions
  {
    st.(sessions := st.sessions[s := st.sessions[s].(sender := sender)])
  }

  /** `trigger`: the transition; a winner then has its request in hand. */
  function TriggerStep(st: State, s: SessionId, reason: Reason): State
    requires s in st.sessions
  {
    var entry := st.sessions[s];
    if Left(entry.state) then st
    else SetState(st, s, Triggered(entry.state, reason))
         .(inHand := st.inHand[s := Request(s, entry.uuid, BoundTo(entry.state), reason)])
  }

  /** One step of `cleanup_file_download`, and where it goes next. */
  function CleanNext(st: State, request: Request, at: CleanPc, alive: bool): (State, Option<CleanPc>)
    requires request.session in st.sessions
  {
    var s := request.session;
    match at
    case Upgrade => (st, if alive then Some(GetCluster) else None)
    case GetCluster => (st, if s in st.clusters then Some(RemoveSession) else None)
    case RemoveSession =>
      if request.uuid in st.published && st.published[request.uuid] == s then
        (st.(published := st.published - {request.uuid}, torn := st.torn + [s]), Some(DropCluster))
      else (st, None)
    case DropCluster =>
      (st.(clusters := st.clusters - {s}), Some(if request.conn.Some? then RemoveConn else ClearSender))
    case RemoveConn =>
      (if request.conn.Some? then RemoveExact(st, request.conn.value, s) else st, Some(CloseSender))
    case CloseSender => (SetSender(st, s, None), None)
    case ClearSender => (SetSender(st, s, None), Some(CompletePending))
    case CompletePending => (SetState(st, s, Completed(st.sessions[s].state, None)), None)
  }

  /** `remove_exact_connection`. */
  function RemoveExact(st: State, c: ConnectionId, s: SessionId): State {
    if c in st.connections && st.connections[c] == s then st.(connections := st.connections - {c}) else st
  }

  /** The upgrade of a weak reference can only fail when the map no longer holds the session. */
  predicate MayClean(st: State, request: Request, at: CleanPc, alive: bool) {
    request.session in st.sessions && (at.Upgrade? && !alive ==> !IsPublished(st, request.session))
  }

  function SessionOf(conn: Conn): Option<SessionId> {
    if conn.Lookup? || conn.Rejected? then None else Some(conn.s)
  }

  /** A fresh allocation and a fresh download id. */
  predicate Creatable(st: State, s: SessionId, uuid: Uuid) {
    s !in st.sessions && uuid !in st.published && (forall t :: t in st.sessions ==> st.sessions[t].uuid != uuid)
  }

  predicate Enabled(st: State, step: Step) {
    match step
    case Create(s, uuid) => Creatable(st, s, uuid)
    case Publish(s) => s in st.creating && s in st.sessions
    case Fire(s, _) => s in st.sessions && s !in st.creating
    case Send(s) => s in st.inHand
    case Take => st.worker.Idle? && st.queue != []
    case WorkerStep(alive) => st.worker.Cleaning? && MayClean(st, st.worker.request, st.worker.at, alive)
    case Open(c, _) => c !in st.conns
    case Refuse(c) => c in st.conns && st.conns[c].Lookup?
    case ConnStep(c) =>
      && c in st.conns && !st.conns[c].Rejected? && !st.conns[c].Serving? && !st.conns[c].ExitCleaning?
      && !st.conns[c].Finished?
      && (SessionOf(st.conns[c]).Some? ==> SessionOf(st.conns[c]).value in st.sessions)
      && (st.conns[c].ExitSending? ==> st.conns[c].s !in st.inHand)
    case Exit(c, _) => c in st.conns && st.conns[c].Serving?
    case ConnClean(c, alive) =>
      c in st.conns && st.conns[c].ExitCleaning? && MayClean(st, st.conns[c].request, st.conns[c].at, alive)
  }

  /** `create_file_download`: first the cluster, then the session. */
  function Created(st: State, s: SessionId, uuid: Uuid): State {
    st.(sessions := st.sessions[s := Entry(uuid, Pending, None)], clusters := st.clusters + {s},
        creating := st.creating + {s})
  }

  function Published(st: State, s: SessionId): State
    requires s in st.sessions
  {
    st.(published := st.published[st.sessions[s].uuid := s], creating := st.creating - {s})
  }

  function Emitted(st: State, s: SessionId): State
    requires s in st.inHand
  {
    st.(queue := st.queue + [st.inHand[s]], sent := st.sent + [st.inHand[s]], inHand := st.inHand - {s})
  }

  function Taken(st: State): State
    requires st.queue != []
  {
    st.(worker := Cleaning(st.queue[0], Upgrade), queue := st.queue[1..])
  }

  function Goto(st: State, c: ConnectionId, conn: Conn): State {
    st.(conns := st.conns[c := conn])
  }

  function Apply(st: State, step: Step): State
    requires Enabled(st, step)
  {
    match step
    case Create(s, uuid) => Created(st, s, uuid)
    case Publish(s) => Published(st, s)
    case Fire(s, reason) => TriggerStep(st, s, reason)
    case Send(s) => Emitted(st, s)
    case Take => Taken(st)
    case WorkerStep(alive) => WorkerNext(st, alive)
    case Open(c, token) => Goto(st, c, Lookup(token))
    case Refuse(c) => Goto(st, c, Rejected)
    case ConnStep(c) => ConnNext(st, c, st.conns[c])
    case Exit(c, reason) => Goto(st, c, ExitConn(st.conns[c].s, st.conns[c].retained, reason))
    case ConnClean(c, alive) => ConnCleanNext(st, c, alive)
  }

  /** The next access of the worker's cleanup. */
  function WorkerNext(st: State, alive: bool): State
    requires st.worker.Cleaning? && st.worker.request.session in st.sessions
  {
    var (next, at) := CleanNext(st, st.worker.request, st.worker.at, alive);
    next.(worker := if at.Some? then Cleaning(st.worker.request, at.value) else Idle)
  }

  /** The next access of the cleanup a socket's exit runs itself. */
  function ConnCleanNext(st: State, c: ConnectionId, alive: bool): State
    requires c in st.conns && st.conns[c].ExitCleaning? && st.conns[c].request.session in st.sessions
  {
    var conn := st.conns[c];
    var (next, at) := CleanNext(st, conn.request, conn.at, alive);
    Goto(next, c, if at.Some? then ExitCleaning(conn.s, conn.retained, conn.request, at.value)
                  else Finishing(conn.s, conn.retained))
  }

  /** The next access of a socket's task to the shared state. */
  function ConnNext(st: State, c: ConnectionId, conn: Conn): State
    requires c in st.conns && (SessionOf(conn).Some? ==> SessionOf(conn).value in st.sessions)
  {
    if Admitting(conn) then AdmitNext(st, c, conn)
    else if Retaining(conn) then RetainNext(st, c, conn)
    else LeaveNext(st, c, conn)
  }

  /** In the download branch of `handle_new_connection`. */
  predicate Admitting(conn: Conn) {
    || conn.Lookup? || conn.Binding? || conn.Finding? || conn.Offline? || conn.Installing?
    || conn.Checking? || conn.Inserting? || conn.Rechecking? || conn.UndoMap? || conn.UndoSender?
  }

  /** In `get_file_download_admission` and the check that follows it. */
  predicate Retaining(conn: Conn) {
    conn.AdmitConn? || conn.AdmitMap? || conn.AdmitState? || conn.AdmitRetain?
  }

  function AdmitNext(st: State, c: ConnectionId, conn: Conn): State
    requires c in st.conns && (SessionOf(conn).Some? ==> SessionOf(conn).value in st.sessions)
  {
    match conn
    case Lookup(token) => Goto(st, c, if token in st.published then Binding(st.published[token]) else Rejected)
    case Binding(s) =>
      var bound := Bind(st.sessions[s].state, c);
      if bound.None? then Goto(st, c, Rejected) else Goto(SetState(st, s, bound.value), c, Finding(s))
    case Finding(s) => Goto(st, c, if s in st.clusters then Installing(s) else Offline(s))
    case Offline(s) => Goto(TriggerStep(st, s, ClusterOffline), c, Rejected)
    case Installing(s) => Goto(SetSender(st, s, Some(c)), c, Checking(s))
    case Checking(s) => Goto(st, c, if st.sessions[s].state == Connected(c) then Inserting(s) else UndoSender(s))
    case Inserting(s) => Goto(st.(connections := st.connections[c := s]), c, Rechecking(s))
    case Rechecking(s) => Goto(st, c, if st.sessions[s].state == Connected(c) then AdmitConn(s) else UndoMap(s))
    case UndoMap(s) => Goto(RemoveExact(st, c, s), c, UndoSender(s))
    case UndoSender(s) => Goto(SetSender(st, s, None), c, Rejected)
    case _ => st
  }

  function RetainNext(st: State, c: ConnectionId, conn: Conn): State
    requires c in st.conns && (SessionOf(conn).Some? ==> SessionOf(conn).value in st.sessions)
  {
    match conn
    case AdmitConn(s) => Goto(st, c, if c in st.connections then AdmitMap(st.connections[c]) else Serving(s, false))
    case AdmitMap(s) =>
      var uuid := st.sessions[s].uuid;
      Goto(st, c, if uuid in st.published then AdmitState(st.published[uuid]) else Serving(s, false))
    case AdmitState(s) =>
      Goto(st, c, if st.sessions[s].state == Connected(c) then AdmitRetain(s) else Serving(s, false))
    case AdmitRetain(s) =>
      var state := st.sessions[s].state;
      Goto(st, c, Serving(s, state.Connected? || state.Closing?))
    case _ => st
  }

  /** `remove_connection` for a download, then the exit guard's completion. */
  function LeaveNext(st: State, c: ConnectionId, conn: Conn): State
    requires c in st.conns && (SessionOf(conn).Some? ==> SessionOf(conn).value in st.sessions)
  {
    match conn
    case ExitConn(s, retained, reason) =>
      Goto(st, c, if c in st.connections then ExitMap(st.connections[c], retained, reason) else Finishing(s, retained))
    case ExitMap(s, retained, reason) =>
      var uuid := st.sessions[s].uuid;
      Goto(st, c, if uuid in st.published then ExitState(st.published[uuid], retained, reason)
                  else Finishing(s, retained))
    case ExitState(s, retained, reason) =>
      Goto(st, c, if st.sessions[s].state == Connected(c) then ExitTrigger(s, retained, reason)
                  else Finishing(s, retained))
    case ExitTrigger(s, retained, reason) =>
      var next := TriggerStep(st, s, reason);
      Goto(next, c, if Left(st.sessions[s].state) then Finishing(s, retained)
                    else ExitSending(s, retained, next.inHand[s]))
    case ExitSending(s, retained, request) => Goto(st, c, ExitCleaning(s, retained, request, Upgrade))
    case Finishing(s, retained) =>
      Goto(if retained then SetState(st, s, Completed(st.sessions[s].state, Some(c))) else st, c, Finished(s, retained))
    case _ => st
  }

  function Run(steps: seq<Step>): Option<State> {
    if steps == [] then Some(Init())
    else
      match Run(steps[..|steps|-1])
      case None => None
      case Some(before) =>
        if Enabled(before, steps[|steps|-1]) then Some(Apply(before, steps[|steps|-1])) else None
  }
}
