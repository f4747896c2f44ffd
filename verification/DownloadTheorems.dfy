/** What every step of the download protocol keeps, and what follows for whole runs. */
module DownloadTheorems {
  import opened Wrappers
  import opened DownloadSession
  import opened DownloadProtocol

  // ----- the invariant

  /** The requests of one session in a log of requests. */
  ghost function RequestsFor(log: seq<Request>, s: SessionId): seq<Request> {
    if log == [] then []
    else
      var last := log[|log|-1];
      RequestsFor(log[..|log|-1], s) + (if last.session == s then [last] else [])
  }

  lemma RequestsForAppend(log: seq<Request>, request: Request, s: SessionId)
    ensures RequestsFor(log + [request], s)
         == RequestsFor(log, s) + (if request.session == s then [request] else [])
  {
    assert (log + [request])[..|log|] == log;
  }

  predicate RequestOk(sessions: map<SessionId, Entry>, request: Request) {
    && request.session in sessions
    && var entry := sessions[request.session];
    && Left(entry.state)
    && request == Request(request.session, entry.uuid, entry.state.bound, entry.state.reason)
  }

  /** A cleanup of `s`, by the worker or by its own connection's exit, is at one of `pcs`. */
  predicate CleanerAt(st: State, s: SessionId, pcs: set<CleanPc>)
    requires s in st.sessions
  {
    || (st.worker.Cleaning? && st.worker.request.session == s && st.worker.at in pcs)
    || var bound := BoundTo(st.sessions[s].state);
       && bound.Some? && bound.value in st.conns
       && st.conns[bound.value].ExitCleaning? && st.conns[bound.value].s == s
       && st.conns[bound.value].at in pcs
  }

  const PAST_GATE: set<CleanPc> := {DropCluster, RemoveConn, CloseSender, ClearSender, CompletePending}

  predicate RequestPending(st: State, s: SessionId) {
    || s in st.inHand
    || (exists i :: 0 <= i < |st.queue| && st.queue[i].session == s)
    || (st.worker.Cleaning? && st.worker.request.session == s
        && st.worker.at in {Upgrade, GetCluster, RemoveSession})
  }

  predicate Installed(conn: Conn, s: SessionId) {
    conn in {Installing(s), Checking(s), Inserting(s), Rechecking(s), UndoMap(s), UndoSender(s)}
  }

  predicate SenderOk(st: State, s: SessionId)
    requires s in st.sessions
  {
    var entry := st.sessions[s];
    entry.sender.Some? ==>
      && BoundTo(entry.state) == entry.sender
      && (|| entry.state.Connected?
          || IsPublished(st, s)
          || (entry.sender.value in st.conns && Installed(st.conns[entry.sender.value], s))
          || CleanerAt(st, s, {DropCluster, RemoveConn, CloseSender}))
  }

  predicate ConnectionOk(st: State, c: ConnectionId)
    requires c in st.connections
  {
    var s := st.connections[c];
    && s in st.sessions
    && BoundTo(st.sessions[s].state) == Some(c)
    && (|| st.sessions[s].state.Connected?
        || IsPublished(st, s)
        || (c in st.conns && st.conns[c] in {Inserting(s), Rechecking(s), UndoMap(s)})
        || CleanerAt(st, s, {DropCluster, RemoveConn}))
  }

  /** Where a session is held, and who is responsible for taking it out. */
  predicate HoldersOk(st: State, s: SessionId)
    requires s in st.sessions
  {
    var entry := st.sessions[s];
    && (entry.uuid in st.published ==> st.published[entry.uuid] == s)
    && (s in st.creating ==> entry.state.Pending? && s in st.clusters && !IsPublished(st, s))
    && (IsPublished(st, s) ==> s in st.clusters)
    && (Left(entry.state) && IsPublished(st, s) ==> RequestPending(st, s))
    && (!IsPublished(st, s) && s !in st.creating ==>
          && Left(entry.state)
          && (s in st.clusters ==> CleanerAt(st, s, {DropCluster})))
    && (CleanerAt(st, s, PAST_GATE) ==> !IsPublished(st, s) && s !in st.creating)
    && (entry.state.Closing? && entry.state.bound.None? && !IsPublished(st, s) && s !in st.creating ==>
          CleanerAt(st, s, {DropCluster, ClearSender, CompletePending}))
  }

  predicate BoundOk(st: State, s: SessionId)
    requires s in st.sessions
  {
    var bound := BoundTo(st.sessions[s].state);
    bound.Some? ==>
      && bound.value in st.conns
      && var conn := st.conns[bound.value];
      && !conn.Lookup? && !conn.Binding?
      && (conn.Rejected? || SessionOf(conn) == Some(s))
      && (st.sessions[s].state.Closed? ==> conn == Finishing(s, true) || conn == Finished(s, true))
  }

  /** The request a session has emitted so far, sent or in hand, and its teardowns. */
  ghost predicate HistoryOk(st: State, s: SessionId)
    requires s in st.sessions
  {
    var entry := st.sessions[s];
    && RequestsFor(st.sent, s) + (if s in st.inHand then [st.inHand[s]] else [])
    == (if Left(entry.state) then [Request(s, entry.uuid, entry.state.bound, entry.state.reason)] else [])
    && multiset(st.torn)[s] == (if IsPublished(st, s) || s in st.creating then 0 else 1)
  }

  /** An admitted connection can be reached for as long as its session has not left `Connected`. */
  predicate Reachable(sessions: map<SessionId, Entry>, connections: map<ConnectionId, SessionId>,
                      c: ConnectionId, s: SessionId)
    requires s in sessions
  {
    Left(sessions[s].state) || (sessions[s].sender == Some(c) && c in connections && connections[c] == s)
  }

  /** What the place of a socket's task says about the session it holds. */
  predicate TaskOk(sessions: map<SessionId, Entry>, creating: set<SessionId>,
                   connections: map<ConnectionId, SessionId>, c: ConnectionId, conn: Conn)
  {
    SessionOf(conn).Some? ==>
      && var s := conn.s;
      && s in sessions
      && var state := sessions[s].state;
      && (if conn.Binding? then s !in creating else BoundTo(state) == Some(c))
      && (match conn
          case Checking(_) => Left(state) || sessions[s].sender == Some(c)
          case Inserting(_) => Left(state) || sessions[s].sender == Some(c)
          case UndoMap(_) => Left(state)
          case UndoSender(_) => Left(state)
          case ExitSending(_, _, request) => RequestOk(sessions, request) && request.session == s
          case ExitCleaning(_, _, request, at) =>
            RequestOk(sessions, request) && request.session == s && CleanerOk(request, at)
          case Finishing(_, _) => Left(state)
          case Finished(_, retained) => Left(state) && (retained ==> state.Closed?)
          case _ => Admitted(conn) ==> Reachable(sessions, connections, c, s))
  }

  /** Past the second insertion, up to the exit's own trigger. */
  predicate Admitted(conn: Conn) {
    || conn.Rechecking? || Retaining(conn) || conn.Serving?
    || conn.ExitConn? || conn.ExitMap? || conn.ExitState? || conn.ExitTrigger?
  }

  predicate ConnOk(st: State, c: ConnectionId)
    requires c in st.conns
  {
    TaskOk(st.sessions, st.creating, st.connections, c, st.conns[c])
  }

  predicate CleanerOk(request: Request, at: CleanPc) {
    && (at in {RemoveConn, CloseSender} ==> request.conn.Some?)
    && (at in {ClearSender, CompletePending} ==> request.conn.None?)
  }

  predicate RequestsOk(st: State) {
    && (forall i :: 0 <= i < |st.queue| ==> RequestOk(st.sessions, st.queue[i]))
    && (st.worker.Cleaning? ==>
          RequestOk(st.sessions, st.worker.request) && CleanerOk(st.worker.request, st.worker.at))
    && (forall s :: s in st.inHand ==> RequestOk(st.sessions, st.inHand[s]) && st.inHand[s].session == s)
  }

  predicate KeysOk(st: State) {
    && st.clusters <= st.sessions.Keys
    && st.creating <= st.sessions.Keys
    && (forall u :: u in st.published ==>
          st.published[u] in st.sessions && st.sessions[st.published[u]].uuid == u)
    && (forall s, t :: s in st.sessions && t in st.sessions && st.sessions[s].uuid == st.sessions[t].uuid ==> s == t)
  }

  ghost predicate FreshHistory(st: State) {
    forall s: SessionId :: s !in st.sessions ==> RequestsFor(st.sent, s) == [] && multiset(st.torn)[s] == 0
  }

  ghost predicate BaseOk(st: State) {
    KeysOk(st) && RequestsOk(st) && FreshHistory(st)
  }

  ghost predicate SessionOk(st: State, s: SessionId)
    requires s in st.sessions
  {
    SenderOk(st, s) && HoldersOk(st, s) && BoundOk(st, s) && HistoryOk(st, s)
  }

  ghost predicate Inv(st: State) {
    && BaseOk(st)
    && (forall s :: s in st.sessions ==> SessionOk(st, s))
    && (forall c :: c in st.connections ==> ConnectionOk(st, c))
    && (forall c :: c in st.conns ==> ConnOk(st, c))
  }

  // ----- sessions only move forward

  /** Nothing is forgotten and every session has only moved forward. */
  predicate Later(before: map<SessionId, Entry>, after: map<SessionId, Entry>) {
    forall s :: s in before ==>
      s in after && after[s].uuid == before[s].uuid && Advances(before[s].state, after[s].state)
  }

  lemma LaterTransitive(a: map<SessionId, Entry>, b: map<SessionId, Entry>, c: map<SessionId, Entry>)
    requires Later(a, b) && Later(b, c)
    ensures Later(a, c)
  {
    forall s | s in a ensures s in c && c[s].uuid == a[s].uuid && Advances(a[s].state, c[s].state) {
      AdvancesTransitive(a[s].state, b[s].state, c[s].state);
    }
  }

  lemma CleanAdvances(st: State, request: Request, at: CleanPc, alive: bool)
    requires request.session in st.sessions
    ensures Later(st.sessions, CleanNext(st, request, at, alive).0.sessions)
  {
  }

  lemma EntryAdvances(sessions: map<SessionId, Entry>, s: SessionId, entry: Entry)
    requires s in sessions && entry.uuid == sessions[s].uuid && Advances(sessions[s].state, entry.state)
    ensures Later(sessions, sessions[s := entry])
  {
  }

  lemma SameAdvances(sessions: map<SessionId, Entry>)
    ensures Later(sessions, sessions)
  {
  }

  lemma AdmitAdvances(st: State, c: ConnectionId)
    requires Enabled(st, ConnStep(c)) && Admitting(st.conns[c])
    ensures Later(st.sessions, AdmitNext(st, c, st.conns[c]).sessions)
  {
    hide RetainNext, LeaveNext, ConnNext, Later, TriggerStep;
    SameAdvances(st.sessions);
    match st.conns[c] {
      case Binding(s) =>
        if st.sessions[s].state.Pending? {
          EntryAdvances(st.sessions, s, st.sessions[s].(state := Connected(c)));
        }
      case Offline(s) =>
        TriggerShape(st, s, ClusterOffline);
        EntryAdvances(st.sessions, s, TriggerStep(st, s, ClusterOffline).sessions[s]);
      case Installing(s) => EntryAdvances(st.sessions, s, st.sessions[s].(sender := Some(c)));
      case UndoSender(s) => EntryAdvances(st.sessions, s, st.sessions[s].(sender := None));
      case _ =>
    }
  }

  lemma LeaveAdvances(st: State, c: ConnectionId)
    requires Enabled(st, ConnStep(c))
    ensures Later(st.sessions, LeaveNext(st, c, st.conns[c]).sessions)
  {
    hide RetainNext, AdmitNext, ConnNext, Later, TriggerStep;
    SameAdvances(st.sessions);
    match st.conns[c] {
      case ExitTrigger(s, _, reason) =>
        TriggerShape(st, s, reason);
        EntryAdvances(st.sessions, s, TriggerStep(st, s, reason).sessions[s]);
      case Finishing(s, _) =>
        EntryAdvances(st.sessions, s, st.sessions[s].(state := Completed(st.sessions[s].state, Some(c))));
      case _ =>
    }
  }

  lemma StepAdvances(st: State, step: Step)
    requires Enabled(st, step)
    ensures Later(st.sessions, Apply(st, step).sessions)
  {
    hide CleanNext, AdmitNext, LeaveNext;
    match step
    case ConnStep(c) =>
      if Admitting(st.conns[c]) {
        AdmitAdvances(st, c);
      } else if !Retaining(st.conns[c]) {
        LeaveAdvances(st, c);
      }
    case WorkerStep(alive) => CleanAdvances(st, st.worker.request, st.worker.at, alive);
    case ConnClean(c, alive) => CleanAdvances(st, st.conns[c].request, st.conns[c].at, alive);
    case _ =>
  }

  // ----- one access at a time keeps the invariant

  /** What a task may leave behind when it moves on from `s`. */
  predicate Handover(st: State, c: ConnectionId, s: SessionId, next: Conn)
    requires c in st.conns && s in st.sessions
  {
    var conn := st.conns[c];
    var entry := st.sessions[s];
    && !next.Lookup? && !next.Binding? && (next.Rejected? || SessionOf(next) == Some(s))
    && !conn.Finished? && (conn == Finishing(s, true) ==> next == Finished(s, true))
    && (Installed(conn, s) && !Installed(next, s) ==> entry.sender.None? || entry.state.Connected?)
    && (conn in {Inserting(s), Rechecking(s), UndoMap(s)} && next !in {Inserting(s), Rechecking(s), UndoMap(s)}
        ==> entry.state.Connected? || c !in st.connections || st.connections[c] != s)
    && (next.ExitCleaning? && next.at in PAST_GATE ==> !IsPublished(st, s) && s !in st.creating)
    && (conn.ExitCleaning? ==> Released(st, s, conn.at, if next.ExitCleaning? then Some(next.at) else None))
  }

  /** A cleaner leaves `at` only once the access made there has done its part. */
  predicate Released(st: State, s: SessionId, at: CleanPc, next: Option<CleanPc>)
    requires s in st.sessions
  {
    next != Some(at) ==>
      (match at
       case DropCluster =>
         && s !in st.clusters
         && next == Some(if BoundTo(st.sessions[s].state).Some? then RemoveConn else ClearSender)
       case RemoveConn => (forall c :: c in st.connections ==> st.connections[c] != s) && next == Some(CloseSender)
       case CloseSender => st.sessions[s].sender.None?
       case ClearSender => next == Some(CompletePending)
       case CompletePending => st.sessions[s].state.Closing? ==> st.sessions[s].state.bound.Some?
       case _ => !IsPublished(st, s) || next in {Some(GetCluster), Some(RemoveSession)})
  }

  lemma MoveKeepsSession(st: State, c: ConnectionId, next: Conn, t: SessionId)
    requires c in st.conns && !st.conns[c].Rejected? && t in st.sessions && SessionOk(st, t)
    requires SessionOf(st.conns[c]).Some? ==> st.conns[c].s in st.sessions
    requires SessionOf(st.conns[c]).Some? && !st.conns[c].Binding? ==> Handover(st, c, st.conns[c].s, next)
    ensures SessionOk(Goto(st, c, next), t)
  {
    hide RequestsFor, TaskOk;
  }

  lemma MoveKeepsConnection(st: State, c: ConnectionId, next: Conn, d: ConnectionId)
    requires c in st.conns && !st.conns[c].Rejected? && d in st.connections && ConnectionOk(st, d)
    requires SessionOk(st, st.connections[d])
    requires SessionOf(st.conns[c]).Some? ==> st.conns[c].s in st.sessions
    requires SessionOf(st.conns[c]).Some? && !st.conns[c].Binding? ==> Handover(st, c, st.conns[c].s, next)
    ensures ConnectionOk(Goto(st, c, next), d)
  {
    hide RequestsFor, TaskOk;
  }

  lemma MoveKeeps(st: State, c: ConnectionId, next: Conn)
    requires Inv(st) && c in st.conns && !st.conns[c].Rejected?
    requires ConnOk(Goto(st, c, next), c)
    requires SessionOf(st.conns[c]).Some? ==> st.conns[c].s in st.sessions
    requires SessionOf(st.conns[c]).Some? && !st.conns[c].Binding? ==> Handover(st, c, st.conns[c].s, next)
    ensures Inv(Goto(st, c, next))
  {
    hide SessionOk, ConnectionOk, TaskOk, RequestsFor, Handover;
    var after := Goto(st, c, next);
    forall t | t in after.sessions ensures SessionOk(after, t) {
      MoveKeepsSession(st, c, next, t);
    }
    forall d | d in after.connections ensures ConnectionOk(after, d) {
      ConnectionInSessions(st, d);
      MoveKeepsConnection(st, c, next, d);
    }
  }

  lemma ConnectionInSessions(st: State, d: ConnectionId)
    requires d in st.connections && ConnectionOk(st, d)
    ensures st.connections[d] in st.sessions
  {
  }

  predicate WorkerHandover(st: State, next: Worker)
    requires st.worker.Cleaning?
  {
    var s := st.worker.request.session;
    && s in st.sessions
    && Released(st, s, st.worker.at, if next.Cleaning? then Some(next.at) else None)
    && (next.Cleaning? ==>
          && next.request == st.worker.request
          && RequestOk(st.sessions, next.request) && CleanerOk(next.request, next.at)
          && (next.at in PAST_GATE ==> !IsPublished(st, s) && s !in st.creating))
  }

  lemma WorkerMoveKeepsSession(st: State, next: Worker, t: SessionId)
    requires st.worker.Cleaning? && WorkerHandover(st, next) && t in st.sessions && SessionOk(st, t)
    requires RequestOk(st.sessions, st.worker.request) && CleanerOk(st.worker.request, st.worker.at)
    ensures SessionOk(st.(worker := next), t)
  {
    hide RequestsFor, TaskOk;
  }

  lemma WorkerMoveKeepsConnection(st: State, next: Worker, d: ConnectionId)
    requires st.worker.Cleaning? && WorkerHandover(st, next) && d in st.connections && ConnectionOk(st, d)
    ensures ConnectionOk(st.(worker := next), d)
  {
  }

  lemma WorkerMoveKeeps(st: State, next: Worker)
    requires Inv(st) && st.worker.Cleaning? && WorkerHandover(st, next)
    ensures Inv(st.(worker := next))
  {
    hide SessionOk, ConnectionOk, TaskOk, RequestsFor;
    var after := st.(worker := next);
    forall t | t in after.sessions ensures SessionOk(after, t) {
      WorkerMoveKeepsSession(st, next, t);
    }
    forall d | d in after.connections ensures ConnectionOk(after, d) {
      WorkerMoveKeepsConnection(st, next, d);
    }
  }

  lemma EntryKeepsConnection(st: State, s: SessionId, entry: Entry, inHand: map<SessionId, Request>, d: ConnectionId)
    requires s in st.sessions && d in st.connections && ConnectionOk(st, d)
    requires entry.uuid == st.sessions[s].uuid && Advances(st.sessions[s].state, entry.state)
    requires entry.state != st.sessions[s].state && !Left(st.sessions[s].state) ==> IsPublished(st, s)
    ensures ConnectionOk(st.(sessions := st.sessions[s := entry], inHand := inHand), d)
  {
  }

  lemma EntryKeepsTask(st: State, s: SessionId, entry: Entry, d: ConnectionId, conn: Conn)
    requires s in st.sessions && TaskOk(st.sessions, st.creating, st.connections, d, conn)
    requires entry.uuid == st.sessions[s].uuid && Advances(st.sessions[s].state, entry.state)
    requires entry.sender == st.sessions[s].sender || Left(entry.state) || entry.sender == Some(d)
             || BoundTo(st.sessions[s].state) != Some(d)
    ensures TaskOk(st.sessions[s := entry], st.creating, st.connections, d, conn)
  {
  }

  lemma EntryKeepsRequests(st: State, s: SessionId, entry: Entry)
    requires s in st.sessions && RequestsOk(st)
    requires entry.uuid == st.sessions[s].uuid && Advances(st.sessions[s].state, entry.state)
    ensures RequestsOk(st.(sessions := st.sessions[s := entry]))
  {
  }

  lemma SenderKeepsSession(st: State, s: SessionId, sender: Option<ConnectionId>, t: SessionId)
    requires s in st.sessions && t in st.sessions && SessionOk(st, t)
    requires sender.Some? ==> sender.value in st.conns && st.conns[sender.value] == Installing(s)
                              && BoundTo(st.sessions[s].state) == sender
    ensures SessionOk(SetSender(st, s, sender), t)
  {
    hide RequestsFor;
  }

  /** Setting a sender: at installation, or clearing it once the session has left `Connected`. */
  lemma SenderKeeps(st: State, s: SessionId, sender: Option<ConnectionId>)
    requires Inv(st) && s in st.sessions
    requires if sender.None? then Left(st.sessions[s].state)
             else sender.value in st.conns && st.conns[sender.value] == Installing(s)
    ensures Inv(SetSender(st, s, sender))
  {
    hide SessionOk, ConnectionOk, RequestsFor;
    var after := SetSender(st, s, sender);
    var entry := after.sessions[s];
    assert sender.Some? ==> BoundTo(st.sessions[s].state) == sender by {
      assert sender.Some? ==> ConnOk(st, sender.value);
    }
    hide TaskOk;
    EntryKeepsRequests(st, s, entry);
    forall t | t in after.sessions ensures SessionOk(after, t) {
      SenderKeepsSession(st, s, sender, t);
    }
    forall d | d in after.connections ensures ConnectionOk(after, d) {
      EntryKeepsConnection(st, s, entry, st.inHand, d);
    }
    forall d | d in after.conns ensures ConnOk(after, d) {
      assert ConnOk(st, d);
      EntryKeepsTask(st, s, entry, d, st.conns[d]);
    }
  }

  lemma TriggerKeepsSession(st: State, s: SessionId, reason: Reason, t: SessionId)
    requires s in st.sessions && s !in st.creating && t in st.sessions && SessionOk(st, t)
    ensures SessionOk(TriggerStep(st, s, reason), t)
  {
    hide RequestsFor;
  }

  lemma PublishedWhileOpen(st: State, s: SessionId)
    requires s in st.sessions && s !in st.creating && SessionOk(st, s)
    ensures !Left(st.sessions[s].state) ==> IsPublished(st, s)
    ensures !Left(st.sessions[s].state) ==> s !in st.inHand
  {
  }

  /** A trigger from anywhere: the session is still published, so its request is now outstanding. */
  lemma TriggerKeeps(st: State, s: SessionId, reason: Reason)
    requires Inv(st) && s in st.sessions && s !in st.creating
    ensures Inv(TriggerStep(st, s, reason))
  {
    hide SessionOk, ConnectionOk, RequestsFor, TaskOk, IsPublished, TriggerStep;
    TriggerShape(st, s, reason);
    PublishedWhileOpen(st, s);
    var after := TriggerStep(st, s, reason);
    var entry := after.sessions[s];
    EntryKeepsRequests(st, s, entry);
    forall t | t in after.sessions ensures SessionOk(after, t) {
      TriggerKeepsSession(st, s, reason, t);
    }
    forall d | d in after.connections ensures ConnectionOk(after, d) {
      EntryKeepsConnection(st, s, entry, after.inHand, d);
    }
    forall d | d in after.conns ensures ConnOk(after, d) {
      assert ConnOk(st, d);
      EntryKeepsTask(st, s, entry, d, st.conns[d]);
    }
  }

  lemma TriggerShape(st: State, s: SessionId, reason: Reason)
    requires s in st.sessions
    ensures var after := TriggerStep(st, s, reason);
      && s in after.sessions && Left(after.sessions[s].state)
      && var entry := after.sessions[s];
      && after == st.(sessions := st.sessions[s := entry], inHand := after.inHand)
      && entry == st.sessions[s].(state := entry.state)
      && Advances(st.sessions[s].state, entry.state)
      && (Left(st.sessions[s].state) ==> after == st)
      && (!Left(st.sessions[s].state) ==>
            after.inHand == st.inHand[s := Request(s, entry.uuid, entry.state.bound, entry.state.reason)])
  {
    var entry := TriggerStep(st, s, reason).sessions[s];
    assert st.sessions[s := entry] == TriggerStep(st, s, reason).sessions;
  }

  lemma CompleteKeepsSession(st: State, s: SessionId, bound: Option<ConnectionId>, t: SessionId)
    requires s in st.sessions && t in st.sessions && SessionOk(st, t)
    requires bound.Some? ==> bound.value in st.conns && st.conns[bound.value] == Finishing(s, true)
    ensures SessionOk(SetState(st, s, Completed(st.sessions[s].state, bound)), t)
  {
    hide RequestsFor;
  }

  lemma CompleteKeeps(st: State, s: SessionId, bound: Option<ConnectionId>)
    requires Inv(st) && s in st.sessions
    requires bound.Some? ==> bound.value in st.conns && st.conns[bound.value] == Finishing(s, true)
    ensures Inv(SetState(st, s, Completed(st.sessions[s].state, bound)))
  {
    hide SessionOk, ConnectionOk, RequestsFor, TaskOk;
    var after := SetState(st, s, Completed(st.sessions[s].state, bound));
    var entry := after.sessions[s];
    EntryKeepsRequests(st, s, entry);
    forall t | t in after.sessions ensures SessionOk(after, t) {
      CompleteKeepsSession(st, s, bound, t);
    }
    forall d | d in after.connections ensures ConnectionOk(after, d) {
      EntryKeepsConnection(st, s, entry, st.inHand, d);
    }
    forall d | d in after.conns ensures ConnOk(after, d) {
      assert ConnOk(st, d);
      EntryKeepsTask(st, s, entry, d, st.conns[d]);
    }
  }

  lemma InsertKeepsTask(st: State, c: ConnectionId, s: SessionId, d: ConnectionId, conn: Conn)
    requires TaskOk(st.sessions, st.creating, st.connections, d, conn)
    requires d == c ==> conn == Inserting(s)
    ensures TaskOk(st.sessions, st.creating, st.connections[c := s], d, conn)
  {
  }

  /** Sessions are judged without looking at `connection_map`. */
  lemma SessionFrame(st: State, connections: map<ConnectionId, SessionId>, t: SessionId)
    requires t in st.sessions && SessionOk(st, t)
    ensures SessionOk(st.(connections := connections), t)
  {
    hide RequestsFor;
  }

  lemma ConnectionFrame(st: State, connections: map<ConnectionId, SessionId>, d: ConnectionId)
    requires d in connections && d in st.connections && connections[d] == st.connections[d] && ConnectionOk(st, d)
    ensures ConnectionOk(st.(connections := connections), d)
  {
  }

  lemma InsertKeeps(st: State, c: ConnectionId, s: SessionId)
    requires Inv(st) && c in st.conns && st.conns[c] == Inserting(s)
    ensures Inv(st.(connections := st.connections[c := s]))
  {
    hide SessionOk, RequestsFor;
    var after := st.(connections := st.connections[c := s]);
    assert ConnOk(st, c);
    assert ConnectionOk(after, c);
    hide TaskOk, ConnectionOk;
    forall d | d in after.connections ensures ConnectionOk(after, d) {
      if d != c {
        ConnectionFrame(st, after.connections, d);
      }
    }
    forall t | t in after.sessions ensures SessionOk(after, t) {
      SessionFrame(st, after.connections, t);
    }
    forall d | d in after.conns ensures ConnOk(after, d) {
      assert ConnOk(st, d);
      InsertKeepsTask(st, c, s, d, st.conns[d]);
    }
  }

  lemma RemoveKeepsTask(st: State, c: ConnectionId, s: SessionId, d: ConnectionId, conn: Conn)
    requires TaskOk(st.sessions, st.creating, st.connections, d, conn)
    requires d == c && SessionOf(conn).Some? && !conn.Binding? && conn.s in st.sessions
             ==> Left(st.sessions[conn.s].state)
    ensures TaskOk(st.sessions, st.creating, st.connections - {c}, d, conn)
  {
  }

  /** Only the socket a connection belongs to holds its session. */
  lemma HolderOf(st: State, c: ConnectionId)
    requires c in st.connections && ConnectionOk(st, c) && SessionOk(st, st.connections[c])
    ensures c in st.conns && !st.conns[c].Lookup? && !st.conns[c].Binding?
    ensures SessionOf(st.conns[c]).Some? ==> st.conns[c].s == st.connections[c]
  {
    hide RequestsFor;
  }

  /** The exact removal of a connection whose session has left `Connected`. */
  lemma RemoveKeeps(st: State, c: ConnectionId, s: SessionId)
    requires Inv(st) && s in st.sessions && Left(st.sessions[s].state)
    ensures Inv(RemoveExact(st, c, s))
  {
    hide SessionOk, ConnectionOk, TaskOk, RequestsFor;
    var after := RemoveExact(st, c, s);
    if after != st {
      ConnectionInSessions(st, c);
      HolderOf(st, c);
      forall d | d in after.connections ensures ConnectionOk(after, d) {
        ConnectionFrame(st, after.connections, d);
      }
      forall t | t in after.sessions ensures SessionOk(after, t) {
        SessionFrame(st, after.connections, t);
      }
      forall d | d in after.conns ensures ConnOk(after, d) {
        assert ConnOk(st, d);
        RemoveKeepsTask(st, c, s, d, st.conns[d]);
      }
    }
  }

  lemma DropKeepsSession(st: State, s: SessionId, t: SessionId)
    requires s in st.sessions && !IsPublished(st, s) && s !in st.creating
    requires t in st.sessions && SessionOk(st, t)
    ensures SessionOk(st.(clusters := st.clusters - {s}), t)
  {
    hide RequestsFor;
  }

  lemma ClustersFrame(st: State, clusters: set<SessionId>, d: ConnectionId)
    requires d in st.connections && ConnectionOk(st, d)
    ensures ConnectionOk(st.(clusters := clusters), d)
  {
  }

  lemma DropKeeps(st: State, s: SessionId)
    requires Inv(st) && s in st.sessions && !IsPublished(st, s) && s !in st.creating
    ensures Inv(st.(clusters := st.clusters - {s}))
  {
    hide SessionOk, ConnectionOk, RequestsFor, TaskOk;
    var after := st.(clusters := st.clusters - {s});
    forall t | t in after.sessions ensures SessionOk(after, t) {
      DropKeepsSession(st, s, t);
    }
    forall d | d in after.connections ensures ConnectionOk(after, d) {
      ClustersFrame(st, after.clusters, d);
    }
  }

  // ----- passing the removal gate

  /** A cleaner of `s`, the worker or the exit of connection `cleaner`, stands before the removal gate. */
  predicate AtGate(st: State, s: SessionId, cleaner: Option<ConnectionId>) {
    && s in st.sessions
    && match cleaner
       case None => st.worker.Cleaning? && st.worker.request.session == s && st.worker.at == RemoveSession
       case Some(c) =>
         && c in st.conns && st.conns[c].ExitCleaning? && st.conns[c].s == s && st.conns[c].at == RemoveSession
         && BoundTo(st.sessions[s].state) == Some(c)
  }

  /** The cleaner that wins the gate is at `DropCluster` when the session disappears from the map. */
  function PassGate(st: State, s: SessionId, cleaner: Option<ConnectionId>): State
    requires AtGate(st, s, cleaner)
  {
    var next := st.(published := st.published - {st.sessions[s].uuid}, torn := st.torn + [s]);
    match cleaner
    case None => next.(worker := Cleaning(st.worker.request, DropCluster))
    case Some(c) => Goto(next, c, st.conns[c].(at := DropCluster))
  }

  lemma GateLeavesCleaners(st: State, s: SessionId, cleaner: Option<ConnectionId>, t: SessionId, pcs: set<CleanPc>)
    requires AtGate(st, s, cleaner) && t != s && t in st.sessions && BoundOk(st, t)
    ensures CleanerAt(PassGate(st, s, cleaner), t, pcs) == CleanerAt(st, t, pcs)
    ensures RequestPending(PassGate(st, s, cleaner), t) == RequestPending(st, t)
  {
  }

  lemma GateLeavesHolders(st: State, s: SessionId, cleaner: Option<ConnectionId>, t: SessionId)
    requires AtGate(st, s, cleaner) && t != s && t in st.sessions && BoundOk(st, t) && HoldersOk(st, t)
    requires st.sessions[t].uuid != st.sessions[s].uuid
    ensures HoldersOk(PassGate(st, s, cleaner), t)
  {
    GateLeavesCleaners(st, s, cleaner, t, {DropCluster});
    GateLeavesCleaners(st, s, cleaner, t, {DropCluster, ClearSender, CompletePending});
    GateLeavesCleaners(st, s, cleaner, t, PAST_GATE);
    hide CleanerAt, RequestPending, BoundOk;
  }

  lemma TornAppend(torn: seq<SessionId>, s: SessionId, t: SessionId)
    ensures multiset(torn + [s])[t] == multiset(torn)[t] + (if s == t then 1 else 0)
  {
  }

  lemma GateKeepsHistory(st: State, s: SessionId, cleaner: Option<ConnectionId>, t: SessionId)
    requires AtGate(st, s, cleaner) && t in st.sessions && HistoryOk(st, t) && Left(st.sessions[s].state)
    requires t == s ==> IsPublished(st, s) && s !in st.creating
    requires t != s ==> st.sessions[t].uuid != st.sessions[s].uuid
    ensures HistoryOk(PassGate(st, s, cleaner), t)
  {
    hide RequestsFor;
    TornAppend(st.torn, s, t);
  }

  lemma GateLeavesSender(st: State, s: SessionId, cleaner: Option<ConnectionId>, t: SessionId)
    requires AtGate(st, s, cleaner) && t != s && t in st.sessions && SenderOk(st, t) && BoundOk(st, t)
    requires st.sessions[t].uuid != st.sessions[s].uuid
    ensures SenderOk(PassGate(st, s, cleaner), t) && BoundOk(PassGate(st, s, cleaner), t)
  {
    GateLeavesCleaners(st, s, cleaner, t, {DropCluster, RemoveConn, CloseSender});
    hide CleanerAt;
  }

  lemma GateKeepsOther(st: State, s: SessionId, cleaner: Option<ConnectionId>, t: SessionId)
    requires AtGate(st, s, cleaner) && t != s && t in st.sessions && SessionOk(st, t) && Left(st.sessions[s].state)
    requires st.sessions[t].uuid != st.sessions[s].uuid
    ensures SessionOk(PassGate(st, s, cleaner), t)
  {
    hide HoldersOk, SenderOk, BoundOk, HistoryOk, AtGate;
    GateLeavesHolders(st, s, cleaner, t);
    GateLeavesSender(st, s, cleaner, t);
    GateKeepsHistory(st, s, cleaner, t);
  }

  lemma GateKeepsOwn(st: State, s: SessionId, cleaner: Option<ConnectionId>)
    requires AtGate(st, s, cleaner) && IsPublished(st, s) && Left(st.sessions[s].state) && SessionOk(st, s)
    ensures SessionOk(PassGate(st, s, cleaner), s)
  {
    GateKeepsHistory(st, s, cleaner, s);
    hide HistoryOk;
  }

  lemma GateKeepsSession(st: State, s: SessionId, cleaner: Option<ConnectionId>, t: SessionId)
    requires AtGate(st, s, cleaner) && IsPublished(st, s) && Left(st.sessions[s].state)
    requires t in st.sessions && SessionOk(st, t) && SessionOk(st, s) && KeysOk(st)
    ensures SessionOk(PassGate(st, s, cleaner), t)
  {
    hide SessionOk;
    if t == s {
      GateKeepsOwn(st, s, cleaner);
    } else {
      assert st.sessions[t].uuid != st.sessions[s].uuid;
      GateKeepsOther(st, s, cleaner, t);
    }
  }

  lemma GateKeepsConnection(st: State, s: SessionId, cleaner: Option<ConnectionId>, d: ConnectionId)
    requires AtGate(st, s, cleaner) && IsPublished(st, s) && Left(st.sessions[s].state) && KeysOk(st)
    requires d in st.connections && ConnectionOk(st, d)
    ensures ConnectionOk(PassGate(st, s, cleaner), d)
  {
    var t := st.connections[d];
    assert t != s ==> st.sessions[t].uuid != st.sessions[s].uuid;
  }

  lemma GateKeepsBase(st: State, s: SessionId, cleaner: Option<ConnectionId>)
    requires AtGate(st, s, cleaner) && BaseOk(st)
    ensures BaseOk(PassGate(st, s, cleaner))
  {
    hide RequestsFor, RequestOk;
    assert forall t :: multiset(st.torn + [s])[t] == multiset(st.torn)[t] + (if s == t then 1 else 0);
  }

  lemma GateKeeps(st: State, s: SessionId, cleaner: Option<ConnectionId>)
    requires Inv(st) && AtGate(st, s, cleaner) && IsPublished(st, s) && Left(st.sessions[s].state)
    ensures Inv(PassGate(st, s, cleaner))
  {
    hide SessionOk, ConnectionOk, BaseOk, ConnOk;
    var after := PassGate(st, s, cleaner);
    assert KeysOk(st) by { BaseParts(st); }
    GateKeepsBase(st, s, cleaner);
    forall t | t in after.sessions ensures SessionOk(after, t) {
      GateKeepsSession(st, s, cleaner, t);
    }
    forall d | d in after.connections ensures ConnectionOk(after, d) {
      GateKeepsConnection(st, s, cleaner, d);
    }
    forall d | d in after.conns ensures ConnOk(after, d) {
      GateKeepsTask(st, s, cleaner, d);
    }
  }

  lemma BaseParts(st: State)
    requires BaseOk(st)
    ensures KeysOk(st) && RequestsOk(st) && FreshHistory(st)
  {
  }

  lemma GateKeepsTask(st: State, s: SessionId, cleaner: Option<ConnectionId>, d: ConnectionId)
    requires AtGate(st, s, cleaner) && d in st.conns && ConnOk(st, d)
    ensures ConnOk(PassGate(st, s, cleaner), d)
  {
  }

  // ----- creation and the request channel

  lemma CreateKeepsOther(st: State, s: SessionId, uuid: Uuid, t: SessionId)
    requires Creatable(st, s, uuid) && t in st.sessions && SessionOk(st, t)
    ensures SessionOk(Created(st, s, uuid), t)
  {
    hide RequestsFor;
  }

  lemma CreateMakes(st: State, s: SessionId, uuid: Uuid)
    requires Creatable(st, s, uuid) && BaseOk(st) && s !in st.inHand
    ensures SessionOk(Created(st, s, uuid), s)
  {
    hide RequestsFor;
  }

  lemma CreateKeepsSession(st: State, s: SessionId, uuid: Uuid, t: SessionId)
    requires Creatable(st, s, uuid) && BaseOk(st) && s !in st.inHand
    requires t in st.sessions ==> SessionOk(st, t)
    requires t in st.sessions || t == s
    ensures SessionOk(Created(st, s, uuid), t)
  {
    hide SessionOk, BaseOk;
    if t == s {
      CreateMakes(st, s, uuid);
    } else {
      CreateKeepsOther(st, s, uuid, t);
    }
  }

  lemma CreateKeepsConnection(st: State, s: SessionId, uuid: Uuid, d: ConnectionId)
    requires Creatable(st, s, uuid) && d in st.connections && ConnectionOk(st, d)
    ensures ConnectionOk(Created(st, s, uuid), d)
  {
  }

  lemma CreateKeepsTask(st: State, s: SessionId, entry: Entry, d: ConnectionId, conn: Conn)
    requires s !in st.sessions && TaskOk(st.sessions, st.creating, st.connections, d, conn)
    ensures TaskOk(st.sessions[s := entry], st.creating + {s}, st.connections, d, conn)
  {
  }

  lemma CreateKeepsBase(st: State, s: SessionId, uuid: Uuid)
    requires Creatable(st, s, uuid) && BaseOk(st)
    ensures BaseOk(Created(st, s, uuid)) && s !in st.inHand
  {
    hide RequestsFor;
  }

  lemma CreateKeeps(st: State, s: SessionId, uuid: Uuid)
    requires Inv(st) && Creatable(st, s, uuid)
    ensures Inv(Created(st, s, uuid))
  {
    hide SessionOk, ConnectionOk, BaseOk, TaskOk, Creatable;
    var after := Created(st, s, uuid);
    BaseParts(st);
    CreateKeepsBase(st, s, uuid);
    assert s !in st.sessions by { CreatableFresh(st, s, uuid); }
    forall t | t in after.sessions ensures SessionOk(after, t) {
      CreateKeepsSession(st, s, uuid, t);
    }
    forall d | d in after.connections ensures ConnectionOk(after, d) {
      CreateKeepsConnection(st, s, uuid, d);
    }
    forall d | d in after.conns ensures ConnOk(after, d) {
      assert ConnOk(st, d);
      CreateKeepsTask(st, s, Entry(uuid, Pending, None), d, st.conns[d]);
    }
  }

  lemma CreatableFresh(st: State, s: SessionId, uuid: Uuid)
    requires Creatable(st, s, uuid)
    ensures s !in st.sessions
  {
  }

  lemma PublishKeepsSession(st: State, s: SessionId, t: SessionId)
    requires s in st.sessions && s in st.creating && KeysOk(st)
    requires t in st.sessions && SessionOk(st, t) && SessionOk(st, s)
    ensures SessionOk(Published(st, s), t)
  {
    hide RequestsFor;
    if t != s {
      assert st.sessions[t].uuid != st.sessions[s].uuid;
      PublishKeepsOther(st, s, t);
    }
  }

  lemma PublishKeepsOther(st: State, s: SessionId, t: SessionId)
    requires s in st.sessions && t in st.sessions && SessionOk(st, t) && t != s
    requires st.sessions[t].uuid != st.sessions[s].uuid
    ensures SessionOk(Published(st, s), t)
  {
    hide RequestsFor;
  }

  lemma PublishKeepsConnection(st: State, s: SessionId, d: ConnectionId)
    requires s in st.sessions && s in st.creating && KeysOk(st) && d in st.connections && ConnectionOk(st, d)
    ensures ConnectionOk(Published(st, s), d)
  {
    var t := st.connections[d];
    assert t != s ==> st.sessions[t].uuid != st.sessions[s].uuid;
  }

  lemma PublishKeepsTask(st: State, s: SessionId, d: ConnectionId)
    requires s in st.sessions && s in st.creating && d in st.conns && ConnOk(st, d)
    ensures ConnOk(Published(st, s), d)
  {
  }

  lemma PublishKeepsBase(st: State, s: SessionId)
    requires s in st.sessions && s in st.creating && SessionOk(st, s) && BaseOk(st)
    ensures BaseOk(Published(st, s))
  {
    hide RequestsFor;
  }

  lemma PublishKeeps(st: State, s: SessionId)
    requires Inv(st) && s in st.sessions && s in st.creating
    ensures Inv(Published(st, s))
  {
    hide SessionOk, ConnectionOk, BaseOk, ConnOk;
    var after := Published(st, s);
    BaseParts(st);
    PublishKeepsBase(st, s);
    forall t | t in after.sessions ensures SessionOk(after, t) {
      PublishKeepsSession(st, s, t);
    }
    forall d | d in after.connections ensures ConnectionOk(after, d) {
      PublishKeepsConnection(st, s, d);
    }
    forall d | d in after.conns ensures ConnOk(after, d) {
      PublishKeepsTask(st, s, d);
    }
  }

  lemma EmitKeepsHistory(st: State, s: SessionId, t: SessionId)
    requires s in st.inHand && t in st.sessions && HistoryOk(st, t) && st.inHand[s].session == s
    ensures HistoryOk(Emitted(st, s), t)
  {
    hide RequestsFor;
    RequestsForAppend(st.sent, st.inHand[s], t);
  }

  lemma EmitKeepsHolders(st: State, s: SessionId, t: SessionId)
    requires s in st.inHand && t in st.sessions && HoldersOk(st, t) && st.inHand[s].session == s
    ensures HoldersOk(Emitted(st, s), t)
  {
    var after := Emitted(st, s);
    assert after.queue[|st.queue|].session == s;
    assert forall i :: 0 <= i < |st.queue| ==> after.queue[i] == st.queue[i];
  }

  lemma EmitKeepsSession(st: State, s: SessionId, t: SessionId)
    requires s in st.inHand && t in st.sessions && SessionOk(st, t) && st.inHand[s].session == s
    ensures SessionOk(Emitted(st, s), t)
  {
    EmitKeepsHistory(st, s, t);
    EmitKeepsHolders(st, s, t);
    hide HistoryOk, HoldersOk;
  }

  lemma TakeKeepsSession(st: State, t: SessionId)
    requires st.worker.Idle? && st.queue != [] && t in st.sessions && SessionOk(st, t)
    ensures SessionOk(Taken(st), t)
  {
    hide RequestsFor;
    assert forall i :: 1 <= i < |st.queue| ==> st.queue[i] == st.queue[1..][i - 1];
  }

  lemma EmitKeepsConnection(st: State, s: SessionId, d: ConnectionId)
    requires s in st.inHand && d in st.connections && ConnectionOk(st, d)
    ensures ConnectionOk(Emitted(st, s), d)
  {
  }

  lemma TakeKeepsConnection(st: State, d: ConnectionId)
    requires st.worker.Idle? && st.queue != [] && d in st.connections && ConnectionOk(st, d)
    ensures ConnectionOk(Taken(st), d)
  {
  }

  lemma EmitKeepsBase(st: State, s: SessionId)
    requires s in st.inHand && BaseOk(st)
    ensures BaseOk(Emitted(st, s)) && st.inHand[s].session == s
  {
    hide RequestsFor, RequestOk;
    forall t: SessionId | t !in st.sessions ensures RequestsFor(Emitted(st, s).sent, t) == [] {
      RequestInSessions(st.sessions, st.inHand[s]);
      RequestsForAppend(st.sent, st.inHand[s], t);
    }
  }

  lemma EmitKeeps(st: State, s: SessionId)
    requires Inv(st) && s in st.inHand
    ensures Inv(Emitted(st, s))
  {
    hide SessionOk, ConnectionOk, BaseOk, TaskOk;
    var after := Emitted(st, s);
    EmitKeepsBase(st, s);
    forall t | t in after.sessions ensures SessionOk(after, t) {
      EmitKeepsSession(st, s, t);
    }
    forall d | d in after.connections ensures ConnectionOk(after, d) {
      EmitKeepsConnection(st, s, d);
    }
  }

  lemma RequestInSessions(sessions: map<SessionId, Entry>, request: Request)
    requires RequestOk(sessions, request)
    ensures request.session in sessions
  {
  }

  lemma TakeKeepsBase(st: State)
    requires st.worker.Idle? && st.queue != [] && BaseOk(st)
    ensures BaseOk(Taken(st))
  {
    hide RequestsFor, RequestOk;
  }

  lemma TakeKeeps(st: State)
    requires Inv(st) && st.worker.Idle? && st.queue != []
    ensures Inv(Taken(st))
  {
    hide SessionOk, ConnectionOk, BaseOk, TaskOk;
    var after := Taken(st);
    TakeKeepsBase(st);
    forall t | t in after.sessions ensures SessionOk(after, t) {
      TakeKeepsSession(st, t);
    }
    forall d | d in after.connections ensures ConnectionOk(after, d) {
      TakeKeepsConnection(st, d);
    }
  }

  lemma OpenKeepsSession(st: State, c: ConnectionId, token: Uuid, t: SessionId)
    requires c !in st.conns && t in st.sessions && SessionOk(st, t)
    ensures SessionOk(Goto(st, c, Lookup(token)), t)
  {
    hide RequestsFor;
  }

  lemma OpenKeeps(st: State, c: ConnectionId, token: Uuid)
    requires Inv(st) && c !in st.conns
    ensures Inv(Goto(st, c, Lookup(token)))
  {
    var after := Goto(st, c, Lookup(token));
    hide SessionOk, ConnectionOk, RequestsFor;
    forall t | t in after.sessions ensures SessionOk(after, t) {
      OpenKeepsSession(st, c, token, t);
    }
    assert TaskOk(st.sessions, st.creating, st.connections, c, Lookup(token));
    hide TaskOk;
    forall d | d in after.connections ensures ConnectionOk(after, d) {
      OpenKeepsConnection(st, c, token, d);
    }
  }

  lemma OpenKeepsConnection(st: State, c: ConnectionId, token: Uuid, d: ConnectionId)
    requires c !in st.conns && d in st.connections && ConnectionOk(st, d)
    ensures ConnectionOk(Goto(st, c, Lookup(token)), d)
  {
  }

  // ----- a cleanup's accesses

  lemma ConnectionUnique(st: State, c: ConnectionId, d: ConnectionId)
    requires c in st.connections && ConnectionOk(st, c) && st.connections[c] in st.sessions
    requires BoundTo(st.sessions[st.connections[c]].state) == Some(d)
    ensures c == d
  {
  }

  /** What the access at `at` does to the shared state, short of passing the gate. */
  lemma CleanAccessKeeps(st: State, request: Request, at: CleanPc, alive: bool)
    requires Inv(st) && RequestOk(st.sessions, request) && CleanerOk(request, at) && MayClean(st, request, at, alive)
    requires at in PAST_GATE ==> !IsPublished(st, request.session) && request.session !in st.creating
    requires at.RemoveSession? ==> !IsPublished(st, request.session)
    ensures var (after, next) := CleanNext(st, request, at, alive);
      && Inv(after) && after.worker == st.worker && after.conns == st.conns
      && RequestOk(after.sessions, request) && Released(after, request.session, at, next)
      && (next.Some? ==> CleanerOk(request, next.value))
      && (next.Some? && next.value in PAST_GATE ==>
            !IsPublished(after, request.session) && request.session !in after.creating)
  {
    hide SessionOk, ConnectionOk, BaseOk, ConnOk;
    var s := request.session;
    match at
    case Upgrade =>
    case GetCluster =>
      assert SessionOk(st, s);
      PublishedHasCluster(st, s);
    case RemoveSession =>
    case DropCluster => DropKeeps(st, s);
    case RemoveConn =>
      RemoveKeeps(st, request.conn.value, s);
      var after := RemoveExact(st, request.conn.value, s);
      forall c | c in after.connections ensures after.connections[c] != s {
        if after.connections[c] == s {
          assert ConnectionOk(st, c);
          ConnectionUnique(st, c, request.conn.value);
        }
      }
    case CloseSender => SenderKeeps(st, s, None);
    case ClearSender => SenderKeeps(st, s, None);
    case CompletePending => CompleteKeeps(st, s, None);
  }

  lemma PublishedHasCluster(st: State, s: SessionId)
    requires s in st.sessions && SessionOk(st, s)
    ensures IsPublished(st, s) ==> s in st.clusters
  {
  }

  lemma PastGateUnpublished(st: State, s: SessionId)
    requires s in st.sessions && SessionOk(st, s) && CleanerAt(st, s, PAST_GATE)
    ensures !IsPublished(st, s) && s !in st.creating
  {
  }

  lemma WorkerPassesGate(st: State, alive: bool)
    requires Inv(st) && st.worker.Cleaning? && RequestOk(st.sessions, st.worker.request)
    requires st.worker.at.RemoveSession? && IsPublished(st, st.worker.request.session)
    ensures Inv(WorkerNext(st, alive))
  {
    hide SessionOk, ConnectionOk, ConnOk, BaseOk, RequestOk;
    RequestMeaning(st.sessions, st.worker.request);
    GateKeeps(st, st.worker.request.session, None);
  }

  lemma WorkerKeeps(st: State, alive: bool)
    requires Inv(st) && st.worker.Cleaning? && RequestOk(st.sessions, st.worker.request)
    requires CleanerOk(st.worker.request, st.worker.at) && MayClean(st, st.worker.request, st.worker.at, alive)
    ensures Inv(WorkerNext(st, alive))
  {
    hide SessionOk, ConnectionOk, ConnOk, BaseOk, RequestOk, IsPublished, CleanerOk, CleanNext, Released;
    var request, at := st.worker.request, st.worker.at;
    if at in PAST_GATE {
      PastGateUnpublished(st, request.session);
    }
    if at.RemoveSession? && IsPublished(st, request.session) {
      WorkerPassesGate(st, alive);
    } else {
      CleanAccessKeeps(st, request, at, alive);
      var (after, next) := CleanNext(st, request, at, alive);
      RequestMeaning(after.sessions, request);
      WorkerMoveKeeps(after, if next.Some? then Cleaning(request, next.value) else Idle);
    }
  }

  lemma RequestMeaning(sessions: map<SessionId, Entry>, request: Request)
    requires RequestOk(sessions, request)
    ensures request.session in sessions
    ensures var entry := sessions[request.session];
      Left(entry.state) && request.uuid == entry.uuid && request.conn == BoundTo(entry.state)
  {
  }

  /** What a socket's task that is cleaning up knows. */
  lemma CleaningTask(st: State, c: ConnectionId)
    requires c in st.conns && st.conns[c].ExitCleaning? && ConnOk(st, c)
    ensures var conn := st.conns[c];
      && conn.s in st.sessions && conn.request.session == conn.s && BoundTo(st.sessions[conn.s].state) == Some(c)
      && RequestOk(st.sessions, conn.request) && CleanerOk(conn.request, conn.at)
      && (conn.at in PAST_GATE ==> CleanerAt(st, conn.s, PAST_GATE))
  {
  }

  lemma ConnPassesGate(st: State, c: ConnectionId, alive: bool)
    requires Inv(st) && c in st.conns && st.conns[c].ExitCleaning? && ConnOk(st, c)
    requires st.conns[c].at.RemoveSession? && st.conns[c].s in st.sessions && IsPublished(st, st.conns[c].s)
    requires st.conns[c].request.session in st.sessions
    ensures Inv(ConnCleanNext(st, c, alive))
  {
    hide SessionOk, ConnectionOk, ConnOk, BaseOk, RequestOk;
    CleaningTask(st, c);
    RequestMeaning(st.sessions, st.conns[c].request);
    GateKeeps(st, st.conns[c].s, Some(c));
  }

  lemma ConnCleanKeeps(st: State, c: ConnectionId, alive: bool)
    requires Inv(st) && c in st.conns && st.conns[c].ExitCleaning? && ConnOk(st, c)
    requires MayClean(st, st.conns[c].request, st.conns[c].at, alive)
    ensures Inv(ConnCleanNext(st, c, alive))
  {
    hide SessionOk, ConnectionOk, TaskOk, BaseOk, RequestOk, IsPublished, CleanerOk, CleanNext, Released;
    var conn := st.conns[c];
    CleaningTask(st, c);
    if conn.at in PAST_GATE {
      PastGateUnpublished(st, conn.s);
    }
    if conn.at.RemoveSession? && IsPublished(st, conn.s) {
      ConnPassesGate(st, c, alive);
    } else {
      CleanAccessKeeps(st, conn.request, conn.at, alive);
      var (after, next) := CleanNext(st, conn.request, conn.at, alive);
      RequestMeaning(st.sessions, conn.request);
      RequestMeaning(after.sessions, conn.request);
      var place := if next.Some? then ExitCleaning(conn.s, conn.retained, conn.request, next.value)
                   else Finishing(conn.s, conn.retained);
      assert ConnOk(Goto(after, c, place), c) by { CleanPlaceOk(after, c, conn, next); }
      assert Handover(after, c, conn.s, place);
      MoveKeeps(after, c, place);
    }
  }

  lemma CleanPlaceOk(after: State, c: ConnectionId, conn: Conn, next: Option<CleanPc>)
    requires conn.ExitCleaning? && conn.request.session == conn.s && RequestOk(after.sessions, conn.request)
    requires conn.request.conn == Some(c) && (next.Some? ==> CleanerOk(conn.request, next.value))
    ensures TaskOk(after.sessions, after.creating, after.connections, c,
                   if next.Some? then ExitCleaning(conn.s, conn.retained, conn.request, next.value)
                   else Finishing(conn.s, conn.retained))
  {
  }

  // ----- admission

  lemma BindKeepsSession(st: State, c: ConnectionId, s: SessionId, t: SessionId)
    requires c in st.conns && st.conns[c] == Binding(s) && s in st.sessions && s !in st.creating
    requires st.sessions[s].state.Pending? && t in st.sessions && SessionOk(st, t)
    ensures SessionOk(Goto(SetState(st, s, Connected(c)), c, Finding(s)), t)
  {
    hide RequestsFor;
  }

  lemma BindKeepsConnection(st: State, c: ConnectionId, s: SessionId, d: ConnectionId)
    requires c in st.conns && st.conns[c] == Binding(s) && s in st.sessions
    requires st.sessions[s].state.Pending? && d in st.connections && ConnectionOk(st, d)
    requires SessionOk(st, st.connections[d])
    ensures ConnectionOk(Goto(SetState(st, s, Connected(c)), c, Finding(s)), d)
  {
    hide RequestsFor;
  }

  lemma BindKeeps(st: State, c: ConnectionId, s: SessionId)
    requires Inv(st) && c in st.conns && st.conns[c] == Binding(s) && s in st.sessions && s !in st.creating
    requires st.sessions[s].state.Pending?
    ensures Inv(Goto(SetState(st, s, Connected(c)), c, Finding(s)))
  {
    hide SessionOk, ConnectionOk, BaseOk, TaskOk, RequestsFor;
    var after := Goto(SetState(st, s, Connected(c)), c, Finding(s));
    var entry := after.sessions[s];
    BindKeepsBase(st, c, s);
    forall t | t in after.sessions ensures SessionOk(after, t) {
      BindKeepsSession(st, c, s, t);
    }
    forall d | d in after.connections ensures ConnectionOk(after, d) {
      ConnectionInSessions(st, d);
      BindKeepsConnection(st, c, s, d);
    }
    forall d | d in after.conns ensures ConnOk(after, d) {
      assert ConnOk(st, d);
      BindKeepsTask(st, s, entry, c, d);
    }
  }

  lemma BindKeepsBase(st: State, c: ConnectionId, s: SessionId)
    requires BaseOk(st) && s in st.sessions
    requires st.sessions[s].state.Pending?
    ensures BaseOk(Goto(SetState(st, s, Connected(c)), c, Finding(s)))
  {
    hide RequestsFor;
  }

  lemma BindKeepsTask(st: State, s: SessionId, entry: Entry, c: ConnectionId, d: ConnectionId)
    requires s in st.sessions && d in st.conns && ConnOk(st, d) && st.sessions[s].state.Pending?
    requires entry == st.sessions[s].(state := Connected(c))
    ensures TaskOk(st.sessions[s := entry], st.creating, st.connections, d, if d == c then Finding(s) else st.conns[d])
  {
    hide RequestOk;
    if d != c {
      EntryKeepsTask(st, s, entry, d, st.conns[d]);
    }
  }

  /** A task past its binding: its session exists, is bound to it, and is no longer being created. */
  lemma BoundTask(st: State, c: ConnectionId)
    requires Inv(st) && c in st.conns && SessionOf(st.conns[c]).Some?
    ensures var conn := st.conns[c];
      && conn.s in st.sessions && conn.s !in st.creating
      && (!conn.Binding? ==> BoundTo(st.sessions[conn.s].state) == Some(c))
  {
    hide RequestsFor, RequestOk;
    assert ConnOk(st, c);
    assert SessionOk(st, st.conns[c].s);
  }

  /** The session a token maps to is published, and its own download id is the token. */
  lemma PublishedEntry(st: State, token: Uuid)
    requires Inv(st) && token in st.published
    ensures var s := st.published[token];
      && s in st.sessions && st.sessions[s].uuid == token && s !in st.creating
  {
    hide RequestsFor, RequestOk;
    assert SessionOk(st, st.published[token]);
  }

  lemma UnpublishedLeft(st: State, s: SessionId)
    requires Inv(st) && s in st.sessions && s !in st.creating
    ensures st.sessions[s].uuid !in st.published ==> Left(st.sessions[s].state)
    ensures st.sessions[s].uuid in st.published ==> st.published[st.sessions[s].uuid] == s
  {
    hide RequestsFor, RequestOk;
    assert SessionOk(st, s);
  }

  lemma BindingKeeps(st: State, c: ConnectionId)
    requires Inv(st) && c in st.conns && (st.conns[c].Lookup? || st.conns[c].Binding?)
    requires st.conns[c].Binding? ==> st.conns[c].s in st.sessions
    ensures Inv(AdmitNext(st, c, st.conns[c]))
  {
    hide SessionOk, ConnectionOk, BaseOk, RequestsFor, RequestOk, Released;
    var conn := st.conns[c];
    if conn.Lookup? {
      if conn.token in st.published {
        PublishedEntry(st, conn.token);
      }
      MoveKeeps(st, c, if conn.token in st.published then Binding(st.published[conn.token]) else Rejected);
    } else {
      BoundTask(st, c);
      if st.sessions[conn.s].state.Pending? {
        BindKeeps(st, c, conn.s);
      } else {
        MoveKeeps(st, c, Rejected);
      }
    }
  }

  lemma InstallingKeeps(st: State, c: ConnectionId)
    requires Inv(st) && c in st.conns && (st.conns[c].Finding? || st.conns[c].Offline? || st.conns[c].Installing?)
    requires st.conns[c].s in st.sessions
    ensures Inv(AdmitNext(st, c, st.conns[c]))
  {
    hide SessionOk, ConnectionOk, BaseOk, RequestsFor, RequestOk, Released;
    var s := st.conns[c].s;
    BoundTask(st, c);
    match st.conns[c] {
      case Finding(_) => MoveKeeps(st, c, if s in st.clusters then Installing(s) else Offline(s));
      case Offline(_) =>
        TriggerKeeps(st, s, ClusterOffline);
        TriggerShape(st, s, ClusterOffline);
        hide TriggerStep;
        MoveKeeps(TriggerStep(st, s, ClusterOffline), c, Rejected);
      case Installing(_) =>
        SenderKeeps(st, s, Some(c));
        MoveKeeps(SetSender(st, s, Some(c)), c, Checking(s));
    }
  }

  lemma CheckingKeeps(st: State, c: ConnectionId)
    requires Inv(st) && c in st.conns && (st.conns[c].Checking? || st.conns[c].Inserting? || st.conns[c].Rechecking?)
    requires st.conns[c].s in st.sessions && ConnOk(st, c)
    ensures Inv(AdmitNext(st, c, st.conns[c]))
  {
    hide SessionOk, ConnectionOk, BaseOk, RequestsFor, RequestOk, Released;
    var s := st.conns[c].s;
    BoundTask(st, c);
    match st.conns[c] {
      case Checking(_) =>
        MoveKeeps(st, c, if st.sessions[s].state == Connected(c) then Inserting(s) else UndoSender(s));
      case Inserting(_) =>
        InsertKeeps(st, c, s);
        MoveKeeps(st.(connections := st.connections[c := s]), c, Rechecking(s));
      case Rechecking(_) =>
        MoveKeeps(st, c, if st.sessions[s].state == Connected(c) then AdmitConn(s) else UndoMap(s));
    }
  }

  lemma UndoKeeps(st: State, c: ConnectionId)
    requires Inv(st) && c in st.conns && (st.conns[c].UndoMap? || st.conns[c].UndoSender?)
    requires st.conns[c].s in st.sessions && ConnOk(st, c)
    ensures Inv(AdmitNext(st, c, st.conns[c]))
  {
    hide SessionOk, ConnectionOk, BaseOk, RequestsFor, RequestOk, Released;
    var s := st.conns[c].s;
    BoundTask(st, c);
    if st.conns[c].UndoMap? {
      RemoveKeeps(st, c, s);
      MoveKeeps(RemoveExact(st, c, s), c, UndoSender(s));
    } else {
      SenderKeeps(st, s, None);
      MoveKeeps(SetSender(st, s, None), c, Rejected);
    }
  }

  lemma RetainKeeps(st: State, c: ConnectionId)
    requires Inv(st) && c in st.conns && Retaining(st.conns[c])
    requires st.conns[c].s in st.sessions && ConnOk(st, c)
    ensures Inv(RetainNext(st, c, st.conns[c]))
  {
    hide SessionOk, ConnectionOk, BaseOk, RequestsFor, RequestOk, Released;
    var s := st.conns[c].s;
    BoundTask(st, c);
    UnpublishedLeft(st, s);
    if c in st.connections {
      ConnectionInSessions(st, c);
      HolderOf(st, c);
    }
    MoveKeeps(st, c, RetainNext(st, c, st.conns[c]).conns[c]);
  }

  lemma LeavingKeeps(st: State, c: ConnectionId)
    requires Inv(st) && c in st.conns && (st.conns[c].ExitConn? || st.conns[c].ExitMap? || st.conns[c].ExitState?)
    requires st.conns[c].s in st.sessions && ConnOk(st, c)
    ensures Inv(LeaveNext(st, c, st.conns[c]))
  {
    hide SessionOk, ConnectionOk, BaseOk, RequestsFor, RequestOk, Released;
    var s := st.conns[c].s;
    BoundTask(st, c);
    UnpublishedLeft(st, s);
    if c in st.connections {
      ConnectionInSessions(st, c);
      HolderOf(st, c);
    }
    MoveKeeps(st, c, LeaveNext(st, c, st.conns[c]).conns[c]);
  }

  lemma ExitTriggerKeeps(st: State, c: ConnectionId)
    requires Inv(st) && c in st.conns && st.conns[c].ExitTrigger? && st.conns[c].s in st.sessions
    ensures Inv(LeaveNext(st, c, st.conns[c]))
  {
    hide SessionOk, ConnectionOk, BaseOk, RequestsFor, RequestOk, Released, TriggerStep;
    var conn := st.conns[c];
    var s, retained := conn.s, conn.retained;
    BoundTask(st, c);
    TriggerKeeps(st, s, conn.reason);
    TriggerShape(st, s, conn.reason);
    var after := TriggerStep(st, s, conn.reason);
    if Left(st.sessions[s].state) {
      MoveKeeps(after, c, Finishing(s, retained));
    } else {
      InHandHolds(after, s);
      MoveKeeps(after, c, ExitSending(s, retained, after.inHand[s]));
    }
  }

  lemma InHandHolds(st: State, s: SessionId)
    requires Inv(st) && s in st.inHand
    ensures RequestOk(st.sessions, st.inHand[s]) && st.inHand[s].session == s
  {
    hide SessionOk, ConnectionOk, RequestsFor, RequestOk;
  }

  lemma SendingKeeps(st: State, c: ConnectionId)
    requires Inv(st) && c in st.conns && st.conns[c].ExitSending? && st.conns[c].s in st.sessions && ConnOk(st, c)
    ensures Inv(LeaveNext(st, c, st.conns[c]))
  {
    hide SessionOk, ConnectionOk, BaseOk, RequestsFor, RequestOk, Released;
    BoundTask(st, c);
    var conn := st.conns[c];
    MoveKeeps(st, c, ExitCleaning(conn.s, conn.retained, conn.request, Upgrade));
  }

  lemma FinishingKeeps(st: State, c: ConnectionId)
    requires Inv(st) && c in st.conns && st.conns[c].Finishing? && st.conns[c].s in st.sessions && ConnOk(st, c)
    ensures Inv(LeaveNext(st, c, st.conns[c]))
  {
    hide SessionOk, ConnectionOk, BaseOk, RequestsFor, RequestOk, Released;
    BoundTask(st, c);
    var s := st.conns[c].s;
    if st.conns[c].retained {
      CompleteKeeps(st, s, Some(c));
      MoveKeeps(SetState(st, s, Completed(st.sessions[s].state, Some(c))), c, Finished(s, true));
    } else {
      MoveKeeps(st, c, Finished(s, false));
    }
  }

  lemma ExitKeeps(st: State, c: ConnectionId, reason: Reason)
    requires Inv(st) && c in st.conns && st.conns[c].Serving? && ConnOk(st, c)
    ensures Inv(Goto(st, c, ExitConn(st.conns[c].s, st.conns[c].retained, reason)))
  {
    hide SessionOk, ConnectionOk, BaseOk, RequestsFor, RequestOk, Released;
    BoundTask(st, c);
    MoveKeeps(st, c, ExitConn(st.conns[c].s, st.conns[c].retained, reason));
  }

  lemma ConnKeeps(st: State, c: ConnectionId)
    requires Inv(st) && Enabled(st, ConnStep(c))
    ensures Inv(ConnNext(st, c, st.conns[c]))
  {
    hide Inv, AdmitNext, RetainNext, LeaveNext, ConnOk;
    assert ConnOk(st, c) by { TaskHolds(st, c); }
    var conn := st.conns[c];
    if conn.Lookup? || conn.Binding? {
      BindingKeeps(st, c);
    } else if conn.Finding? || conn.Offline? || conn.Installing? {
      InstallingKeeps(st, c);
    } else if conn.Checking? || conn.Inserting? || conn.Rechecking? {
      CheckingKeeps(st, c);
    } else if conn.UndoMap? || conn.UndoSender? {
      UndoKeeps(st, c);
    } else if Retaining(conn) {
      RetainKeeps(st, c);
    } else if conn.ExitConn? || conn.ExitMap? || conn.ExitState? {
      LeavingKeeps(st, c);
    } else if conn.ExitTrigger? {
      ExitTriggerKeeps(st, c);
    } else if conn.ExitSending? {
      SendingKeeps(st, c);
    } else {
      FinishingKeeps(st, c);
    }
  }

  lemma TaskHolds(st: State, c: ConnectionId)
    requires Inv(st) && c in st.conns
    ensures ConnOk(st, c)
  {
  }

  lemma WorkerHolds(st: State)
    requires Inv(st) && st.worker.Cleaning?
    ensures RequestOk(st.sessions, st.worker.request) && CleanerOk(st.worker.request, st.worker.at)
  {
    hide RequestOk, RequestsFor;
  }

  lemma StepKeeps(st: State, step: Step)
    requires Inv(st) && Enabled(st, step)
    ensures Inv(Apply(st, step))
  {
    hide Inv, TriggerStep, WorkerNext, ConnCleanNext, ConnNext, Created, Published, Emitted, Taken, ConnOk, RequestOk;
    match step
    case Create(s, uuid) => CreateKeeps(st, s, uuid);
    case Publish(s) => PublishKeeps(st, s);
    case Fire(s, reason) => TriggerKeeps(st, s, reason);
    case Send(s) => EmitKeeps(st, s);
    case Take => TakeKeeps(st);
    case WorkerStep(alive) =>
      WorkerHolds(st);
      WorkerKeeps(st, alive);
    case Open(c, token) => OpenKeeps(st, c, token);
    case Refuse(c) => RefuseKeeps(st, c);
    case ConnStep(c) => ConnKeeps(st, c);
    case Exit(c, reason) =>
      TaskHolds(st, c);
      ExitKeeps(st, c, reason);
    case ConnClean(c, alive) =>
      TaskHolds(st, c);
      ConnCleanKeeps(st, c, alive);
  }

  lemma RefuseKeeps(st: State, c: ConnectionId)
    requires Inv(st) && c in st.conns && st.conns[c].Lookup?
    ensures Inv(Goto(st, c, Rejected))
  {
    hide SessionOk, ConnectionOk, BaseOk;
    MoveKeeps(st, c, Rejected);
  }

  // ----- whole runs

  lemma {:induction false} InvHolds(steps: seq<Step>, st: State)
    requires Run(steps) == Some(st)
    ensures Inv(st)
  {
    hide Apply, Enabled, Inv;
    if steps == [] {
      InitKeeps();
    } else {
      var before := Run(steps[..|steps|-1]).value;
      InvHolds(steps[..|steps|-1], before);
      StepKeeps(before, steps[|steps|-1]);
    }
  }

  lemma InitKeeps()
    ensures Inv(Init())
  {
  }

  /** A run never forgets a session, moves one backwards, or changes a recorded connection or reason. */
  lemma {:induction false} LifecycleForward(steps: seq<Step>, more: seq<Step>, st: State, later: State)
    requires Run(steps) == Some(st) && Run(steps + more) == Some(later)
    ensures Later(st.sessions, later.sessions)
  {
    hide Apply, Enabled;
    if more == [] {
      assert steps + more == steps;
    } else {
      var init := more[..|more|-1];
      assert (steps + more)[..|steps + more|-1] == steps + init;
      var before := Run(steps + init).value;
      LifecycleForward(steps, init, st, before);
      StepAdvances(before, more[|more|-1]);
      LaterTransitive(st.sessions, before.sessions, later.sessions);
    }
  }

  /** Nothing that concerns `s` is under way: no creation, admission, request or cleanup. */
  predicate Quiet(st: State, s: SessionId) {
    && s !in st.creating && s !in st.inHand
    && (forall i :: 0 <= i < |st.queue| ==> st.queue[i].session != s)
    && (st.worker.Cleaning? ==> st.worker.request.session != s)
    && (forall c :: c in st.conns && SessionOf(st.conns[c]) == Some(s) ==>
          !Admitting(st.conns[c]) && !st.conns[c].ExitSending? && !st.conns[c].ExitCleaning?)
  }

  lemma NobodyCleans(st: State, s: SessionId, pcs: set<CleanPc>)
    requires s in st.sessions && Quiet(st, s)
    ensures !CleanerAt(st, s, pcs) && !RequestPending(st, s)
    ensures forall c :: c in st.conns ==> !Installed(st.conns[c], s)
  {
  }

  lemma QuietSession(st: State, s: SessionId)
    requires s in st.sessions && SessionOk(st, s) && Quiet(st, s)
    ensures st.sessions[s].sender.Some? ==> st.sessions[s].state == Connected(st.sessions[s].sender.value)
    ensures IsPublished(st, s) <==> s in st.clusters
    ensures IsPublished(st, s) <==> !Left(st.sessions[s].state)
  {
    hide RequestsFor, Quiet, CleanerAt, RequestPending;
    assert s !in st.creating by { QuietCreated(st, s); }
    NobodyCleans(st, s, {DropCluster});
    NobodyCleans(st, s, {DropCluster, RemoveConn, CloseSender});
  }

  lemma QuietCreated(st: State, s: SessionId)
    requires s in st.sessions && Quiet(st, s)
    ensures s !in st.creating
  {
  }

  lemma QuietConnection(st: State, c: ConnectionId)
    requires c in st.connections && ConnectionOk(st, c) && st.connections[c] in st.sessions
    requires Quiet(st, st.connections[c]) && SessionOk(st, st.connections[c])
    ensures st.sessions[st.connections[c]].state == Connected(c)
  {
    hide SessionOk, Quiet, CleanerAt;
    var s := st.connections[c];
    QuietSession(st, s);
    NobodyCleans(st, s, {DropCluster, RemoveConn});
    assert c in st.conns ==> !Installed(st.conns[c], s);
  }

  /**
   However admission, triggers, both cleanups and exits interleave: once nothing is under way for a
   session, every map holds it exactly while it is open, `connection_map` only under the connection it
   is `Connected` to, and its cluster has a sender only while it is `Connected`.
  */
  lemma NoLeak(steps: seq<Step>, st: State, s: SessionId)
    requires Run(steps) == Some(st) && s in st.sessions && Quiet(st, s)
    ensures forall c :: c in st.connections && st.connections[c] == s ==> st.sessions[s].state == Connected(c)
    ensures st.sessions[s].sender.Some? ==> st.sessions[s].state == Connected(st.sessions[s].sender.value)
    ensures IsPublished(st, s) <==> s in st.clusters
    ensures IsPublished(st, s) <==> !Left(st.sessions[s].state)
  {
    hide SessionOk, ConnectionOk, BaseOk, ConnOk, Quiet, IsPublished;
    InvHolds(steps, st);
    QuietSession(st, s);
    forall c | c in st.connections && st.connections[c] == s ensures st.sessions[s].state == Connected(c) {
      QuietConnection(st, c);
    }
  }

  /** Exactly one cleanup request is emitted, on leaving `Pending` or `Connected`, and it says what was recorded. */
  lemma OneRequest(steps: seq<Step>, st: State, s: SessionId)
    requires Run(steps) == Some(st) && s in st.sessions
    ensures RequestsFor(st.sent, s) + (if s in st.inHand then [st.inHand[s]] else [])
         == (var entry := st.sessions[s];
             if Left(entry.state) then [Request(s, entry.uuid, entry.state.bound, entry.state.reason)] else [])
  {
    hide RequestsFor, RequestOk, ConnectionOk;
    InvHolds(steps, st);
    hide BaseOk, ConnOk;
    assert SessionOk(st, s);
  }

  /** The worker and a connection's exit may both try: the teardown past the removal gate runs once. */
  lemma OneTeardown(steps: seq<Step>, st: State, s: SessionId)
    requires Run(steps) == Some(st) && s in st.sessions
    ensures multiset(st.torn)[s] == if IsPublished(st, s) || s in st.creating then 0 else 1
    ensures s in st.torn ==> Left(st.sessions[s].state)
    ensures Quiet(st, s) ==> multiset(st.torn)[s] == if Left(st.sessions[s].state) then 1 else 0
  {
    hide RequestsFor, RequestOk, ConnectionOk;
    InvHolds(steps, st);
    hide BaseOk, ConnOk;
    assert SessionOk(st, s);
    if Quiet(st, s) {
      NoLeak(steps, st, s);
    }
  }

  /** While its session is `Connected`, an admitted handler is in `connection_map` and its sender installed. */
  lemma AdmittedIsReachable(steps: seq<Step>, st: State, c: ConnectionId)
    requires Run(steps) == Some(st) && c in st.conns && (Retaining(st.conns[c]) || st.conns[c].Serving?)
    ensures var s := st.conns[c].s;
      && s in st.sessions
      && (Left(st.sessions[s].state)
          || (&& st.sessions[s] == Entry(st.sessions[s].uuid, Connected(c), Some(c))
              && c in st.connections && st.connections[c] == s))
  {
    hide RequestsFor, RequestOk, SessionOk, ConnectionOk, BaseOk;
    InvHolds(steps, st);
    assert ConnOk(st, c);
  }

  /**
   A handler that retained its session leaves it `Closed` with its own connection, and with the reason
   recorded when the session first left `Connected`, whoever triggered it and whichever cleanup won.
  */
  lemma HandlerLeavesClosed(steps: seq<Step>, more: seq<Step>, st: State, later: State, c: ConnectionId, s: SessionId)
    requires Run(steps) == Some(st) && Run(steps + more) == Some(later)
    requires c in later.conns && later.conns[c] == Finished(s, true)
    ensures s in later.sessions && later.sessions[s].state.Closed? && later.sessions[s].state.bound == Some(c)
    ensures s in st.sessions && Left(st.sessions[s].state) ==>
      && st.sessions[s].state.bound == Some(c)
      && later.sessions[s].state.reason == st.sessions[s].state.reason
  {
    hide RequestsFor, RequestOk, SessionOk, ConnectionOk, BaseOk;
    InvHolds(steps + more, later);
    assert ConnOk(later, c);
    LifecycleForward(steps, more, st, later);
  }

  lemma QuietUnbound(st: State, s: SessionId)
    requires s in st.sessions && SessionOk(st, s) && Quiet(st, s)
    requires Left(st.sessions[s].state) && st.sessions[s].state.bound.None?
    ensures st.sessions[s].state.Closed?
  {
    hide RequestsFor, Quiet, CleanerAt, RequestPending;
    QuietCreated(st, s);
    NobodyCleans(st, s, {DropCluster, ClearSender, CompletePending});
  }

  lemma EndedTask(st: State, c: ConnectionId, s: SessionId)
    requires c in st.conns && (st.conns[c].Finished? || st.conns[c].Rejected?) && ConnOk(st, c)
    requires s in st.sessions && SessionOk(st, s) && Left(st.sessions[s].state) && st.sessions[s].state.bound == Some(c)
    ensures st.sessions[s].state.Closed? <==> st.conns[c] == Finished(s, true)
  {
    hide RequestsFor, CleanerAt, RequestPending;
  }

  /**
   Which shutdowns come to their end: once nothing is under way and the bound socket's task, if any, has
   ended, a session that has left is `Closed` if and only if it never connected or its handler retained it.
  */
  lemma ClosedIffRetained(steps: seq<Step>, st: State, s: SessionId)
    requires Run(steps) == Some(st) && s in st.sessions && Quiet(st, s) && Left(st.sessions[s].state)
    requires var bound := st.sessions[s].state.bound;
      bound.Some? && bound.value in st.conns ==> st.conns[bound.value].Finished? || st.conns[bound.value].Rejected?
    ensures var bound := st.sessions[s].state.bound;
      && (bound.Some? ==> bound.value in st.conns)
      && (st.sessions[s].state.Closed? <==> bound.None? || st.conns[bound.value] == Finished(s, true))
  {
    hide RequestsFor, RequestOk, ConnectionOk, Quiet, ConnOk, CleanerAt, RequestPending;
    InvHolds(steps, st);
    var bound := st.sessions[s].state.bound;
    assert SessionOk(st, s);
    if bound.None? {
      QuietUnbound(st, s);
    } else {
      EndedTask(st, bound.value, s);
    }
  }
}
