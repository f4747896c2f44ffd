/**
 The manager's download paths as the program runs them: methods that update the shared maps in place,
 with every other task free to run between two accesses. Each access is one step of the machine in
 module DownloadProtocol, so everything proved of its runs holds here.
 */
module DownloadManager {
  import opened Wrappers
  import opened DownloadSession
  import opened DownloadProtocol
  import opened DownloadTheorems
  import opened DownloadTasks
  import opened DownloadReasons

  class ClusterManager {
    var sessions: map<SessionId, Entry>
    var fileDownloadMap: map<Uuid, SessionId>
    var fileDownloadClusters: set<SessionId>
    var connectionMap: map<ConnectionId, SessionId>
    var cleanupChannel: seq<Request>
    var inHand: map<SessionId, Request>
    var worker: Worker                   // where the tasks are
    var sockets: map<ConnectionId, Conn>
    ghost var creating: set<SessionId>
    ghost var sent: seq<Request>
    ghost var torn: seq<SessionId>
    ghost var steps: seq<Step>           // the run so far
    ghost var shots: seq<nat>            // where in it the running task itself has taken a `Fire` step

    ghost function Now(): State
      reads this
    {
      State(sessions, fileDownloadMap, fileDownloadClusters, connectionMap, creating, inHand, cleanupChannel,
            worker, sockets, sent, torn)
    }

    ghost predicate Valid()
      reads this
    {
      Run(steps) == Some(Now())
    }

    constructor ()
      ensures Valid() && steps == [] && shots == [] && Now() == Init()
    {
      sessions, fileDownloadMap, fileDownloadClusters, connectionMap := map[], map[], {}, map[];
      cleanupChannel, inHand, worker, sockets := [], map[], Idle, map[];
      creating, sent, torn, steps, shots := {}, [], [], [], [];
    }

    /** Write down the step the running task has just taken. */
    ghost method Record(before: State, step: Step)
      requires Run(steps) == Some(before) && Enabled(before, step) && Now() == Apply(before, step)
      modifies this`steps, this`shots
      ensures steps == old(steps) + [step] && Valid()
      ensures shots == old(shots) + if step.Fire? then [|old(steps)|] else []
    {
      RunExtend(steps, before, step);
      shots := shots + if step.Fire? then [|steps|] else [];
      steps := steps + [step];
    }

    /** Any number of steps of other tasks. The body takes none; callers may assume no more than the contract. */
    method LetOthersRun(ghost me: Task) returns (ghost others: seq<Step>)
      requires Valid()
      modifies this
      ensures Valid() && steps == old(steps) + others && shots == old(shots) && ByOthers(me, others)
    {
      hide Run;
      others := [];
    }

    /** `LetOthersRun`, with what the running task may rely on. */
    method Interfere(ghost me: Task)
      requires Valid()
      modifies this
      ensures Valid() && old(steps) <= steps && shots == old(shots)
      ensures Undisturbed(me, old(Now()), Now()) && Inv(Now())
    {
      hide Run, Undisturbed, Inv;
      ghost var others := LetOthersRun(me);
      OthersUndisturbed(me, old(steps), old(Now()), others, Now());
      InvHolds(steps, Now());
    }

    // ----- accesses to the shared state, each under one lock or map guard

    /** The transition of `trigger`, under the lifecycle lock. */
    method BeginClosing(s: SessionId, reason: Reason) returns (won: bool)
      requires s in sessions
      modifies `sessions, `inHand
      ensures Now() == TriggerStep(old(Now()), s, reason) && won == !Left(old(sessions)[s].state)
    {
      var entry := sessions[s];
      var next;
      next, won := TryTrigger(entry.state, reason);
      if won {
        sessions := sessions[s := entry.(state := next)];
        inHand := inHand[s := Request(s, entry.uuid, next.bound, reason)];
      }
    }

    method SetConnection(s: SessionId, sender: Option<ConnectionId>)
      requires s in sessions
      modifies `sessions
      ensures Now() == SetSender(old(Now()), s, sender)
    {
      sessions := sessions[s := sessions[s].(sender := sender)];
    }

    method RemoveExactConnection(c: ConnectionId, s: SessionId)
      modifies `connectionMap
      ensures Now() == RemoveExact(old(Now()), c, s)
    {
      if c in connectionMap && connectionMap[c] == s {
        connectionMap := connectionMap - {c};
      }
    }

    method Complete(s: SessionId, bound: Option<ConnectionId>)
      requires s in sessions
      modifies `sessions
      ensures Now() == SetState(old(Now()), s, Completed(old(sessions)[s].state, bound))
    {
      var next, done := TryComplete(sessions[s].state, bound);
      sessions := sessions[s := sessions[s].(state := next)];
    }

    // ----- triggers and creation

    method SendRequest(s: SessionId)
      requires Valid() && s in inHand
      modifies this
      ensures Valid() && steps == old(steps) + [Send(s)] && shots == old(shots) && Now() == Emitted(old(Now()), s)
    {
      hide Run;
      ghost var before := Now();
      cleanupChannel := cleanupChannel + [inHand[s]];
      sent := sent + [inHand[s]];
      inHand := inHand - {s};
      Record(before, Send(s));
    }

    /** `trigger` from outside any socket's task: the transition, then the send. */
    method Trigger(s: SessionId, reason: Reason) returns (won: bool, ghost at: nat)
      requires Valid() && s in sessions && s !in creating
      modifies this
      ensures Valid() && old(steps) <= steps
      ensures s in sessions && Left(sessions[s].state)
      ensures won == !Left(old(sessions)[s].state)
      ensures !won ==> Now() == old(Now())
      ensures won ==> sessions[s].state.reason == reason && sessions[s].state.bound == BoundTo(old(sessions)[s].state)
      ensures won ==> Request(s, sessions[s].uuid, sessions[s].state.bound, reason) in sent
      ensures at == |old(steps)| < |steps| && steps[at] == Fire(s, reason) && shots == old(shots) + [at]
    {
      hide Run, Inv, ConnNext, WorkerNext, ConnCleanNext, ByOther;
      TriggerShape(Now(), s, reason);
      hide TriggerStep;
      ghost var before := Now();
      at := |steps|;
      won := BeginClosing(s, reason);
      Record(before, Fire(s, reason));
      if won {
        Interfere(Task(Caller, {s}));
        SendRequest(s);
      }
    }

    method RegisterCluster(s: SessionId, uuid: Uuid)
      requires Valid() && Creatable(Now(), s, uuid)
      modifies this
      ensures Valid() && old(steps) <= steps && shots == old(shots) && Now() == Created(old(Now()), s, uuid)
    {
      hide Run, ConnNext, WorkerNext, ConnCleanNext, TriggerStep;
      ghost var before := Now();
      sessions := sessions[s := Entry(uuid, Pending, None)];
      fileDownloadClusters := fileDownloadClusters + {s};
      creating := creating + {s};
      Record(before, Create(s, uuid));
    }

    /** The cluster goes into its map first, the session into its own second. */
    method CreateFileDownload(s: SessionId, uuid: Uuid)
      requires Valid() && Creatable(Now(), s, uuid)
      modifies this
      ensures Valid() && old(steps) <= steps && shots == old(shots)
      ensures uuid in fileDownloadMap && fileDownloadMap[uuid] == s && s in fileDownloadClusters
      ensures s in sessions && sessions[s] == Entry(uuid, Pending, None) && s !in creating
    {
      hide Run, Inv, ConnNext, WorkerNext, ConnCleanNext, TriggerStep, ByOther, Advances;
      RegisterCluster(s, uuid);
      Interfere(Task(Creator(s), {}));
      BeingCreated(Now(), s);
      ghost var before := Now();
      fileDownloadMap := fileDownloadMap[uuid := s];
      creating := creating - {s};
      Record(before, Publish(s));
    }

    // ----- a socket's task: admission

    ghost method RecordAdmit(before: State, c: ConnectionId)
      requires Run(steps) == Some(before) && c in before.conns && Admitting(before.conns[c])
      requires SessionOf(before.conns[c]).Some? ==> SessionOf(before.conns[c]).value in before.sessions
      requires Now() == AdmitNext(before, c, before.conns[c])
      modifies this`steps, this`shots
      ensures steps == old(steps) + [ConnStep(c)] && Valid()
      ensures TurnsAway(before, c) ==> TurnedAwayAt(steps, |old(steps)|, c)
    {
      hide Run, TurnsAway, TurnedAwayAt, AdmitNext, RetainNext, LeaveNext;
      ghost var front := steps;
      Record(before, ConnStep(c));
      if TurnsAway(before, c) {
        JustTurnedAway(front, before, c);
      }
    }

    /** Others run; this socket's task stays where it is. */
    method InterfereAs(c: ConnectionId)
      requires Valid() && c in sockets
      modifies this
      ensures Valid() && old(steps) <= steps && Later(old(sessions), sessions) && Inv(Now())
      ensures c in sockets && sockets[c] == old(sockets)[c]
      ensures SessionOf(sockets[c]).Some? ==> sockets[c].s in sessions && sockets[c].s !in creating
      ensures SessionOf(sockets[c]).Some? && !sockets[c].Binding? ==> BoundTo(sessions[sockets[c].s].state) == Some(c)
    {
      hide Run, Inv, Later;
      Interfere(Task(Socket(c), {}));
      if SessionOf(sockets[c]).Some? {
        BoundTask(Now(), c);
      }
    }

    method FindSession(c: ConnectionId, token: Uuid) returns (session: Option<SessionId>)
      requires Valid() && c in sockets && sockets[c] == Lookup(token)
      modifies this
      ensures Valid() && old(steps) < steps && c in sockets
      ensures sockets[c] == if session.Some? then Binding(session.value) else Rejected
      ensures session.None? ==> TurnedAwayAt(steps, |steps| - 1, c)
    {
      hide Run, Inv, Later, TurnedAwayAt;
      InterfereAs(c);
      ghost var before := Now();
      session := if token in fileDownloadMap then Some(fileDownloadMap[token]) else None;
      sockets := sockets[c := if session.Some? then Binding(session.value) else Rejected];
      RecordAdmit(before, c);
    }

    method BindConnection(c: ConnectionId, s: SessionId) returns (ok: bool)
      requires Valid() && c in sockets && sockets[c] == Binding(s)
      modifies this
      ensures Valid() && old(steps) < steps && c in sockets
      ensures sockets[c] == if ok then Finding(s) else Rejected
      ensures !ok ==> TurnedAwayAt(steps, |steps| - 1, c)
    {
      hide Run, Inv, Later, TurnedAwayAt;
      InterfereAs(c);
      ghost var before := Now();
      var next;
      next, ok := TryBind(sessions[s].state, c);
      if ok {
        sessions := sessions[s := sessions[s].(state := next)];
      }
      sockets := sockets[c := if ok then Finding(s) else Rejected];
      RecordAdmit(before, c);
    }

    method FindCluster(c: ConnectionId, s: SessionId) returns (found: bool)
      requires Valid() && c in sockets && sockets[c] == Finding(s)
      modifies this
      ensures Valid() && old(steps) < steps && c in sockets
      ensures sockets[c] == if found then Installing(s) else Offline(s)
      ensures !found ==> TurnedAwayAt(steps, |steps| - 1, c)
    {
      hide Run, Inv, Later, TurnedAwayAt;
      InterfereAs(c);
      ghost var before := Now();
      MissingLeft(steps, before, c);
      found := s in fileDownloadClusters;
      sockets := sockets[c := if found then Installing(s) else Offline(s)];
      RecordAdmit(before, c);
    }

    method TriggerOffline(c: ConnectionId, s: SessionId) returns (won: bool)
      requires Valid() && c in sockets && sockets[c] == Offline(s)
      modifies this
      ensures Valid() && old(steps) <= steps && c in sockets && sockets[c] == Rejected
      ensures s in sessions && Left(sessions[s].state) && (won ==> s in inHand)
    {
      hide Run, Inv, Later, TriggerStep;
      InterfereAs(c);
      ghost var before := Now();
      TriggerShape(before, s, ClusterOffline);
      won := BeginClosing(s, ClusterOffline);
      sockets := sockets[c := Rejected];
      RecordAdmit(before, c);
    }

    /** No cluster: the session is closed with `ClusterOffline` unless someone was first. */
    method RejectOffline(c: ConnectionId, s: SessionId)
      requires Valid() && c in sockets && sockets[c] == Offline(s)
      modifies this
      ensures Valid() && old(steps) <= steps && c in sockets && sockets[c] == Rejected
      ensures s in sessions && Left(sessions[s].state)
      ensures OwnEndings(steps, Now(), c, |old(steps)|, ClusterOffline, false)
    {
      hide Run, Inv, OwnEndings;
      var won := TriggerOffline(c, s);
      if won {
        Interfere(Task(Socket(c), {s}));
        SendRequest(s);
      }
      RejectedEndings(steps, Now(), c, |old(steps)|);
    }

    method InstallSender(c: ConnectionId, s: SessionId)
      requires Valid() && c in sockets && sockets[c] == Installing(s)
      modifies this
      ensures Valid() && old(steps) <= steps && c in sockets && sockets[c] == Checking(s)
    {
      hide Run, Inv, Later;
      InterfereAs(c);
      ghost var before := Now();
      SetConnection(s, Some(c));
      sockets := sockets[c := Checking(s)];
      RecordAdmit(before, c);
    }

    method CheckBinding(c: ConnectionId, s: SessionId) returns (ok: bool)
      requires Valid() && c in sockets && sockets[c] == Checking(s)
      modifies this
      ensures Valid() && old(steps) < steps && c in sockets
      ensures sockets[c] == if ok then Inserting(s) else UndoSender(s)
      ensures !ok ==> TurnedAwayAt(steps, |steps| - 1, c)
    {
      hide Run, Inv, Later, TurnedAwayAt;
      InterfereAs(c);
      ghost var before := Now();
      ok := sessions[s].state == Connected(c);
      sockets := sockets[c := if ok then Inserting(s) else UndoSender(s)];
      RecordAdmit(before, c);
    }

    method InsertConnection(c: ConnectionId, s: SessionId)
      requires Valid() && c in sockets && sockets[c] == Inserting(s)
      modifies this
      ensures Valid() && old(steps) <= steps && c in sockets && sockets[c] == Rechecking(s)
    {
      hide Run, Inv, Later;
      InterfereAs(c);
      ghost var before := Now();
      connectionMap := connectionMap[c := s];
      sockets := sockets[c := Rechecking(s)];
      RecordAdmit(before, c);
    }

    method RecheckBinding(c: ConnectionId, s: SessionId) returns (ok: bool)
      requires Valid() && c in sockets && sockets[c] == Rechecking(s)
      modifies this
      ensures Valid() && old(steps) < steps && c in sockets
      ensures sockets[c] == if ok then AdmitConn(s) else UndoMap(s)
      ensures ok ==> Served(Now(), c, s)
      ensures !ok ==> TurnedAwayAt(steps, |steps| - 1, c)
    {
      hide Run, Inv, Later, TurnedAwayAt, Served;
      InterfereAs(c);
      ghost var before := Now();
      ok := sessions[s].state == Connected(c);
      sockets := sockets[c := if ok then AdmitConn(s) else UndoMap(s)];
      RecordAdmit(before, c);
      if ok {
        AdmittedIsServed(steps, Now(), c);
      }
    }

    method UndoInsertion(c: ConnectionId, s: SessionId)
      requires Valid() && c in sockets && sockets[c] == UndoMap(s)
      modifies this
      ensures Valid() && old(steps) <= steps && c in sockets && sockets[c] == UndoSender(s)
      ensures c !in connectionMap || connectionMap[c] != s
    {
      hide Run, Inv, Later;
      InterfereAs(c);
      ghost var before := Now();
      RemoveExactConnection(c, s);
      sockets := sockets[c := UndoSender(s)];
      RecordAdmit(before, c);
    }

    method UndoInstallation(c: ConnectionId, s: SessionId)
      requires Valid() && c in sockets && sockets[c] == UndoSender(s)
      modifies this
      ensures Valid() && old(steps) <= steps && c in sockets && sockets[c] == Rejected
      ensures s in sessions && sessions[s].sender == None && Left(sessions[s].state)
    {
      hide Run, Inv, Later;
      InterfereAs(c);
      UndoingLeft(Now(), c);
      ghost var before := Now();
      SetConnection(s, None);
      sockets := sockets[c := Rejected];
      RecordAdmit(before, c);
    }

    /** The second publication and its re-check, undone if that fails. */
    method PublishInMap(c: ConnectionId, s: SessionId) returns (ok: bool, ghost at: nat)
      requires Valid() && c in sockets && sockets[c] == Inserting(s)
      modifies this
      ensures Valid() && old(steps) <= steps && c in sockets
      ensures sockets[c] == if ok then AdmitConn(s) else UndoSender(s)
      ensures if ok then Served(Now(), c, s) else |old(steps)| <= at && TurnedAwayAt(steps, at, c)
    {
      hide *;
      InsertConnection(c, s);
      ok := RecheckBinding(c, s);
      at := |steps| - 1;
      if !ok {
        ghost var refused := steps;
        UndoInsertion(c, s);
        TurnedAwayStays(refused, steps, at, c);
      }
    }

    /**
     Two re-checks guard the two publications: of the sender, and of the connection. One that fails is the
     access `at`.
    */
    method PublishConnection(c: ConnectionId, s: SessionId) returns (ok: bool, ghost at: nat)
      requires Valid() && c in sockets && sockets[c] == Installing(s)
      modifies this
      ensures Valid() && old(steps) <= steps && c in sockets
      ensures sockets[c] == if ok then AdmitConn(s) else Rejected
      ensures if ok then Served(Now(), c, s) else |old(steps)| <= at && TurnedAwayAt(steps, at, c)
    {
      hide *;
      InstallSender(c, s);
      ok := CheckBinding(c, s);
      at := |steps| - 1;
      if ok {
        ok, at := PublishInMap(c, s);
      }
      if !ok {
        ghost var refused := steps;
        UndoInstallation(c, s);
        TurnedAwayStays(refused, steps, at, c);
      }
    }

    /**
     The download branch of `handle_new_connection`. A rejected socket was turned away at the access `at`: no
     session under its token, one already bound, or one that had left `Connected` by then.
    */
    method HandleNewConnection(c: ConnectionId, token: Uuid) returns (admitted: bool, ghost at: nat)
      requires Valid() && c in sockets && sockets[c] == Lookup(token)
      modifies this
      ensures Valid() && old(steps) <= steps && c in sockets
      ensures if admitted then sockets[c].AdmitConn? else sockets[c] == Rejected
      ensures if admitted then Served(Now(), c, sockets[c].s) else |old(steps)| <= at && TurnedAwayAt(steps, at, c)
    {
      hide *;
      var session := FindSession(c, token);
      if session.None? {
        return false, |steps| - 1;
      }
      var s := session.value;
      var ok := BindConnection(c, s);
      if !ok {
        return false, |steps| - 1;
      }
      ok := FindCluster(c, s);
      if ok {
        admitted, at := PublishConnection(c, s);
      } else {
        at := |steps| - 1;
        ghost var refused := steps;
        RejectOffline(c, s);
        TurnedAwayStays(refused, steps, at, c);
        admitted := false;
      }
    }

    // ----- a socket's task: retaining the session

    ghost method RecordRetain(before: State, c: ConnectionId)
      requires Run(steps) == Some(before) && c in before.conns && Retaining(before.conns[c])
      requires before.conns[c].s in before.sessions
      requires Now() == RetainNext(before, c, before.conns[c])
      modifies this`steps, this`shots
      ensures steps == old(steps) + [ConnStep(c)] && Valid()
      ensures TurnsAway(before, c) ==> TurnedAwayAt(steps, |old(steps)|, c)
    {
      hide Run, TurnsAway, TurnedAwayAt, AdmitNext, RetainNext, LeaveNext;
      ghost var front := steps;
      Record(before, ConnStep(c));
      if TurnsAway(before, c) {
        JustTurnedAway(front, before, c);
      }
    }

    /** The first lookup of `get_file_download_admission`, by connection. */
    method FindEntry(c: ConnectionId) returns (found: bool)
      requires Valid() && c in sockets && sockets[c].AdmitConn?
      modifies this
      ensures Valid() && old(steps) < steps && c in sockets
      ensures if found then sockets[c].AdmitMap? else sockets[c].Serving? && !sockets[c].retained
      ensures !found ==> TurnedAwayAt(steps, |steps| - 1, c)
    {
      hide Run, Inv, Later, TurnedAwayAt;
      InterfereAs(c);
      ghost var before := Now();
      MissingLeft(steps, before, c);
      found := c in connectionMap;
      sockets := sockets[c := if found then AdmitMap(connectionMap[c]) else Serving(sockets[c].s, false)];
      RecordRetain(before, c);
    }

    /** The second, by download id. */
    method FindPublished(c: ConnectionId) returns (found: bool)
      requires Valid() && c in sockets && sockets[c].AdmitMap?
      modifies this
      ensures Valid() && old(steps) < steps && c in sockets
      ensures if found then sockets[c].AdmitState? else sockets[c].Serving? && !sockets[c].retained
      ensures !found ==> TurnedAwayAt(steps, |steps| - 1, c)
    {
      hide Run, Inv, Later, TurnedAwayAt;
      InterfereAs(c);
      ghost var before := Now();
      MissingLeft(steps, before, c);
      var s := sockets[c].s;
      found := sessions[s].uuid in fileDownloadMap;
      sockets := sockets[c := if found then AdmitState(fileDownloadMap[sessions[s].uuid]) else Serving(s, false)];
      RecordRetain(before, c);
    }

    /** The state check that ends `get_file_download_admission`. */
    method CheckAdmission(c: ConnectionId) returns (bound: bool)
      requires Valid() && c in sockets && sockets[c].AdmitState?
      modifies this
      ensures Valid() && old(steps) < steps && c in sockets
      ensures if bound then sockets[c].AdmitRetain? else sockets[c].Serving? && !sockets[c].retained
      ensures !bound ==> TurnedAwayAt(steps, |steps| - 1, c)
    {
      hide Run, Inv, Later, TurnedAwayAt;
      InterfereAs(c);
      ghost var before := Now();
      var s := sockets[c].s;
      bound := sessions[s].state == Connected(c);
      sockets := sockets[c := if bound then AdmitRetain(s) else Serving(s, false)];
      RecordRetain(before, c);
    }

    /** The handler's own check before it keeps the session. */
    method KeepSession(c: ConnectionId) returns (retained: bool)
      requires Valid() && c in sockets && sockets[c].AdmitRetain?
      modifies this
      ensures Valid() && old(steps) < steps && c in sockets
      ensures sockets[c].Serving? && sockets[c].retained == retained
      ensures retained ==>
        && sockets[c].s in sessions && BoundTo(sessions[sockets[c].s].state) == Some(c)
        && !sessions[sockets[c].s].state.Closed?
      ensures !retained ==> TurnedAwayAt(steps, |steps| - 1, c)
    {
      hide Run, Inv, Later, TurnedAwayAt;
      InterfereAs(c);
      ghost var before := Now();
      var s := sockets[c].s;
      retained := sessions[s].state.Connected? || sessions[s].state.Closing?;
      sockets := sockets[c := Serving(s, retained)];
      RecordRetain(before, c);
    }

    /**
     `get_file_download_admission` and the check that follows it. A session that is not retained had left
     `Connected` at the access `at`.
    */
    method RetainSession(c: ConnectionId) returns (retained: bool, ghost at: nat)
      requires Valid() && c in sockets && sockets[c].AdmitConn?
      modifies this
      ensures Valid() && old(steps) <= steps && c in sockets
      ensures sockets[c].Serving? && sockets[c].retained == retained
      ensures retained ==>
        && sockets[c].s in sessions && BoundTo(sessions[sockets[c].s].state) == Some(c)
        && !sessions[sockets[c].s].state.Closed?
      ensures !retained ==> |old(steps)| <= at && TurnedAwayAt(steps, at, c)
    {
      hide *;
      retained := FindEntry(c);
      if retained {
        retained := FindPublished(c);
      }
      if retained {
        retained := CheckAdmission(c);
      }
      if retained {
        retained := KeepSession(c);
      }
      at := |steps| - 1;
    }

    // ----- cleanup, by the worker or by a connection's own exit

    ghost predicate CleaningAs(me: Role, request: Request, at: CleanPc)
      reads this
    {
      CleaningIn(Now(), me, request, at)
    }

    /** The cleanup has returned. */
    predicate CleanedAs(me: Role)
      reads this
    {
      match me
      case CleanupWorker => worker.Idle?
      case Socket(c) => c in sockets && sockets[c].Finishing?
      case _ => false
    }

    method InterfereCleaning(me: Role, request: Request, at: CleanPc)
      requires Valid() && CleaningAs(me, request, at)
      modifies this
      ensures Valid() && old(steps) <= steps && Inv(Now()) && CleaningAs(me, request, at)
      ensures SameHold(me, old(sockets), sockets)
      ensures request.session in sessions && Left(sessions[request.session].state)
      ensures request.uuid == sessions[request.session].uuid && CleanerOk(request, at)
      ensures request.conn == BoundTo(sessions[request.session].state)
      ensures at in PAST_GATE ==> !IsPublished(Now(), request.session)
    {
      hide Run, Inv, Later, RequestOk, CleanerOk;
      Interfere(Task(me, {}));
      match me {
        case CleanupWorker => WorkerHolds(Now());
        case Socket(c) =>
          TaskHolds(Now(), c);
          CleaningTask(Now(), c);
        case _ =>
      }
      RequestMeaning(sessions, request);
      if at in PAST_GATE {
        PastGateHolds(Now(), request.session);
      }
    }

    /** The cleaning task goes on to `next`, or returns. */
    method MoveCleaner(me: Role, next: Option<CleanPc>)
      requires CleanerIn(Now(), me)
      modifies `worker, `sockets
      ensures Now() == Placed(old(Now()), me, next)
    {
      match me {
        case CleanupWorker => worker := if next.Some? then Cleaning(worker.request, next.value) else Idle;
        case Socket(c) =>
          var conn := sockets[c];
          sockets := sockets[c := if next.Some? then ExitCleaning(conn.s, conn.retained, conn.request, next.value)
                                  else Finishing(conn.s, conn.retained)];
        case _ =>
      }
    }

    ghost method RecordClean(me: Role, before: State, request: Request, at: CleanPc, alive: bool)
      requires Run(steps) == Some(before) && CleaningIn(before, me, request, at) && MayClean(before, request, at, alive)
      requires var (after, next) := CleanNext(before, request, at, alive); Now() == Placed(after, me, next)
      modifies this`steps, this`shots
      ensures old(steps) <= steps && Valid()
    {
      hide Run, ConnNext, TriggerStep, MayClean, CleanNext;
      CleanMoves(before, request, at, alive);
      Record(before, if me.CleanupWorker? then WorkerStep(alive) else ConnClean(me.c, alive));
    }

    /** The weak reference can be upgraded at least while the map holds the session. */
    method UpgradeSession(me: Role, request: Request) returns (alive: bool)
      requires Valid() && CleaningAs(me, request, Upgrade)
      modifies this
      ensures Valid() && old(steps) <= steps && SameHold(me, old(sockets), sockets)
      ensures if alive then CleaningAs(me, request, GetCluster) else CleanedAs(me) && Gone(Now(), request.session)
    {
      hide Run, Inv, RequestOk, CleanerOk;
      InterfereCleaning(me, request, Upgrade);
      ghost var before := Now();
      alive := *;
      alive := alive || (request.uuid in fileDownloadMap && fileDownloadMap[request.uuid] == request.session);
      MoveCleaner(me, if alive then Some(GetCluster) else None);
      RecordClean(me, before, request, Upgrade, alive);
    }

    method GetSessionCluster(me: Role, request: Request) returns (found: bool)
      requires Valid() && CleaningAs(me, request, GetCluster)
      modifies this
      ensures Valid() && old(steps) <= steps && SameHold(me, old(sockets), sockets)
      ensures if found then CleaningAs(me, request, RemoveSession) else CleanedAs(me) && Gone(Now(), request.session)
    {
      hide Run, Inv, RequestOk, CleanerOk, MayClean;
      InterfereCleaning(me, request, GetCluster);
      ghost var before := Now();
      PublishedCluster(before, request.session);
      found := request.session in fileDownloadClusters;
      MoveCleaner(me, if found then Some(RemoveSession) else None);
      AliveMayClean(before, request, GetCluster);
      RecordClean(me, before, request, GetCluster, true);
    }

    /** `remove_exact_download_session`: of several cleanups at most one gets past it. */
    method PassGate(me: Role, request: Request) returns (mine: bool)
      requires Valid() && CleaningAs(me, request, RemoveSession)
      modifies this
      ensures Valid() && old(steps) <= steps
      ensures SameHold(me, old(sockets), sockets) && Gone(Now(), request.session)
      ensures if mine then CleaningAs(me, request, DropCluster) else CleanedAs(me)
      ensures mine ==> torn != [] && torn[|torn|-1] == request.session
    {
      hide Run, Inv, RequestOk, CleanerOk, MayClean;
      InterfereCleaning(me, request, RemoveSession);
      ghost var before := Now();
      mine := request.uuid in fileDownloadMap && fileDownloadMap[request.uuid] == request.session;
      if mine {
        fileDownloadMap := fileDownloadMap - {request.uuid};
        torn := torn + [request.session];
      }
      MoveCleaner(me, if mine then Some(DropCluster) else None);
      AliveMayClean(before, request, RemoveSession);
      RecordClean(me, before, request, RemoveSession, true);
    }

    /** The teardown of a bound session goes on with its connection, then its sender. */
    method DropConnection(me: Role, request: Request)
      requires Valid() && CleaningAs(me, request, RemoveConn) && request.conn.Some?
      modifies this
      ensures Valid() && old(steps) <= steps && SameHold(me, old(sockets), sockets)
      ensures CleaningAs(me, request, CloseSender)
      ensures request.conn.value !in connectionMap || connectionMap[request.conn.value] != request.session
    {
      hide Run, Inv, RequestOk, CleanerOk, MayClean;
      InterfereCleaning(me, request, RemoveConn);
      ghost var before := Now();
      RemoveExactConnection(request.conn.value, request.session);
      MoveCleaner(me, Some(CloseSender));
      AliveMayClean(before, request, RemoveConn);
      RecordClean(me, before, request, RemoveConn, true);
    }

    method ClearConnection(me: Role, request: Request, at: CleanPc)
      requires Valid() && CleaningAs(me, request, at) && (at == CloseSender || at == ClearSender)
      modifies this
      ensures Valid() && old(steps) <= steps && SameHold(me, old(sockets), sockets)
      ensures Gone(Now(), request.session) && sessions[request.session].sender == None
      ensures if at == CloseSender then CleanedAs(me) else CleaningAs(me, request, CompletePending)
    {
      hide Run, Inv, RequestOk, CleanerOk, MayClean;
      InterfereCleaning(me, request, at);
      ghost var before := Now();
      SetConnection(request.session, None);
      MoveCleaner(me, if at == CloseSender then None else Some(CompletePending));
      AliveMayClean(before, request, at);
      RecordClean(me, before, request, at, true);
    }

    /** A session that never connected is completed by its cleanup. */
    method CompleteUnconnected(me: Role, request: Request)
      requires Valid() && CleaningAs(me, request, CompletePending)
      modifies this
      ensures Valid() && old(steps) <= steps && SameHold(me, old(sockets), sockets)
      ensures CleanedAs(me) && Gone(Now(), request.session) && sessions[request.session].state.Closed?
    {
      hide Run, Inv, RequestOk, MayClean;
      InterfereCleaning(me, request, CompletePending);
      ghost var before := Now();
      Complete(request.session, None);
      MoveCleaner(me, None);
      AliveMayClean(before, request, CompletePending);
      RecordClean(me, before, request, CompletePending, true);
    }

    method DropFromClusters(me: Role, request: Request)
      requires Valid() && CleaningAs(me, request, DropCluster)
      modifies this
      ensures Valid() && old(steps) <= steps && SameHold(me, old(sockets), sockets)
      ensures CleaningAs(me, request, if request.conn.Some? then RemoveConn else ClearSender)
    {
      hide Run, Inv, RequestOk, CleanerOk, MayClean;
      InterfereCleaning(me, request, DropCluster);
      ghost var before := Now();
      fileDownloadClusters := fileDownloadClusters - {request.session};
      MoveCleaner(me, Some(if request.conn.Some? then RemoveConn else ClearSender));
      AliveMayClean(before, request, DropCluster);
      RecordClean(me, before, request, DropCluster, true);
    }

    /** When a cleanup returns, its session is out of the map, whoever took it out. */
    method CleanupFileDownload(me: Role, request: Request)
      requires Valid() && CleaningAs(me, request, Upgrade)
      modifies this
      ensures Valid() && old(steps) <= steps && SameHold(me, old(sockets), sockets)
      ensures CleanedAs(me) && Gone(Now(), request.session)
    {
      hide Run, Inv, RequestOk, CleanerOk, MayClean, CleaningIn, Gone, Valid, Now;
      var open := UpgradeSession(me, request);
      if open {
        open := GetSessionCluster(me, request);
      }
      if open {
        open := PassGate(me, request);
      }
      if open {
        TearDown(me, request);
      }
    }

    /** Past the gate, by the one cleanup that got there. */
    method TearDown(me: Role, request: Request)
      requires Valid() && CleaningAs(me, request, DropCluster)
      modifies this
      ensures Valid() && old(steps) <= steps && SameHold(me, old(sockets), sockets)
      ensures CleanedAs(me) && Gone(Now(), request.session)
    {
      hide Run, Inv, RequestOk, CleanerOk, MayClean, CleaningIn, Valid, Now;
      DropFromClusters(me, request);
      if request.conn.Some? {
        DropConnection(me, request);
        ClearConnection(me, request, CloseSender);
      } else {
        ClearConnection(me, request, ClearSender);
        CompleteUnconnected(me, request);
      }
    }

    // ----- a socket's task: exit

    ghost method RecordLeave(before: State, c: ConnectionId)
      requires Run(steps) == Some(before) && c in before.conns && Exiting(before.conns[c])
      requires before.conns[c].s in before.sessions
      requires before.conns[c].ExitSending? ==> before.conns[c].s !in before.inHand
      requires Now() == LeaveNext(before, c, before.conns[c])
      modifies this`steps, this`shots
      ensures steps == old(steps) + [ConnStep(c)] && Valid()
    {
      hide Run, AdmitNext, RetainNext, LeaveNext;
      Record(before, ConnStep(c));
    }

    method FindConnection(c: ConnectionId) returns (found: bool)
      requires Valid() && c in sockets && sockets[c].ExitConn?
      modifies this
      ensures Valid() && old(steps) <= steps && c in sockets
      ensures if found then sockets[c].ExitMap? else sockets[c].Finishing?
      ensures sockets[c].retained == old(sockets)[c].retained
    {
      hide Run, Inv, Later;
      InterfereAs(c);
      ghost var before := Now();
      var ExitConn(s, retained, reason) := sockets[c];
      found := c in connectionMap;
      sockets := sockets[c := if found then ExitMap(connectionMap[c], retained, reason) else Finishing(s, retained)];
      RecordLeave(before, c);
    }

    method FindExitSession(c: ConnectionId) returns (found: bool)
      requires Valid() && c in sockets && sockets[c].ExitMap?
      modifies this
      ensures Valid() && old(steps) <= steps && c in sockets
      ensures if found then sockets[c].ExitState? else sockets[c].Finishing?
      ensures sockets[c].retained == old(sockets)[c].retained
    {
      hide Run, Inv, Later;
      InterfereAs(c);
      ghost var before := Now();
      var ExitMap(s, retained, reason) := sockets[c];
      var uuid := sessions[s].uuid;
      found := uuid in fileDownloadMap;
      sockets := sockets[c := if found then ExitState(fileDownloadMap[uuid], retained, reason)
                              else Finishing(s, retained)];
      RecordLeave(before, c);
    }

    /** Whether the session is still `Connected` to this socket. */
    method CheckExit(c: ConnectionId) returns (bound: bool)
      requires Valid() && c in sockets && sockets[c].ExitState?
      modifies this
      ensures Valid() && old(steps) <= steps && c in sockets
      ensures if bound then sockets[c].ExitTrigger? else sockets[c].Finishing?
      ensures sockets[c].retained == old(sockets)[c].retained
    {
      hide Run, Inv, Later;
      InterfereAs(c);
      ghost var before := Now();
      var ExitState(s, retained, reason) := sockets[c];
      bound := sessions[s].state == Connected(c);
      sockets := sockets[c := if bound then ExitTrigger(s, retained, reason) else Finishing(s, retained)];
      RecordLeave(before, c);
    }

    /** Another trigger may have been first; only the winner cleans up itself. */
    method TriggerExit(c: ConnectionId) returns (won: bool)
      requires Valid() && c in sockets && sockets[c].ExitTrigger?
      modifies this
      ensures Valid() && old(steps) <= steps && c in sockets
      ensures if won then sockets[c].ExitSending? && sockets[c].s in inHand else sockets[c].Finishing?
      ensures sockets[c].retained == old(sockets)[c].retained
    {
      hide Run, Inv, Later, TriggerStep;
      InterfereAs(c);
      ghost var before := Now();
      var ExitTrigger(s, retained, reason) := sockets[c];
      TriggerShape(before, s, reason);
      won := BeginClosing(s, reason);
      sockets := sockets[c := if won then ExitSending(s, retained, inHand[s]) else Finishing(s, retained)];
      RecordLeave(before, c);
    }

    /** The winner's request also goes to the worker before this task cleans up. */
    method SendExit(c: ConnectionId)
      requires Valid() && c in sockets && sockets[c].ExitSending? && sockets[c].s in inHand
      modifies this
      ensures Valid() && old(steps) <= steps && c in sockets
      ensures var conn := old(sockets)[c];
        && sockets[c] == ExitCleaning(conn.s, conn.retained, conn.request, Upgrade)
        && conn.request.session in sessions
    {
      hide Run, Inv, Later;
      var ExitSending(s, retained, request) := sockets[c];
      Interfere(Task(Socket(c), {s}));
      ExitingTask(Now(), c);
      SendRequest(s);
      ghost var before := Now();
      sockets := sockets[c := ExitCleaning(s, retained, request, Upgrade)];
      RecordLeave(before, c);
    }

    /** The winner's request and its own cleanup. */
    method CleanupExit(c: ConnectionId)
      requires Valid() && c in sockets && sockets[c].ExitSending? && sockets[c].s in inHand
      modifies this
      ensures Valid() && old(steps) <= steps && c in sockets && sockets[c].Finishing?
      ensures sockets[c].retained == old(sockets)[c].retained
    {
      hide Run, Inv, CleaningIn, CleanerIn;
      SendExit(c);
      StandsAt(Now(), c);
      CleanupFileDownload(Socket(c), sockets[c].request);
    }

    /**
     `remove_connection` for a download. A session that this exit itself has ended is recorded with the reason of
     the exit, and is out of the map when it returns.
    */
    method RemoveConnection(c: ConnectionId)
      requires Valid() && c in sockets && sockets[c].ExitConn?
      modifies this
      ensures Valid() && old(steps) <= steps && c in sockets && sockets[c].Finishing?
      ensures sockets[c].retained == old(sockets)[c].retained
      ensures sockets[c].s in sessions && Left(sessions[sockets[c].s].state)
      ensures OwnEndings(steps, Now(), c, |old(steps)|, old(sockets)[c].reason, true)
    {
      hide Run, Inv, OwnEndings;
      var ok := FindConnection(c);
      if ok {
        ok := FindExitSession(c);
      }
      if ok {
        ok := CheckExit(c);
      }
      if ok {
        ok := TriggerExit(c);
      }
      if ok {
        CleanupExit(c);
      }
      FinishingLeft(steps, Now(), c);
      ExitEndings(old(steps), old(Now()), steps, Now(), c, |old(steps)|);
    }

    /** `HandlerExitGuard::complete`, for a handler that retained its session. */
    method CompleteHandler(c: ConnectionId)
      requires Valid() && c in sockets && sockets[c].Finishing?
      modifies this
      ensures Valid() && old(steps) <= steps && c in sockets
      ensures sockets[c] == Finished(old(sockets)[c].s, old(sockets)[c].retained)
    {
      hide Run, Inv, Later;
      InterfereAs(c);
      ghost var before := Now();
      var Finishing(s, retained) := sockets[c];
      if retained {
        Complete(s, Some(c));
      }
      sockets := sockets[c := Finished(s, retained)];
      RecordLeave(before, c);
    }

    /** The read loop ends, for a reason of its own. */
    method Serve(c: ConnectionId, close: bool)
      requires Valid() && c in sockets && sockets[c].Serving?
      modifies this
      ensures Valid() && old(steps) <= steps && c in sockets
      ensures sockets[c] == ExitConn(old(sockets)[c].s, old(sockets)[c].retained,
                                     if close then WebSocketError else WebSocketClosed)
    {
      hide Run, Inv, Later, ConnNext, ConnCleanNext, WorkerNext, TriggerStep;
      InterfereAs(c);
      ghost var before := Now();
      var reason := if close then WebSocketError else WebSocketClosed;
      sockets := sockets[c := ExitConn(sockets[c].s, sockets[c].retained, reason)];
      Record(before, Exit(c, reason));
    }

    method Accept(c: ConnectionId, token: Uuid)
      requires Valid() && c !in sockets
      modifies this
      ensures Valid() && old(steps) <= steps && c in sockets && sockets[c] == Lookup(token)
    {
      hide Run, Inv, Later, ConnNext, ConnCleanNext, WorkerNext, TriggerStep;
      ghost var before := Now();
      sockets := sockets[c := Lookup(token)];
      Record(before, Open(c, token));
    }

    /**
     One dedicated socket from its upgrade to the end of its handler. A handler that retained its
     session leaves it `Closed` with this connection, whichever trigger or cleanup came first; one that
     did not, or was never admitted, was turned away at the access `at`. Whatever session the socket itself has
     ended is recorded with `ClusterOffline` at its admission, and with the reason of its close at its exit.
    */
    method HandleSocket(c: ConnectionId, token: Uuid, close: bool)
      returns (retained: Option<SessionId>, ghost at: nat)
      requires Valid() && c !in sockets
      modifies this
      ensures Valid() && old(steps) <= steps && c in sockets
      ensures retained.None? ==>
        && (sockets[c].Rejected? || (sockets[c].Finished? && !sockets[c].retained))
        && |old(steps)| <= at && TurnedAwayAt(steps, at, c)
      ensures retained.Some? ==>
        && sockets[c] == Finished(retained.value, true) && retained.value in sessions
        && sessions[retained.value].state.Closed? && sessions[retained.value].state.bound == Some(c)
      ensures if sockets[c].Rejected? then OwnEndings(steps, Now(), c, |old(steps)|, ClusterOffline, false)
              else OwnEndings(steps, Now(), c, |old(steps)|, if close then WebSocketError else WebSocketClosed, true)
    {
      hide Run, Inv, TurnedAwayAt, OwnEndings;
      retained := None;
      Accept(c, token);
      var admitted;
      admitted, at := HandleNewConnection(c, token);
      if admitted {
        admitted, at := RetainSession(c);
        ghost var decided := steps;
        Serve(c, close);
        ghost var early, mid := steps, Now();
        RemoveConnection(c);
        CompleteHandler(c);
        ExitEndings(early, mid, steps, Now(), c, |old(steps)|);
        if sockets[c].retained {
          retained := Some(sockets[c].s);
          assert steps + [] == steps;
          HandlerLeavesClosed(steps, [], Now(), Now(), c, sockets[c].s);
        } else {
          TurnedAwayStays(decided, steps, at, c);
        }
      } else {
        RejectedEndings(steps, Now(), c, |old(steps)|);
      }
    }

    /**
     The worker's next request: the oldest in the channel at the access `at`, cleaned up when this returns. There
     is none if the channel held nothing then.
    */
    method HandleRequest() returns (taken: Option<Request>, ghost at: nat)
      requires Valid() && worker.Idle?
      modifies this
      ensures Valid() && old(steps) <= steps && worker.Idle? && |old(steps)| <= at
      ensures if taken.Some? then TakenAt(steps, at, taken.value) else NothingSentAt(steps, at)
      ensures taken.Some? ==> Gone(Now(), taken.value.session)
    {
      hide Run, Inv, RequestOk, TakenAt, NothingSentAt;
      Interfere(Task(CleanupWorker, {}));
      at := |steps|;
      ChannelNow(steps, Now());
      if cleanupChannel == [] {
        return None, at;
      }
      QueueHolds(Now());
      var request := cleanupChannel[0];
      assert worker.Idle?;
      TakeRequest();
      ghost var took := steps;
      RequestMeaning(sessions, request);
      CleanupFileDownload(CleanupWorker, request);
      ChannelShown(took, steps, at, request);
      taken := Some(request);
    }

    method TakeRequest()
      requires Valid() && worker.Idle? && cleanupChannel != []
      modifies this
      ensures Valid() && steps == old(steps) + [Take] && Now() == Taken(old(Now()))
    {
      hide Run, ConnNext, ConnCleanNext, WorkerNext, TriggerStep;
      ghost var before := Now();
      worker := Cleaning(cleanupChannel[0], Upgrade);
      cleanupChannel := cleanupChannel[1..];
      Record(before, Take);
    }

    /**
     The cleanup worker over `budget` wake-ups. Each time it handles the oldest request sent, unless there is
     none; every session it has handled is gone for good.
    */
    method RunCleanupWorker(budget: nat) returns (done: seq<Request>, ghost takes: seq<nat>, ghost idle: seq<nat>)
      requires Valid() && worker.Idle?
      modifies this
      ensures Valid() && old(steps) <= steps && worker.Idle?
      ensures |done| + |idle| == budget && WorkDone(steps, |old(steps)|, done, takes, idle)
      ensures forall i :: 0 <= i < |done| ==> Gone(Now(), done[i].session)
    {
      hide Run, Inv, WorkDone, TakenAt, NothingSentAt;
      done, takes, idle := [], [], [];
      NothingDone(steps);
      for round := 0 to budget
        invariant Valid() && old(steps) <= steps && worker.Idle?
        invariant |done| + |idle| == round && WorkDone(steps, |old(steps)|, done, takes, idle)
        invariant forall i :: 0 <= i < |done| ==> Gone(Now(), done[i].session)
      {
        ghost var before, st := steps, Now();
        var taken;
        ghost var at;
        taken, at := HandleRequest();
        forall i | 0 <= i < |done| ensures Gone(Now(), done[i].session) {
          StaysUnpublished(before, st, steps, Now(), done[i].session);
        }
        if taken.Some? {
          OneMoreDone(before, |old(steps)|, done, takes, idle, steps, at, taken.value);
          done, takes := done + [taken.value], takes + [at];
        } else {
          OneMoreIdle(before, |old(steps)|, done, takes, idle, steps, at);
          idle := idle + [at];
        }
      }
    }
  }
}
