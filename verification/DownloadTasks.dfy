/**
 The tasks of the download protocol: what each may rely on while others run, and what a run shows of them at
 one of its steps.
 */
module DownloadTasks {
  import opened Wrappers
  import opened DownloadSession
  import opened DownloadProtocol
  import opened DownloadTheorems

  datatype Role = Socket(c: ConnectionId) | CleanupWorker | Creator(s: SessionId) | Caller

  /** What the running task rules out for all others: its own control flow, and the requests it has to send. */
  datatype Task = Task(role: Role, owes: set<SessionId>)

  predicate ByOther(me: Task, step: Step) {
    && (match me.role
        case Socket(c) =>
          && !(step.Open? && step.c == c) && !(step.Refuse? && step.c == c) && !(step.ConnStep? && step.c == c)
          && !(step.Exit? && step.c == c) && !(step.ConnClean? && step.c == c)
        case CleanupWorker => !step.Take? && !step.WorkerStep?
        case Creator(s) => !(step.Publish? && step.s == s)
        case Caller => true)
    && (step.Send? ==> step.s !in me.owes)
  }

  predicate ByOthers(me: Task, steps: seq<Step>) {
    forall i :: 0 <= i < |steps| ==> ByOther(me, steps[i])
  }

  /** What the running task can rely on while others run. */
  predicate Undisturbed(me: Task, st: State, after: State) {
    && Later(st.sessions, after.sessions)
    && (me.role.Socket? && me.role.c in st.conns ==>
          me.role.c in after.conns && after.conns[me.role.c] == st.conns[me.role.c])
    && (me.role.CleanupWorker? ==> after.worker == st.worker)
    && (me.role.Creator? && me.role.s in st.creating ==> me.role.s in after.creating)
    && (forall s :: s in st.sessions && s !in st.creating ==> s !in after.creating)
    && (forall s :: s in me.owes && s in st.inHand ==> s in after.inHand && after.inHand[s] == st.inHand[s])
  }

  /** A socket's own access moves no other task, and only its own trigger puts a request in hand. */
  predicate OnlyMoves(st: State, c: ConnectionId, after: State) {
    && after.worker == st.worker && after.creating == st.creating && after.torn == st.torn
    && (forall d :: d in st.conns && d != c ==> d in after.conns && after.conns[d] == st.conns[d])
    && after.conns.Keys <= st.conns.Keys + {c}
    && (forall s :: s in st.inHand && s in st.sessions && Left(st.sessions[s].state) ==>
          s in after.inHand && after.inHand[s] == st.inHand[s])
  }

  lemma GotoMoves(st: State, base: State, c: ConnectionId, conn: Conn)
    requires base.worker == st.worker && base.creating == st.creating && base.conns == st.conns && base.torn == st.torn
    requires forall s :: s in st.inHand && s in st.sessions && Left(st.sessions[s].state) ==>
               s in base.inHand && base.inHand[s] == st.inHand[s]
    ensures OnlyMoves(st, c, Goto(base, c, conn))
  {
  }

  lemma TriggerMoves(st: State, s: SessionId, reason: Reason, c: ConnectionId, conn: Conn)
    requires s in st.sessions
    ensures OnlyMoves(st, c, Goto(TriggerStep(st, s, reason), c, conn))
  {
    GotoMoves(st, TriggerStep(st, s, reason), c, conn);
  }

  lemma AdmitMoves(st: State, c: ConnectionId)
    requires c in st.conns && Admitting(st.conns[c])
    requires SessionOf(st.conns[c]).Some? ==> SessionOf(st.conns[c]).value in st.sessions
    ensures OnlyMoves(st, c, AdmitNext(st, c, st.conns[c]))
  {
    hide OnlyMoves, TriggerStep, RemoveExact;
    match st.conns[c] {
      case Lookup(token) => GotoMoves(st, st, c, AdmitNext(st, c, st.conns[c]).conns[c]);
      case Binding(s) =>
        GotoMoves(st, st, c, Rejected);
        GotoMoves(st, SetState(st, s, Connected(c)), c, Finding(s));
      case Finding(s) => GotoMoves(st, st, c, AdmitNext(st, c, st.conns[c]).conns[c]);
      case Offline(s) => TriggerMoves(st, s, ClusterOffline, c, Rejected);
      case _ => InstallMoves(st, c);
    }
  }

  lemma InstallMoves(st: State, c: ConnectionId)
    requires c in st.conns && SessionOf(st.conns[c]).Some? && st.conns[c].s in st.sessions
    requires st.conns[c].Installing? || st.conns[c].Checking? || st.conns[c].Inserting?
             || st.conns[c].Rechecking? || st.conns[c].UndoMap? || st.conns[c].UndoSender?
    ensures OnlyMoves(st, c, AdmitNext(st, c, st.conns[c]))
  {
    hide OnlyMoves, TriggerStep;
    match st.conns[c] {
      case Installing(s) => GotoMoves(st, SetSender(st, s, Some(c)), c, Checking(s));
      case Checking(s) => GotoMoves(st, st, c, AdmitNext(st, c, st.conns[c]).conns[c]);
      case Inserting(s) => GotoMoves(st, st.(connections := st.connections[c := s]), c, Rechecking(s));
      case Rechecking(s) => GotoMoves(st, st, c, AdmitNext(st, c, st.conns[c]).conns[c]);
      case UndoMap(s) => GotoMoves(st, RemoveExact(st, c, s), c, UndoSender(s));
      case UndoSender(s) => GotoMoves(st, SetSender(st, s, None), c, Rejected);
    }
  }

  lemma LeaveMoves(st: State, c: ConnectionId)
    requires c in st.conns && (SessionOf(st.conns[c]).Some? ==> SessionOf(st.conns[c]).value in st.sessions)
    ensures OnlyMoves(st, c, LeaveNext(st, c, st.conns[c]))
  {
    hide OnlyMoves, TriggerStep;
    var next := LeaveNext(st, c, st.conns[c]).conns[c];
    GotoMoves(st, st, c, next);
    SameMoves(st, c);
    match st.conns[c] {
      case ExitTrigger(s, _, reason) => TriggerMoves(st, s, reason, c, next);
      case Finishing(s, _) => GotoMoves(st, SetState(st, s, Completed(st.sessions[s].state, Some(c))), c, next);
      case _ =>
    }
  }

  lemma SameMoves(st: State, c: ConnectionId)
    ensures OnlyMoves(st, c, st)
  {
  }

  lemma RetainMoves(st: State, c: ConnectionId)
    requires c in st.conns && (SessionOf(st.conns[c]).Some? ==> SessionOf(st.conns[c]).value in st.sessions)
    ensures OnlyMoves(st, c, RetainNext(st, c, st.conns[c]))
  {
    hide OnlyMoves;
    GotoMoves(st, st, c, RetainNext(st, c, st.conns[c]).conns[c]);
    SameMoves(st, c);
  }

  lemma ConnMoves(st: State, c: ConnectionId)
    requires Enabled(st, ConnStep(c))
    ensures OnlyMoves(st, c, ConnNext(st, c, st.conns[c]))
  {
    hide RetainNext, LeaveNext, AdmitNext, OnlyMoves;
    if Admitting(st.conns[c]) {
      AdmitMoves(st, c);
    }
    LeaveMoves(st, c);
    RetainMoves(st, c);
  }

  lemma CleanMoves(st: State, request: Request, at: CleanPc, alive: bool)
    requires request.session in st.sessions
    ensures var after := CleanNext(st, request, at, alive).0;
      && after.worker == st.worker && after.conns == st.conns && after.creating == st.creating
      && after.inHand == st.inHand
      && st.torn <= after.torn
  {
  }

  lemma InHandLeft(st: State)
    requires Inv(st)
    ensures forall s :: s in st.inHand ==> s in st.sessions && Left(st.sessions[s].state)
  {
    hide SessionOk, ConnectionOk, ConnOk, RequestsFor;
  }

  lemma OtherStepUndisturbed(me: Task, st: State, step: Step)
    requires Inv(st) && Enabled(st, step) && ByOther(me, step)
    ensures Undisturbed(me, st, Apply(st, step))
  {
    hide Inv, ConnNext, CleanNext, Later;
    StepAdvances(st, step);
    InHandLeft(st);
    match step
    case ConnStep(c) => ConnMoves(st, c);
    case WorkerStep(alive) => CleanMoves(st, st.worker.request, st.worker.at, alive);
    case ConnClean(c, alive) => CleanMoves(st, st.conns[c].request, st.conns[c].at, alive);
    case _ =>
  }

  lemma LaterKnows(before: map<SessionId, Entry>, after: map<SessionId, Entry>)
    requires Later(before, after)
    ensures before.Keys <= after.Keys
  {
  }

  lemma {:induction false} OthersUndisturbed(me: Task, steps: seq<Step>, st: State, others: seq<Step>, after: State)
    requires Run(steps) == Some(st) && Run(steps + others) == Some(after) && ByOthers(me, others)
    ensures Undisturbed(me, st, after)
  {
    hide Inv, Apply, Enabled, Later;
    if others == [] {
      assert steps + others == steps;
      SameAdvances(st.sessions);
    } else {
      var front := others[..|others|-1];
      assert (steps + others)[..|steps + others|-1] == steps + front;
      var before := Run(steps + front).value;
      OthersUndisturbed(me, steps, st, front, before);
      LaterKnows(st.sessions, before.sessions);
      InvHolds(steps + front, before);
      OtherStepUndisturbed(me, before, others[|others|-1]);
      LaterTransitive(st.sessions, before.sessions, after.sessions);
    }
  }

  lemma BeingCreated(st: State, s: SessionId)
    requires Inv(st) && s in st.creating
    ensures s in st.sessions && st.sessions[s].state.Pending? && st.sessions[s].sender.None? && s in st.clusters
  {
    hide RequestsFor, RequestOk, ConnectionOk, ConnOk;
    assert SessionOk(st, s);
  }

  lemma UndoingLeft(st: State, c: ConnectionId)
    requires Inv(st) && c in st.conns && st.conns[c].UndoSender?
    ensures st.conns[c].s in st.sessions && Left(st.sessions[st.conns[c].s].state)
  {
    hide SessionOk, ConnectionOk, BaseOk, RequestOk;
    assert ConnOk(st, c);
  }

  lemma PastGateHolds(st: State, s: SessionId)
    requires Inv(st) && s in st.sessions && CleanerAt(st, s, PAST_GATE)
    ensures !IsPublished(st, s) && s !in st.creating
  {
    hide SessionOk, ConnectionOk, BaseOk, ConnOk;
    PastGateUnpublished(st, s);
  }

  predicate CleanerIn(st: State, me: Role) {
    match me
    case CleanupWorker => st.worker.Cleaning?
    case Socket(c) => c in st.conns && st.conns[c].ExitCleaning?
    case _ => false
  }

  /** The task making the next access of a cleanup, and where it is. */
  predicate CleaningIn(st: State, me: Role, request: Request, at: CleanPc) {
    && CleanerIn(st, me) && request.session in st.sessions
    && match me
       case CleanupWorker => st.worker == Cleaning(request, at)
       case Socket(c) => st.conns[c].request == request && st.conns[c].at == at
       case _ => false
  }

  /** What a socket's task that cleans up, or has done so, holds. */
  function Hold(conn: Conn): Option<(SessionId, bool)> {
    if conn.ExitCleaning? || conn.Finishing? then Some((conn.s, conn.retained)) else None
  }

  predicate SameHold(me: Role, before: map<ConnectionId, Conn>, after: map<ConnectionId, Conn>) {
    me.Socket? ==> me.c in before && me.c in after && Hold(after[me.c]) == Hold(before[me.c])
  }

  function Placed(st: State, me: Role, next: Option<CleanPc>): State
    requires CleanerIn(st, me)
  {
    match me
    case CleanupWorker => st.(worker := if next.Some? then Cleaning(st.worker.request, next.value) else Idle)
    case Socket(c) =>
      var conn := st.conns[c];
      Goto(st, c, if next.Some? then ExitCleaning(conn.s, conn.retained, conn.request, next.value)
                  else Finishing(conn.s, conn.retained))
    case _ => st
  }

  lemma PublishedCluster(st: State, s: SessionId)
    requires Inv(st) && s in st.sessions
    ensures IsPublished(st, s) ==> s in st.clusters
  {
    hide SessionOk, ConnectionOk, BaseOk, ConnOk;
    PublishedHasCluster(st, s);
  }

  lemma AliveMayClean(st: State, request: Request, at: CleanPc)
    requires request.session in st.sessions
    ensures MayClean(st, request, at, true)
  {
  }

  predicate Exiting(conn: Conn) {
    || conn.ExitConn? || conn.ExitMap? || conn.ExitState? || conn.ExitTrigger? || conn.ExitSending?
    || conn.Finishing?
  }

  /** Out of the map, with its shutdown recorded. */
  predicate Gone(st: State, s: SessionId) {
    s in st.sessions && Left(st.sessions[s].state) && !IsPublished(st, s)
  }

  lemma QueueHolds(st: State)
    requires Inv(st) && st.queue != []
    ensures RequestOk(st.sessions, st.queue[0])
  {
    hide SessionOk, ConnectionOk, ConnOk, RequestsFor, RequestOk;
  }

  /** The session is bound to this connection and, until it leaves `Connected`, reachable through it. */
  predicate Served(st: State, c: ConnectionId, s: SessionId) {
    && s in st.sessions
    && (Left(st.sessions[s].state)
        || (&& st.sessions[s] == Entry(st.sessions[s].uuid, Connected(c), Some(c))
            && c in st.connections && st.connections[c] == s))
  }

  lemma AdmittedIsServed(steps: seq<Step>, st: State, c: ConnectionId)
    requires Run(steps) == Some(st) && c in st.conns && st.conns[c].AdmitConn?
    ensures Served(st, c, st.conns[c].s)
  {
    AdmittedIsReachable(steps, st, c);
  }

  /** What the next access of a socket's task finds when it does not go on towards serving its session. */
  predicate TurnsAway(st: State, c: ConnectionId)
    requires c in st.conns
  {
    match st.conns[c]
    case Lookup(token) => token !in st.published
    case Binding(s) => s in st.sessions && !st.sessions[s].state.Pending?
    case Finding(s) => HasLeft(st, s) && s !in st.clusters
    case Checking(s) => HasLeft(st, s)
    case Rechecking(s) => HasLeft(st, s)
    case AdmitConn(s) => HasLeft(st, s) && c !in st.connections
    case AdmitMap(s) => HasLeft(st, s) && st.sessions[s].uuid !in st.published
    case AdmitState(s) => HasLeft(st, s)
    case AdmitRetain(s) => HasLeft(st, s) && st.sessions[s].state.Closed?
    case _ => false
  }

  predicate HasLeft(st: State, s: SessionId) {
    s in st.sessions && Left(st.sessions[s].state)
  }

  /** The step at `at` of a run is the access at which this socket's task was turned away. */
  ghost predicate TurnedAwayAt(steps: seq<Step>, at: nat, c: ConnectionId) {
    && at < |steps| && steps[at] == ConnStep(c)
    && var before := Run(steps[..at]);
    && before.Some? && c in before.value.conns && TurnsAway(before.value, c)
  }

  lemma JustTurnedAway(steps: seq<Step>, st: State, c: ConnectionId)
    requires Run(steps) == Some(st) && c in st.conns && TurnsAway(st, c)
    ensures TurnedAwayAt(steps + [ConnStep(c)], |steps|, c)
  {
    hide Run, TurnsAway;
    assert (steps + [ConnStep(c)])[..|steps|] == steps;
  }

  lemma TurnedAwayStays(steps: seq<Step>, longer: seq<Step>, at: nat, c: ConnectionId)
    requires TurnedAwayAt(steps, at, c) && steps <= longer
    ensures TurnedAwayAt(longer, at, c)
  {
    hide Run, TurnsAway;
    assert longer[..at] == steps[..at];
  }

  /** A session without its cluster, its map entry, or the entry of its admitted socket has left `Connected`. */
  lemma MissingLeft(steps: seq<Step>, st: State, c: ConnectionId)
    requires Run(steps) == Some(st) && c in st.conns && (st.conns[c].Finding? || Retaining(st.conns[c]))
    ensures var s := st.conns[c].s;
      && s in st.sessions
      && (s !in st.clusters || st.sessions[s].uuid !in st.published || (Retaining(st.conns[c]) && c !in st.connections)
          ==> Left(st.sessions[s].state))
  {
    hide SessionOk, ConnectionOk, BaseOk, ConnOk, Run;
    InvHolds(steps, st);
    BoundTask(st, c);
    UnpublishedLeft(st, st.conns[c].s);
    PublishedCluster(st, st.conns[c].s);
    if Retaining(st.conns[c]) {
      AdmittedIsReachable(steps, st, c);
    }
  }

  lemma FinishingLeft(steps: seq<Step>, st: State, c: ConnectionId)
    requires Run(steps) == Some(st) && c in st.conns && st.conns[c].Finishing?
    ensures st.conns[c].s in st.sessions && Left(st.sessions[st.conns[c].s].state)
  {
    hide Run, SessionOk, ConnectionOk, BaseOk, RequestOk;
    InvHolds(steps, st);
    assert ConnOk(st, c);
  }

  lemma ExitingTask(st: State, c: ConnectionId)
    requires Inv(st) && c in st.conns && st.conns[c].ExitSending?
    ensures st.conns[c].s in st.sessions && st.conns[c].request.session == st.conns[c].s
  {
    hide SessionOk, ConnectionOk, BaseOk;
    assert ConnOk(st, c);
  }

  /** After its first `at` steps the run's cleanup channel held nothing. */
  ghost predicate NothingSentAt(steps: seq<Step>, at: nat) {
    at <= |steps| && Run(steps[..at]).Some? && Run(steps[..at]).value.queue == []
  }

  /** The step at `at` takes this request, the oldest in the channel. */
  ghost predicate TakenAt(steps: seq<Step>, at: nat, request: Request) {
    && at < |steps| && steps[at] == Take && Run(steps[..at]).Some?
    && var queue := Run(steps[..at]).value.queue;
    && queue != [] && queue[0] == request
  }

  lemma ChannelShown(steps: seq<Step>, longer: seq<Step>, at: nat, request: Request)
    requires steps <= longer
    ensures NothingSentAt(steps, at) ==> NothingSentAt(longer, at)
    ensures TakenAt(steps, at, request) ==> TakenAt(longer, at, request)
  {
    hide Run;
    if at <= |steps| {
      assert longer[..at] == steps[..at];
    }
  }

  /**
   What a worker has done since the first `base` steps: it took these requests, in order, one each time, and
   found the channel empty at the other times.
  */
  ghost predicate WorkDone(steps: seq<Step>, base: nat, done: seq<Request>, takes: seq<nat>, idle: seq<nat>) {
    && |takes| == |done|
    && (forall i | 0 <= i < |done| :: base <= takes[i] && TakenAt(steps, takes[i], done[i]))
    && (forall i, j | 0 <= i < j < |takes| :: takes[i] < takes[j])
    && (forall i | 0 <= i < |idle| :: base <= idle[i] && NothingSentAt(steps, idle[i]))
  }

  lemma NothingDone(steps: seq<Step>)
    ensures WorkDone(steps, |steps|, [], [], [])
  {
  }

  lemma WorkStays(steps: seq<Step>, base: nat, done: seq<Request>, takes: seq<nat>, idle: seq<nat>,
                  longer: seq<Step>)
    requires WorkDone(steps, base, done, takes, idle) && steps <= longer
    ensures WorkDone(longer, base, done, takes, idle)
  {
    hide NothingSentAt, TakenAt;
    forall i | 0 <= i < |done| ensures TakenAt(longer, takes[i], done[i]) {
      ChannelShown(steps, longer, takes[i], done[i]);
    }
    forall i | 0 <= i < |idle| ensures NothingSentAt(longer, idle[i]) {
      ChannelShown(steps, longer, idle[i], Request(0, 0, None, Complete));
    }
  }

  lemma OneMoreDone(steps: seq<Step>, base: nat, done: seq<Request>, takes: seq<nat>, idle: seq<nat>,
                    longer: seq<Step>, at: nat, request: Request)
    requires WorkDone(steps, base, done, takes, idle) && steps <= longer && base <= |steps| <= at
    requires TakenAt(longer, at, request)
    ensures WorkDone(longer, base, done + [request], takes + [at], idle)
  {
    hide Run;
    WorkStays(steps, base, done, takes, idle, longer);
    forall i | 0 <= i < |takes| ensures takes[i] < at {
      assert TakenAt(steps, takes[i], done[i]);
    }
  }

  lemma OneMoreIdle(steps: seq<Step>, base: nat, done: seq<Request>, takes: seq<nat>, idle: seq<nat>,
                    longer: seq<Step>, at: nat)
    requires WorkDone(steps, base, done, takes, idle) && steps <= longer && base <= at && NothingSentAt(longer, at)
    ensures WorkDone(longer, base, done, takes, idle + [at])
  {
    hide NothingSentAt, TakenAt;
    WorkStays(steps, base, done, takes, idle, longer);
  }

  /** What the channel shows now, it shows at the end of the run and of its next step. */
  lemma ChannelNow(steps: seq<Step>, st: State)
    requires Run(steps) == Some(st)
    ensures st.queue == [] ==> NothingSentAt(steps, |steps|)
    ensures st.queue != [] ==> TakenAt(steps + [Take], |steps|, st.queue[0])
  {
    hide Run;
    assert steps[..|steps|] == steps && (steps + [Take])[..|steps|] == steps;
  }

  lemma StandsAt(st: State, c: ConnectionId)
    requires c in st.conns && st.conns[c].ExitCleaning? && st.conns[c].request.session in st.sessions
    ensures CleaningIn(st, Socket(c), st.conns[c].request, st.conns[c].at)
  {
  }

  lemma StepTorn(st: State, step: Step)
    requires Enabled(st, step)
    ensures st.torn <= Apply(st, step).torn
  {
    hide ConnNext, CleanNext;
    match step
    case ConnStep(c) => ConnMoves(st, c);
    case WorkerStep(alive) => CleanMoves(st, st.worker.request, st.worker.at, alive);
    case ConnClean(c, alive) => CleanMoves(st, st.conns[c].request, st.conns[c].at, alive);
    case _ =>
  }

  /** A session once torn down stays so. */
  lemma {:induction false} TornStays(steps: seq<Step>, more: seq<Step>, st: State, later: State)
    requires Run(steps) == Some(st) && Run(steps + more) == Some(later)
    ensures st.torn <= later.torn
  {
    hide Apply, Enabled;
    if more == [] {
      assert steps + more == steps;
    } else {
      var front := more[..|more|-1];
      assert (steps + more)[..|steps + more|-1] == steps + front;
      var before := Run(steps + front).value;
      TornStays(steps, front, st, before);
      StepTorn(before, more[|more|-1]);
    }
  }

  /** Over a run that extends another, whoever was torn down stays unpublished. */
  lemma StaysUnpublished(steps: seq<Step>, st: State, later: seq<Step>, after: State, s: SessionId)
    requires Run(steps) == Some(st) && Run(later) == Some(after) && steps <= later
    requires s in st.sessions && Left(st.sessions[s].state) && !IsPublished(st, s)
    ensures s in after.sessions && Left(after.sessions[s].state) && !IsPublished(after, s)
  {
    hide Inv, Apply, Enabled, Run;
    var more := later[|steps|..];
    assert steps + more == later;
    LifecycleForward(steps, more, st, after);
    TornStays(steps, more, st, after);
    InvHolds(steps, st);
    if s in st.creating {
      BeingCreated(st, s);
    }
    OneTeardown(steps, st, s);
    assert s in st.torn;
    OneTeardown(later, after, s);
  }

  lemma RunExtend(steps: seq<Step>, st: State, step: Step)
    requires Run(steps) == Some(st) && Enabled(st, step)
    ensures Run(steps + [step]) == Some(Apply(st, step))
  {
    assert (steps + [step])[..|steps|] == steps;
  }
}
