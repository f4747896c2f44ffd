/**
 Which access of which task ended a session, and with which reason: read off the history of a run, for every
 interleaving.
 */
module DownloadReasons {
  import opened Wrappers
  import opened DownloadSession
  import opened DownloadProtocol
  import opened DownloadTheorems
  import opened DownloadTasks

  /** After its first `p` steps the run knows the session, and it has not left `Connected`. */
  ghost predicate OpenAt(steps: seq<Step>, p: nat, s: SessionId) {
    p <= |steps| && Run(steps[..p]).Some? && s in Run(steps[..p]).value.sessions
    && !Left(Run(steps[..p]).value.sessions[s].state)
  }

  /** The step at `p` found the session open and left it closing. */
  ghost predicate EndedBy(steps: seq<Step>, p: nat, s: SessionId) {
    && p < |steps| && OpenAt(steps, p, s) && Run(steps[..p + 1]).Some?
    && HasLeft(Run(steps[..p + 1]).value, s)
  }

  /** Before its step at `p`, the read loop of this socket had ended with this reason. */
  ghost predicate ExitSaid(steps: seq<Step>, p: nat, c: ConnectionId, reason: Reason) {
    exists q: nat :: q < p && q < |steps| && steps[q] == Exit(c, reason)
  }

  /**
   The reason the step at `p` calls for: a trigger's own; `ClusterOffline` when the socket has found no cluster; or
   else the one its read loop has ended with.
  */
  ghost predicate CallsFor(steps: seq<Step>, p: nat, s: SessionId, reason: Reason)
    requires p < |steps| && Run(steps[..p]).Some?
  {
    match steps[p]
    case Fire(t, why) => t == s && why == reason
    case ConnStep(c) =>
      && c in Run(steps[..p]).value.conns
      && var conn := Run(steps[..p]).value.conns[c];
      && (|| (conn == Offline(s) && reason == ClusterOffline)
          || (conn.ExitTrigger? && conn.s == s && ExitSaid(steps, p, c, reason)))
    case _ => false
  }

  /** What the step that ended a session has put on record. */
  ghost predicate Recorded(steps: seq<Step>, p: nat, s: SessionId, state: Lifecycle) {
    && EndedBy(steps, p, s) && Left(state)
    && CallsFor(steps, p, s, state.reason)
    && state.bound == BoundTo(Run(steps[..p]).value.sessions[s].state)
  }

  lemma EndStays(steps: seq<Step>, longer: seq<Step>, p: nat, s: SessionId)
    requires steps <= longer && p < |steps|
    ensures EndedBy(steps, p, s) <==> EndedBy(longer, p, s)
    ensures Run(steps[..p]).Some? ==>
      forall reason :: CallsFor(steps, p, s, reason) ==> Run(longer[..p]).Some? && CallsFor(longer, p, s, reason)
  {
    hide Run;
    assert longer[..p] == steps[..p] && longer[..p + 1] == steps[..p + 1];
    forall reason, c | ExitSaid(steps, p, c, reason) ensures ExitSaid(longer, p, c, reason) {
      var q: nat :| q < p && q < |steps| && steps[q] == Exit(c, reason);
      assert longer[q] == Exit(c, reason);
    }
  }

  // ----- what a socket says at its exit is what its task carries on

  /** Past the end of its read loop. */
  predicate Ending(conn: Conn) {
    Exiting(conn) || conn.ExitCleaning? || conn.Finished?
  }

  /** The reason the task carries from the end of its read loop to its trigger. */
  predicate Carries(conn: Conn, reason: Reason) {
    match conn
    case ExitConn(_, _, r) => r == reason
    case ExitMap(_, _, r) => r == reason
    case ExitState(_, _, r) => r == reason
    case ExitTrigger(_, _, r) => r == reason
    case _ => true
  }

  lemma GoesOn(next: State, c: ConnectionId, conn: Conn, reason: Reason)
    requires Ending(conn) && Carries(conn, reason)
    ensures var after := Goto(next, c, conn);
      c in after.conns && Ending(after.conns[c]) && Carries(after.conns[c], reason)
  {
    hide Ending, Carries;
  }

  lemma LeaveCarries(st: State, c: ConnectionId, reason: Reason)
    requires Enabled(st, ConnStep(c)) && !Admitting(st.conns[c]) && !Retaining(st.conns[c])
    requires Carries(st.conns[c], reason)
    ensures var next := LeaveNext(st, c, st.conns[c]);
      c in next.conns && Ending(next.conns[c]) && Carries(next.conns[c], reason)
  {
    hide RetainNext, AdmitNext, ConnNext, TriggerStep, Completed;
    var conn := st.conns[c];
    if conn.ExitTrigger? {
      var after := TriggerStep(st, conn.s, conn.reason);
      TriggerShape(st, conn.s, conn.reason);
      GoesOn(after, c, if Left(st.sessions[conn.s].state) then Finishing(conn.s, conn.retained)
                       else ExitSending(conn.s, conn.retained, after.inHand[conn.s]), reason);
    } else if conn.Finishing? {
      GoesOn(if conn.retained then SetState(st, conn.s, Completed(st.sessions[conn.s].state, Some(c))) else st, c,
             Finished(conn.s, conn.retained), reason);
    } else {
      ExitLooksCarry(st, c, reason);
    }
  }

  lemma ExitLooksCarry(st: State, c: ConnectionId, reason: Reason)
    requires Enabled(st, ConnStep(c)) && Carries(st.conns[c], reason)
    requires st.conns[c].ExitConn? || st.conns[c].ExitMap? || st.conns[c].ExitState? || st.conns[c].ExitSending?
    ensures var next := LeaveNext(st, c, st.conns[c]);
      c in next.conns && Ending(next.conns[c]) && Carries(next.conns[c], reason)
  {
    hide RetainNext, AdmitNext, ConnNext, TriggerStep, Completed;
  }

  /** One step: an ending task stays one, and goes on carrying its reason. */
  lemma EndingStays(st: State, step: Step, c: ConnectionId, reason: Reason)
    requires Enabled(st, step) && c in st.conns && Ending(st.conns[c]) && Carries(st.conns[c], reason)
    ensures var next := Apply(st, step); c in next.conns && Ending(next.conns[c]) && Carries(next.conns[c], reason)
  {
    hide CleanNext, AdmitNext, RetainNext, LeaveNext, TriggerStep;
    match step
    case ConnStep(d) =>
      if c == d {
        LeaveCarries(st, c, reason);
      } else {
        ConnMoves(st, d);
      }
    case WorkerStep(alive) => CleanMoves(st, st.worker.request, st.worker.at, alive);
    case ConnClean(d, alive) => CleanMoves(st, st.conns[d].request, st.conns[d].at, alive);
    case Fire(s, why) => TriggerShape(st, s, why);
    case _ =>
  }

  /** Once its read loop has ended, a socket's task is past it for good, with that reason. */
  lemma {:induction false} ExitKept(steps: seq<Step>, st: State, c: ConnectionId, reason: Reason, q: nat)
    requires Run(steps) == Some(st) && q < |steps| && steps[q] == Exit(c, reason)
    ensures c in st.conns && Ending(st.conns[c]) && Carries(st.conns[c], reason)
  {
    hide Apply, Enabled, Ending, Carries;
    var front := steps[..|steps|-1];
    var before := Run(front).value;
    if q == |front| {
      ExitBegins(before, c, reason);
    } else {
      ExitKept(front, before, c, reason, q);
      EndingStays(before, steps[|front|], c, reason);
    }
  }

  lemma ExitBegins(st: State, c: ConnectionId, reason: Reason)
    requires Enabled(st, Exit(c, reason))
    ensures var next := Apply(st, Exit(c, reason));
      c in next.conns && Ending(next.conns[c]) && next.conns[c].ExitConn? && Carries(next.conns[c], reason)
  {
  }

  /** A read loop ends once. */
  lemma NoSecondExit(steps: seq<Step>, c: ConnectionId, first: nat, second: nat)
    requires Run(steps).Some? && first < second < |steps| && steps[first].Exit? && steps[first].c == c
    ensures !(steps[second].Exit? && steps[second].c == c)
  {
    hide Apply;
    PrefixRuns(steps, second + 1);
    PrefixRuns(steps, second);
    var front := steps[..second];
    assert steps[..second + 1][..second] == front;
    ExitKept(front, Run(front).value, c, steps[first].reason, first);
  }

  lemma ExitOnce(steps: seq<Step>, c: ConnectionId, first: nat, second: nat)
    requires Run(steps).Some? && first < |steps| && second < |steps| && steps[first].Exit? && steps[second].Exit?
    requires steps[first].c == c && steps[second].c == c
    ensures first == second
  {
    hide Run;
    if first < second {
      NoSecondExit(steps, c, first, second);
    } else if second < first {
      NoSecondExit(steps, c, second, first);
    }
  }

  lemma {:induction false} PrefixRuns(steps: seq<Step>, p: nat)
    requires Run(steps).Some? && p <= |steps|
    ensures Run(steps[..p]).Some?
  {
    if p == |steps| {
      assert steps[..p] == steps;
    } else {
      assert steps[..|steps|-1][..p] == steps[..p];
      PrefixRuns(steps[..|steps|-1], p);
    }
  }

  /** Every task on its way from the end of its read loop to its trigger carries a reason that was said. */
  lemma {:induction false} CarriedWasSaid(steps: seq<Step>, st: State, c: ConnectionId)
    requires Run(steps) == Some(st) && c in st.conns && Ending(st.conns[c])
    ensures exists reason :: ExitSaid(steps, |steps|, c, reason) && Carries(st.conns[c], reason)
  {
    hide Apply, Enabled, Ending, Carries;
    assert steps != [] by { NoConnsAtFirst(); }
    var front, step := steps[..|steps|-1], steps[|steps|-1];
    var before := Run(front).value;
    if c in before.conns && Ending(before.conns[c]) {
      CarriedWasSaid(front, before, c);
      var reason :| ExitSaid(front, |front|, c, reason) && Carries(before.conns[c], reason);
      var q: nat :| q < |front| && front[q] == Exit(c, reason);
      assert steps[q] == Exit(c, reason);
      EndingStays(before, step, c, reason);
    } else {
      EndingBegins(before, step, c);
      ExitBegins(before, c, step.reason);
      assert steps[|front|] == Exit(c, step.reason);
    }
  }

  lemma NoConnsAtFirst()
    ensures Run([]) == Some(Init()) && Init().conns == map[]
  {
  }

  /** Only the end of its read loop makes a task an ending one. */
  lemma EndingBegins(st: State, step: Step, c: ConnectionId)
    requires Enabled(st, step) && (c in st.conns ==> !Ending(st.conns[c]))
    requires c in Apply(st, step).conns && Ending(Apply(st, step).conns[c])
    ensures step.Exit? && step.c == c
  {
    hide CleanNext, AdmitNext, RetainNext, LeaveNext, TriggerStep;
    match step
    case ConnStep(d) =>
      if c != d {
        ConnMoves(st, d);
      } else {
        ConnStaysOut(st, c);
      }
    case WorkerStep(alive) => CleanMoves(st, st.worker.request, st.worker.at, alive);
    case ConnClean(d, alive) => CleanMoves(st, st.conns[d].request, st.conns[d].at, alive);
    case Fire(s, why) => TriggerShape(st, s, why);
    case _ =>
  }

  lemma ConnStaysOut(st: State, c: ConnectionId)
    requires Enabled(st, ConnStep(c)) && !Ending(st.conns[c])
    ensures var next := ConnNext(st, c, st.conns[c]); c in next.conns && !Ending(next.conns[c])
  {
    hide AdmitNext, LeaveNext, RetainNext;
    if Admitting(st.conns[c]) {
      AdmitStaysOut(st, c);
    } else {
      RetainStaysOut(st, c);
    }
  }

  lemma StaysOut(next: State, c: ConnectionId, conn: Conn)
    requires !Ending(conn)
    ensures var after := Goto(next, c, conn); c in after.conns && !Ending(after.conns[c])
  {
    hide Ending;
  }

  lemma AdmitStaysOut(st: State, c: ConnectionId)
    requires Enabled(st, ConnStep(c)) && Admitting(st.conns[c])
    ensures var next := AdmitNext(st, c, st.conns[c]); c in next.conns && !Ending(next.conns[c])
  {
    hide RetainNext, LeaveNext, ConnNext, TriggerStep, RemoveExact, Bind;
    match st.conns[c] {
      case Lookup(token) => StaysOut(st, c, if token in st.published then Binding(st.published[token]) else Rejected);
      case Binding(s) =>
        StaysOut(st, c, Rejected);
        if Bind(st.sessions[s].state, c).Some? {
          StaysOut(SetState(st, s, Bind(st.sessions[s].state, c).value), c, Finding(s));
        }
      case Finding(s) => StaysOut(st, c, if s in st.clusters then Installing(s) else Offline(s));
      case Offline(s) => StaysOut(TriggerStep(st, s, ClusterOffline), c, Rejected);
      case _ => InstallStaysOut(st, c);
    }
  }

  lemma InstallStaysOut(st: State, c: ConnectionId)
    requires Enabled(st, ConnStep(c))
    requires st.conns[c].Installing? || st.conns[c].Checking? || st.conns[c].Inserting?
             || st.conns[c].Rechecking? || st.conns[c].UndoMap? || st.conns[c].UndoSender?
    ensures var next := AdmitNext(st, c, st.conns[c]); c in next.conns && !Ending(next.conns[c])
  {
    hide RetainNext, LeaveNext, ConnNext, TriggerStep, RemoveExact, Bind;
    match st.conns[c] {
      case Installing(s) => StaysOut(SetSender(st, s, Some(c)), c, Checking(s));
      case Checking(s) =>
        StaysOut(st, c, if st.sessions[s].state == Connected(c) then Inserting(s) else UndoSender(s));
      case Inserting(s) => StaysOut(st.(connections := st.connections[c := s]), c, Rechecking(s));
      case Rechecking(s) =>
        StaysOut(st, c, if st.sessions[s].state == Connected(c) then AdmitConn(s) else UndoMap(s));
      case UndoMap(s) => StaysOut(RemoveExact(st, c, s), c, UndoSender(s));
      case UndoSender(s) => StaysOut(SetSender(st, s, None), c, Rejected);
    }
  }

  lemma RetainStaysOut(st: State, c: ConnectionId)
    requires Enabled(st, ConnStep(c)) && Retaining(st.conns[c])
    ensures var next := RetainNext(st, c, st.conns[c]); c in next.conns && !Ending(next.conns[c])
  {
    hide AdmitNext, LeaveNext, ConnNext;
    match st.conns[c] {
      case AdmitConn(s) =>
        StaysOut(st, c, if c in st.connections then AdmitMap(st.connections[c]) else Serving(s, false));
      case AdmitMap(s) =>
        var uuid := st.sessions[s].uuid;
        StaysOut(st, c, if uuid in st.published then AdmitState(st.published[uuid]) else Serving(s, false));
      case AdmitState(s) =>
        StaysOut(st, c, if st.sessions[s].state == Connected(c) then AdmitRetain(s) else Serving(s, false));
      case AdmitRetain(s) =>
        var state := st.sessions[s].state;
        StaysOut(st, c, Serving(s, state.Connected? || state.Closing?));
    }
  }

  // ----- who ends a session

  lemma CleanEndsNothing(st: State, request: Request, at: CleanPc, alive: bool, s: SessionId)
    requires request.session in st.sessions && s in st.sessions && !Left(st.sessions[s].state)
    ensures var next := CleanNext(st, request, at, alive).0; s in next.sessions && !Left(next.sessions[s].state)
  {
  }

  lemma OfflineEnds(st: State, c: ConnectionId, s: SessionId)
    requires Enabled(st, ConnStep(c)) && st.conns[c].Offline? && s in st.sessions
    ensures var next := AdmitNext(st, c, st.conns[c]);
      && next.sessions.Keys == st.sessions.Keys && next.conns[c] == Rejected
      && next.sessions[s].state
         == if st.conns[c] == Offline(s) then Triggered(st.sessions[s].state, ClusterOffline)
            else st.sessions[s].state
  {
    hide RetainNext, LeaveNext, ConnNext;
    var t := st.conns[c].s;
    assert (st.sessions[t := TriggerStep(st, t, ClusterOffline).sessions[t]]).Keys == st.sessions.Keys;
  }

  /** Up to the installation of the sender. */
  lemma BindingEndsNothing(st: State, c: ConnectionId, s: SessionId)
    requires Enabled(st, ConnStep(c)) && s in st.sessions && !Left(st.sessions[s].state)
    requires st.conns[c].Lookup? || st.conns[c].Binding? || st.conns[c].Finding?
    ensures var next := AdmitNext(st, c, st.conns[c]);
      next.sessions.Keys == st.sessions.Keys && !Left(next.sessions[s].state)
  {
    hide RetainNext, LeaveNext, ConnNext, TriggerStep;
    if st.conns[c].Binding? {
      var t := st.conns[c].s;
      assert (st.sessions[t := st.sessions[t].(state := Connected(c))]).Keys == st.sessions.Keys;
    }
  }

  lemma InstallEndsNothing(st: State, c: ConnectionId, s: SessionId)
    requires Enabled(st, ConnStep(c)) && s in st.sessions
    requires st.conns[c].Installing? || st.conns[c].Checking? || st.conns[c].Inserting?
             || st.conns[c].Rechecking? || st.conns[c].UndoMap? || st.conns[c].UndoSender?
    ensures var next := AdmitNext(st, c, st.conns[c]);
      next.sessions.Keys == st.sessions.Keys && next.sessions[s].state == st.sessions[s].state
  {
    hide RetainNext, LeaveNext, ConnNext, TriggerStep;
    var t := st.conns[c].s;
    if st.conns[c].Installing? {
      assert (st.sessions[t := st.sessions[t].(sender := Some(c))]).Keys == st.sessions.Keys;
    } else if st.conns[c].UndoSender? {
      assert (st.sessions[t := st.sessions[t].(sender := None)]).Keys == st.sessions.Keys;
    }
  }

  lemma AdmitEnds(st: State, c: ConnectionId, s: SessionId)
    requires Enabled(st, ConnStep(c)) && Admitting(st.conns[c]) && s in st.sessions && !Left(st.sessions[s].state)
    ensures var next := AdmitNext(st, c, st.conns[c]);
      && next.sessions.Keys == st.sessions.Keys
      && (Left(next.sessions[s].state) ==>
            && st.conns[c] == Offline(s) && next.conns[c] == Rejected
            && next.sessions[s].state == Triggered(st.sessions[s].state, ClusterOffline))
  {
    hide AdmitNext, RetainNext, LeaveNext, ConnNext, TriggerStep;
    if st.conns[c].Offline? {
      OfflineEnds(st, c, s);
    } else if st.conns[c].Lookup? || st.conns[c].Binding? || st.conns[c].Finding? {
      BindingEndsNothing(st, c, s);
    } else {
      InstallEndsNothing(st, c, s);
    }
  }

  lemma LeaveEnds(st: State, c: ConnectionId, s: SessionId)
    requires Enabled(st, ConnStep(c)) && !Admitting(st.conns[c]) && !Retaining(st.conns[c])
    requires s in st.sessions && !Left(st.sessions[s].state)
    ensures var next := LeaveNext(st, c, st.conns[c]);
      && s in next.sessions
      && (Left(next.sessions[s].state) ==>
            && st.conns[c].ExitTrigger? && st.conns[c].s == s
            && next.conns[c].ExitSending? && next.conns[c].s == s
            && next.sessions[s].state == Triggered(st.sessions[s].state, st.conns[c].reason))
  {
    hide RetainNext, AdmitNext, ConnNext, TriggerStep;
    if st.conns[c].ExitTrigger? {
      ExitTriggerEnds(st, c, s);
    }
  }

  lemma ExitTriggerEnds(st: State, c: ConnectionId, s: SessionId)
    requires Enabled(st, ConnStep(c)) && st.conns[c].ExitTrigger? && s in st.sessions
    ensures var next := LeaveNext(st, c, st.conns[c]);
      && s in next.sessions
      && (s != st.conns[c].s ==> next.sessions[s] == st.sessions[s])
      && (s == st.conns[c].s && !Left(st.sessions[s].state) ==>
            && next.conns[c].ExitSending? && next.conns[c].s == s
            && next.sessions[s].state == Triggered(st.sessions[s].state, st.conns[c].reason))
  {
    hide RetainNext, AdmitNext, ConnNext;
  }

  lemma RetainEndsNothing(st: State, c: ConnectionId)
    requires Enabled(st, ConnStep(c)) && Retaining(st.conns[c])
    ensures RetainNext(st, c, st.conns[c]).sessions == st.sessions
  {
  }

  /** The reason the step calls for, given what the tasks carry. */
  predicate StepCalls(st: State, step: Step, s: SessionId, reason: Reason) {
    match step
    case Fire(t, why) => t == s && why == reason
    case ConnStep(c) =>
      && c in st.conns
      && ((st.conns[c] == Offline(s) && reason == ClusterOffline)
          || (st.conns[c].ExitTrigger? && st.conns[c].s == s && st.conns[c].reason == reason))
    case _ => false
  }

  /** Only triggers end a session, and they record the reason they were called with. */
  lemma StepEnds(st: State, step: Step, s: SessionId)
    requires Enabled(st, step) && s in st.sessions && !Left(st.sessions[s].state)
    ensures var next := Apply(st, step);
      && s in next.sessions
      && (Left(next.sessions[s].state) ==>
            && StepCalls(st, step, s, next.sessions[s].state.reason)
            && next.sessions[s].state.bound == BoundTo(st.sessions[s].state))
  {
    hide CleanNext, AdmitNext, RetainNext, LeaveNext;
    match step
    case ConnStep(c) =>
      if Admitting(st.conns[c]) {
        AdmitEnds(st, c, s);
      } else if Retaining(st.conns[c]) {
        RetainEndsNothing(st, c);
      } else {
        LeaveEnds(st, c, s);
      }
    case WorkerStep(alive) => CleanEndsNothing(st, st.worker.request, st.worker.at, alive, s);
    case ConnClean(c, alive) => CleanEndsNothing(st, st.conns[c].request, st.conns[c].at, alive, s);
    case _ =>
  }

  lemma NewIsOpen(st: State, step: Step, s: SessionId)
    requires Enabled(st, step) && s !in st.sessions && s in Apply(st, step).sessions
    ensures !Left(Apply(st, step).sessions[s].state)
  {
    hide CleanNext, AdmitNext, RetainNext, LeaveNext, TriggerStep;
    match step
    case ConnStep(c) =>
      if Admitting(st.conns[c]) {
        AdmitKnows(st, c);
      } else if Retaining(st.conns[c]) {
        RetainEndsNothing(st, c);
      } else {
        LeaveKnows(st, c);
      }
    case WorkerStep(alive) => CleanKnows(st, st.worker.request, st.worker.at, alive);
    case ConnClean(c, alive) => CleanKnows(st, st.conns[c].request, st.conns[c].at, alive);
    case Fire(t, why) => TriggerShape(st, t, why);
    case _ =>
  }

  lemma CleanKnows(st: State, request: Request, at: CleanPc, alive: bool)
    requires request.session in st.sessions
    ensures CleanNext(st, request, at, alive).0.sessions.Keys == st.sessions.Keys
  {
  }

  lemma AdmitKnows(st: State, c: ConnectionId)
    requires Enabled(st, ConnStep(c)) && Admitting(st.conns[c])
    ensures AdmitNext(st, c, st.conns[c]).sessions.Keys == st.sessions.Keys
  {
    hide RetainNext, LeaveNext, ConnNext, TriggerStep;
    var conn := st.conns[c];
    if conn.Lookup? || conn.Finding? {
    } else if conn.Binding? {
      assert (st.sessions[conn.s := st.sessions[conn.s].(state := Connected(c))]).Keys == st.sessions.Keys;
    } else if conn.Offline? {
      OfflineEnds(st, c, conn.s);
    } else {
      InstallEndsNothing(st, c, conn.s);
    }
  }

  lemma LeaveKnows(st: State, c: ConnectionId)
    requires Enabled(st, ConnStep(c)) && !Admitting(st.conns[c]) && !Retaining(st.conns[c])
    ensures LeaveNext(st, c, st.conns[c]).sessions.Keys == st.sessions.Keys
  {
    hide RetainNext, AdmitNext, ConnNext, TriggerStep, Completed;
    if st.conns[c].ExitTrigger? {
      TriggerShape(st, st.conns[c].s, st.conns[c].reason);
      var s := st.conns[c].s;
      assert (st.sessions[s := TriggerStep(st, s, st.conns[c].reason).sessions[s]]).Keys == st.sessions.Keys;
    }
  }

  /** What the tasks carry is what the history says. */
  lemma CallIsSaid(steps: seq<Step>, st: State, step: Step, s: SessionId, reason: Reason)
    requires Run(steps) == Some(st) && StepCalls(st, step, s, reason)
    ensures Run((steps + [step])[..|steps|]) == Some(st) && CallsFor(steps + [step], |steps|, s, reason)
  {
    hide Run;
    var longer := steps + [step];
    assert longer[..|steps|] == steps;
    if step.ConnStep? && st.conns[step.c].ExitTrigger? {
      CarriedWasSaid(steps, st, step.c);
      var said :| ExitSaid(steps, |steps|, step.c, said) && Carries(st.conns[step.c], said);
      var q: nat :| q < |steps| && steps[q] == Exit(step.c, said);
      assert longer[q] == Exit(step.c, said);
    }
  }

  lemma RecordedStays(steps: seq<Step>, longer: seq<Step>, p: nat, s: SessionId, state: Lifecycle)
    requires Recorded(steps, p, s, state) && steps <= longer
    ensures Recorded(longer, p, s, state)
  {
    hide Run;
    EndStays(steps, longer, p, s);
    assert longer[..p] == steps[..p];
  }

  /**
   The reason and the connection a session has on record, once it has left, are those of one step that found it open:
   the reason that trigger was fired with, `ClusterOffline` at a socket that found no cluster, or what the read loop
   of the exiting socket had ended with; and the connection it was bound to then.
  */
  lemma {:induction false} FirstCause(steps: seq<Step>, st: State, s: SessionId)
    requires Run(steps) == Some(st) && HasLeft(st, s)
    ensures exists p: nat :: Recorded(steps, p, s, st.sessions[s].state)
  {
    hide Apply, Enabled, Recorded, CallsFor;
    assert steps != [] by { NothingAtFirst(); }
    var front, step := steps[..|steps|-1], steps[|steps|-1];
    var before := Run(front).value;
    assert front + [step] == steps;
    if HasLeft(before, s) {
      FirstCause(front, before, s);
      var p: nat :| Recorded(front, p, s, before.sessions[s].state);
      RecordedStays(front, steps, p, s, before.sessions[s].state);
      StepAdvances(before, step);
      assert st.sessions[s].state.Closed? ==> SameRecord(before.sessions[s].state, st.sessions[s].state);
      RecordedOf(steps, p, s, before.sessions[s].state, st.sessions[s].state);
    } else if s in before.sessions {
      StepEnds(before, step, s);
      CallIsSaid(front, before, step, s, st.sessions[s].state.reason);
      JustRecorded(front, before, step, st, s);
    } else {
      NewIsOpen(before, step, s);
    }
  }

  lemma NothingAtFirst()
    ensures Run([]) == Some(Init()) && Init().sessions == map[]
  {
  }

  predicate SameRecord(before: Lifecycle, after: Lifecycle) {
    Left(before) && Left(after) && before.reason == after.reason && before.bound == after.bound
  }

  lemma RecordedOf(steps: seq<Step>, p: nat, s: SessionId, before: Lifecycle, after: Lifecycle)
    requires Recorded(steps, p, s, before) && Advances(before, after) && Left(before)
    ensures Recorded(steps, p, s, after)
  {
    hide EndedBy, CallsFor;
  }

  lemma JustRecorded(steps: seq<Step>, before: State, step: Step, st: State, s: SessionId)
    requires Run(steps) == Some(before) && Run(steps + [step]) == Some(st)
    requires s in before.sessions && !Left(before.sessions[s].state) && HasLeft(st, s)
    requires Run((steps + [step])[..|steps|]) == Some(before)
    requires CallsFor(steps + [step], |steps|, s, st.sessions[s].state.reason)
    requires st.sessions[s].state.bound == BoundTo(before.sessions[s].state)
    ensures Recorded(steps + [step], |steps|, s, st.sessions[s].state)
  {
    hide CallsFor, Run;
    var longer := steps + [step];
    assert longer[..|steps| + 1] == longer;
  }

  // ----- what follows for the socket whose own access ended a session

  /** The task of a socket that ended the session at its exit: it cleans up, and is not done before that is out. */
  predicate CleansUp(st: State, c: ConnectionId, s: SessionId) {
    && c in st.conns && s in st.sessions
    && (st.conns[c].ExitSending? || st.conns[c].ExitCleaning? || st.conns[c].Finishing? || st.conns[c].Finished?)
    && st.conns[c].s == s
    && (st.conns[c].Finishing? || st.conns[c].Finished? ==> Left(st.sessions[s].state) && !IsPublished(st, s))
  }

  /** Its own accesses take it from the cleanup to the end. */
  lemma LeaveCleansUp(st: State, c: ConnectionId, s: SessionId)
    requires Enabled(st, ConnStep(c)) && CleansUp(st, c, s)
    ensures var next := LeaveNext(st, c, st.conns[c]);
      && c in next.conns && (next.conns[c].ExitCleaning? || next.conns[c].Finished?) && next.conns[c].s == s
      && (next.conns[c].Finished? ==> st.conns[c].Finishing?)
  {
    hide RetainNext, AdmitNext, ConnNext, TriggerStep;
  }

  lemma OtherLeaves(st: State, step: Step, c: ConnectionId)
    requires Enabled(st, step) && c in st.conns
    requires !(step.ConnStep? && step.c == c) && !(step.ConnClean? && step.c == c)
    requires !st.conns[c].Serving? && !st.conns[c].Lookup?
    ensures var next := Apply(st, step); c in next.conns && next.conns[c] == st.conns[c]
  {
    hide CleanNext, AdmitNext, RetainNext, LeaveNext, TriggerStep;
    match step
    case ConnStep(d) => ConnMoves(st, d);
    case WorkerStep(alive) => CleanMoves(st, st.worker.request, st.worker.at, alive);
    case ConnClean(d, alive) => CleanMoves(st, st.conns[d].request, st.conns[d].at, alive);
    case Fire(s, why) => TriggerShape(st, s, why);
    case _ =>
  }

  /** A cleanup returns only when its session is out of the map. */
  lemma CleanupLeavesNothing(st: State, request: Request, at: CleanPc, alive: bool)
    requires request.session in st.sessions && MayClean(st, request, at, alive)
    requires request.uuid == st.sessions[request.session].uuid
    requires IsPublished(st, request.session) ==> request.session in st.clusters
    requires at in PAST_GATE ==> !IsPublished(st, request.session)
    ensures var (next, to) := CleanNext(st, request, at, alive);
      request.session in next.sessions && (to.None? ==> !IsPublished(next, request.session))
  {
  }

  lemma CleanStaysUp(steps: seq<Step>, st: State, c: ConnectionId, s: SessionId, alive: bool)
    requires Run(steps) == Some(st) && CleansUp(st, c, s) && Enabled(st, ConnClean(c, alive))
    ensures CleansUp(ConnCleanNext(st, c, alive), c, s)
  {
    hide Inv, Run;
    InvHolds(steps, st);
    TaskHolds(st, c);
    CleaningTask(st, c);
    RequestMeaning(st.sessions, st.conns[c].request);
    PublishedCluster(st, s);
    if st.conns[c].at in PAST_GATE {
      PastGateHolds(st, s);
    }
    CleanupLeavesNothing(st, st.conns[c].request, st.conns[c].at, alive);
    CleanMoves(st, st.conns[c].request, st.conns[c].at, alive);
    CleanAdvances(st, st.conns[c].request, st.conns[c].at, alive);
    hide CleanNext, MayClean, ConnOk, RequestOk, CleanerOk;
  }

  /**
   A socket whose own access at its exit ended the session does not finish before that session is out of the map,
   by its own cleanup or another one.
  */
  lemma {:induction false} ExitCleansUp(steps: seq<Step>, st: State, c: ConnectionId, s: SessionId, p: nat)
    requires Run(steps) == Some(st) && EndedBy(steps, p, s) && steps[p] == ConnStep(c)
    requires c in Run(steps[..p]).value.conns && Exiting(Run(steps[..p]).value.conns[c])
    ensures CleansUp(st, c, s)
  {
    hide Apply, Enabled, CleansUp;
    var front, step := steps[..|steps|-1], steps[|steps|-1];
    var before := Run(front).value;
    if p == |front| {
      assert steps[..p] == front && steps[..p + 1] == steps;
      EndedCleansUp(before, c, s);
    } else {
      assert front[..p] == steps[..p] && front[..p + 1] == steps[..p + 1];
      ExitCleansUp(front, before, c, s, p);
      CleanUpStep(front, before, step, c, s);
    }
  }

  lemma EndedCleansUp(st: State, c: ConnectionId, s: SessionId)
    requires Enabled(st, ConnStep(c)) && Exiting(st.conns[c]) && s in st.sessions && !Left(st.sessions[s].state)
    requires HasLeft(Apply(st, ConnStep(c)), s)
    ensures CleansUp(Apply(st, ConnStep(c)), c, s)
  {
    hide AdmitNext, RetainNext, LeaveNext;
    LeaveEnds(st, c, s);
    LeaveMoves(st, c);
    hide OnlyMoves;
    ConnStays(st, c);
  }

  lemma ConnStays(st: State, c: ConnectionId)
    requires Enabled(st, ConnStep(c)) && !Admitting(st.conns[c]) && !Retaining(st.conns[c])
    ensures c in LeaveNext(st, c, st.conns[c]).conns
  {
    hide RetainNext, AdmitNext, ConnNext, TriggerStep;
    if st.conns[c].ExitTrigger? {
      TriggerShape(st, st.conns[c].s, st.conns[c].reason);
    }
  }

  lemma CleanUpStep(steps: seq<Step>, st: State, step: Step, c: ConnectionId, s: SessionId)
    requires Run(steps) == Some(st) && Enabled(st, step) && CleansUp(st, c, s)
    ensures CleansUp(Apply(st, step), c, s)
  {
    hide AdmitNext, RetainNext, LeaveNext, CleanNext, ConnCleanNext, WorkerNext, TriggerStep, Run;
    var next := Apply(st, step);
    if step.ConnClean? && step.c == c {
      CleanStaysUp(steps, st, c, s, step.alive);
    } else {
      StepAdvances(st, step);
      if st.conns[c].Finishing? || st.conns[c].Finished? {
        RunExtend(steps, st, step);
        StaysUnpublished(steps, st, steps + [step], next, s);
      }
      if step.ConnStep? && step.c == c {
        LeaveCleansUp(st, c, s);
      } else {
        OtherLeaves(st, step, c);
      }
    }
  }

  /** A rejected socket's task takes no further step. */
  lemma {:induction false} RejectedStays(steps: seq<Step>, st: State, c: ConnectionId, p: nat)
    requires Run(steps) == Some(st) && p <= |steps| && Run(steps[..p]).Some?
    requires c in Run(steps[..p]).value.conns && Run(steps[..p]).value.conns[c].Rejected?
    ensures c in st.conns && st.conns[c].Rejected?
    decreases |steps|
  {
    hide Apply, Enabled;
    if p == |steps| {
      assert steps[..p] == steps;
    } else {
      var front := steps[..|steps|-1];
      var before := Run(front).value;
      assert front[..p] == steps[..p];
      RejectedStays(front, before, c, p);
      RejectedStaysOnce(before, steps[|steps|-1], c);
    }
  }

  lemma RejectedStaysOnce(st: State, step: Step, c: ConnectionId)
    requires Enabled(st, step) && c in st.conns && st.conns[c].Rejected?
    ensures c in Apply(st, step).conns && Apply(st, step).conns[c].Rejected?
  {
    hide Apply;
    OtherLeaves(st, step, c);
  }

  lemma StepOfRun(steps: seq<Step>, p: nat)
    requires Run(steps).Some? && p < |steps|
    ensures Run(steps[..p]).Some? && Enabled(Run(steps[..p]).value, steps[p])
    ensures Run(steps[..p + 1]) == Some(Apply(Run(steps[..p]).value, steps[p]))
  {
    hide Apply, Enabled;
    PrefixRuns(steps, p + 1);
    assert steps[..p + 1][..p] == steps[..p];
  }

  lemma OfflineRejected(st: State, c: ConnectionId)
    requires Enabled(st, ConnStep(c)) && st.conns[c].Offline?
    ensures c in Apply(st, ConnStep(c)).conns && Apply(st, ConnStep(c)).conns[c].Rejected?
  {
    hide RetainNext, LeaveNext, TriggerStep;
  }

  lemma SaidWithin(steps: seq<Step>, p: nat, c: ConnectionId, reason: Reason, longer: seq<Step>)
    requires ExitSaid(steps, p, c, reason) && steps <= longer
    ensures ExitSaid(longer, p, c, reason)
  {
    var q: nat :| q < p && q < |steps| && steps[q] == Exit(c, reason);
    assert longer[q] == Exit(c, reason);
  }

  /** What the exit that ended a session recorded is what its read loop had ended with. */
  lemma ExitRecordsSaid(steps: seq<Step>, st: State, c: ConnectionId, s: SessionId)
    requires Run(steps) == Some(st) && Enabled(st, ConnStep(c)) && s in st.sessions && !Left(st.sessions[s].state)
    requires HasLeft(Apply(st, ConnStep(c)), s)
    ensures var reason := Apply(st, ConnStep(c)).sessions[s].state.reason;
      c in st.conns && (st.conns[c] == Offline(s) || (Exiting(st.conns[c]) && ExitSaid(steps, |steps|, c, reason)))
    ensures st.conns[c] == Offline(s) ==> Apply(st, ConnStep(c)).sessions[s].state.reason == ClusterOffline
  {
    hide Apply, Run;
    StepEnds(st, ConnStep(c), s);
    if st.conns[c].ExitTrigger? {
      CarriedWasSaid(steps, st, c);
    }
  }

  /**
   A socket's own access that ended a session: either it found no cluster, recorded `ClusterOffline` and was rejected;
   or it was its exit, which recorded what the read loop had ended with, and is not finished before the session is
   out of the map.
  */
  lemma OwnEnding(steps: seq<Step>, st: State, c: ConnectionId, p: nat, s: SessionId)
    requires Run(steps) == Some(st) && EndedBy(steps, p, s) && steps[p] == ConnStep(c)
    ensures HasLeft(st, s) && c in st.conns
    ensures if st.conns[c].Rejected? then st.sessions[s].state.reason == ClusterOffline
            else CleansUp(st, c, s) && ExitSaid(steps, p, c, st.sessions[s].state.reason)
  {
    hide Apply, Run, Enabled;
    var upTo := steps[..p + 1];
    StepOfRun(steps, p);
    var before, after := Run(steps[..p]).value, Run(upTo).value;
    ExitRecordsSaid(steps[..p], before, c, s);
    assert upTo + steps[p + 1..] == steps;
    LifecycleForward(upTo, steps[p + 1..], after, st);
    if before.conns[c] == Offline(s) {
      OfflineRejected(before, c);
      RejectedStays(steps, st, c, p + 1);
    } else {
      ExitCleansUp(steps, st, c, s, p);
      SaidWithin(steps[..p], p, c, after.sessions[s].state.reason, steps);
    }
  }

  /** What a read loop has ended with is one reason. */
  lemma SaidOnce(steps: seq<Step>, p: nat, c: ConnectionId, reason: Reason, q: nat, other: Reason)
    requires Run(steps).Some? && ExitSaid(steps, p, c, reason) && ExitSaid(steps, q, c, other)
    ensures reason == other
  {
    hide Run;
    var first: nat :| first < p && first < |steps| && steps[first] == Exit(c, reason);
    var second: nat :| second < q && second < |steps| && steps[second] == Exit(c, other);
    ExitOnce(steps, c, first, second);
  }

  /** Whatever this socket ended at its accesses behind the first `base` steps has this reason, and is out if so. */
  ghost predicate OwnEndings(steps: seq<Step>, st: State, c: ConnectionId, base: nat, reason: Reason, out: bool) {
    forall p: nat, s | base <= p < |steps| && steps[p] == ConnStep(c) && EndedBy(steps, p, s) ::
      HasLeft(st, s) && st.sessions[s].state.reason == reason && (out ==> !IsPublished(st, s))
  }

  /** A rejected socket has ended sessions only for want of a cluster. */
  lemma RejectedEndings(steps: seq<Step>, st: State, c: ConnectionId, base: nat)
    requires Run(steps) == Some(st) && c in st.conns && st.conns[c].Rejected?
    ensures OwnEndings(steps, st, c, base, ClusterOffline, false)
  {
    hide Run, EndedBy, CleansUp, ExitSaid;
    forall p: nat, s | base <= p < |steps| && steps[p] == ConnStep(c) && EndedBy(steps, p, s)
      ensures HasLeft(st, s) && st.sessions[s].state.reason == ClusterOffline
    {
      OwnEnding(steps, st, c, p, s);
    }
  }

  /** A socket done with its exit has ended sessions only for the reason of that exit, and they are out. */
  lemma ExitEndings(early: seq<Step>, mid: State, steps: seq<Step>, st: State, c: ConnectionId, base: nat)
    requires Run(early) == Some(mid) && c in mid.conns && mid.conns[c].ExitConn?
    requires Run(steps) == Some(st) && early <= steps && c in st.conns
    requires st.conns[c].Finishing? || st.conns[c].Finished?
    ensures OwnEndings(steps, st, c, base, mid.conns[c].reason, true)
  {
    hide Run, EndedBy, ExitSaid;
    CarriedWasSaid(early, mid, c);
    var reason :| ExitSaid(early, |early|, c, reason) && Carries(mid.conns[c], reason);
    SaidWithin(early, |early|, c, reason, steps);
    forall p: nat, s | base <= p < |steps| && steps[p] == ConnStep(c) && EndedBy(steps, p, s)
      ensures HasLeft(st, s) && st.sessions[s].state.reason == reason && !IsPublished(st, s)
    {
      OwnEnding(steps, st, c, p, s);
      SaidOnce(steps, p, c, st.sessions[s].state.reason, |early|, reason);
    }
  }
}
