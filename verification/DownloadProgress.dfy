/**
 Progress of the download protocol: left alone, it settles within a number of steps fixed by what is under
 way, and then nothing is; and one way in which what is left behind stays unfinished.
*/
module DownloadProgress {
  import opened Wrappers
  import opened DownloadSession
  import opened DownloadProtocol
  import opened DownloadTheorems

  // ----- how many steps a task has before it, at most

  function CleanRank(at: CleanPc): nat {
    match at
    case Upgrade => 6
    case GetCluster => 5
    case RemoveSession => 4
    case DropCluster => 3
    case RemoveConn => 2
    case CloseSender => 1
    case ClearSender => 2
    case CompletePending => 1
  }

  /** A request in hand is sent, taken and cleaned up. */
  const REQUEST := 8

  function ConnRank(conn: Conn): nat {
    match conn
    case Lookup(_) => 13
    case Binding(_) => 12
    case Finding(_) => 11
    case Offline(_) => REQUEST + 1
    case Installing(_) => 10
    case Checking(_) => 9
    case Inserting(_) => 8
    case Rechecking(_) => 7
    case UndoMap(_) => 2
    case UndoSender(_) => 1
    case Rejected => 0
    case AdmitConn(_) => 4
    case AdmitMap(_) => 3
    case AdmitState(_) => 2
    case AdmitRetain(_) => 1
    case Serving(_, _) => 0
    case ExitConn(_, _, _) => 14 + REQUEST
    case ExitMap(_, _, _) => 13 + REQUEST
    case ExitState(_, _, _) => 12 + REQUEST
    case ExitTrigger(_, _, _) => 11 + REQUEST
    case ExitSending(_, _, _) => 9
    case ExitCleaning(_, _, _, at) => 1 + CleanRank(at)
    case Finishing(_, _) => 1
    case Finished(_, _) => 0
  }

  function WorkerRank(worker: Worker): nat {
    match worker
    case Idle => 0
    case Cleaning(_, at) => CleanRank(at)
  }

  ghost function TotalRank(conns: map<ConnectionId, Conn>): nat
    decreases |conns|
  {
    if conns == map[] then 0
    else
      var c :| c in conns;
      ConnRank(conns[c]) + TotalRank(conns - {c})
  }

  /** The sum does not depend on the order in which the sockets are visited. */
  lemma {:induction false} TotalSplit(conns: map<ConnectionId, Conn>, c: ConnectionId)
    requires c in conns
    ensures TotalRank(conns) == ConnRank(conns[c]) + TotalRank(conns - {c})
    decreases |conns|
  {
    hide ConnRank;
    var first :| first in conns && TotalRank(conns) == ConnRank(conns[first]) + TotalRank(conns - {first});
    if first != c {
      TotalSplit(conns - {first}, c);
      TotalSplit(conns - {c}, first);
      assert conns - {first} - {c} == conns - {c} - {first};
    }
  }

  lemma TotalUpdate(conns: map<ConnectionId, Conn>, c: ConnectionId, conn: Conn)
    requires c in conns
    ensures TotalRank(conns[c := conn]) == TotalRank(conns) - ConnRank(conns[c]) + ConnRank(conn)
  {
    hide ConnRank;
    TotalSplit(conns, c);
    TotalSplit(conns[c := conn], c);
    assert conns[c := conn] - {c} == conns - {c};
  }

  /** What everything under way still has to do, at most. */
  ghost function Work(st: State): nat {
    TotalRank(st.conns) + REQUEST * |st.inHand| + (REQUEST - 1) * |st.queue| + WorkerRank(st.worker) + |st.creating|
  }

  /** A step of the world outside: a new download, socket, trigger, or end of a read loop. */
  predicate FromOutside(step: Step) {
    step.Create? || step.Open? || step.Fire? || step.Exit?
  }

  lemma TriggerCost(st: State, s: SessionId, reason: Reason)
    requires s in st.sessions
    ensures var next := TriggerStep(st, s, reason);
      && |next.inHand| <= |st.inHand| + 1
      && next.conns == st.conns && next.queue == st.queue && next.worker == st.worker && next.creating == st.creating
  {
  }

  /** An access of a socket's task costs that task more than the request it may hand to others. */
  predicate Cheaper(st: State, next: State, c: ConnectionId)
    requires c in st.conns
  {
    && c in next.conns && next.conns == st.conns[c := next.conns[c]]
    && next.queue == st.queue && next.worker == st.worker && next.creating == st.creating
    && ConnRank(next.conns[c]) + REQUEST * |next.inHand| < ConnRank(st.conns[c]) + REQUEST * |st.inHand|
  }

  lemma MoveCost(st: State, next: State, c: ConnectionId, conn: Conn)
    requires c in st.conns && next.conns == st.conns
    requires next.queue == st.queue && next.worker == st.worker && next.creating == st.creating
    requires ConnRank(conn) + REQUEST * |next.inHand| < ConnRank(st.conns[c]) + REQUEST * |st.inHand|
    ensures Cheaper(st, Goto(next, c, conn), c)
  {
  }

  lemma TriggerMoveCost(st: State, c: ConnectionId, s: SessionId, reason: Reason, conn: Conn)
    requires c in st.conns && s in st.sessions && ConnRank(conn) + REQUEST < ConnRank(st.conns[c])
    ensures Cheaper(st, Goto(TriggerStep(st, s, reason), c, conn), c)
  {
    hide TriggerStep, ConnRank;
    TriggerCost(st, s, reason);
    MoveCost(st, TriggerStep(st, s, reason), c, conn);
  }

  lemma AdmitCost(st: State, c: ConnectionId)
    requires Enabled(st, ConnStep(c)) && Admitting(st.conns[c])
    ensures Cheaper(st, AdmitNext(st, c, st.conns[c]), c)
  {
    hide RetainNext, LeaveNext, ConnNext, TriggerStep, Cheaper, RemoveExact, Bind;
    match st.conns[c] {
      case Lookup(token) =>
        MoveCost(st, st, c, if token in st.published then Binding(st.published[token]) else Rejected);
      case Binding(s) =>
        var bound := Bind(st.sessions[s].state, c);
        if bound.None? {
          MoveCost(st, st, c, Rejected);
        } else {
          MoveCost(st, SetState(st, s, bound.value), c, Finding(s));
        }
      case Finding(s) => MoveCost(st, st, c, if s in st.clusters then Installing(s) else Offline(s));
      case Offline(s) => TriggerMoveCost(st, c, s, ClusterOffline, Rejected);
      case _ => InstallCost(st, c);
    }
  }

  lemma InstallCost(st: State, c: ConnectionId)
    requires Enabled(st, ConnStep(c))
    requires st.conns[c].Installing? || st.conns[c].Checking? || st.conns[c].Inserting?
             || st.conns[c].Rechecking? || st.conns[c].UndoMap? || st.conns[c].UndoSender?
    ensures Cheaper(st, AdmitNext(st, c, st.conns[c]), c)
  {
    hide RetainNext, LeaveNext, ConnNext, TriggerStep, Cheaper;
    match st.conns[c] {
      case Installing(s) => MoveCost(st, SetSender(st, s, Some(c)), c, Checking(s));
      case Checking(s) =>
        MoveCost(st, st, c, if st.sessions[s].state == Connected(c) then Inserting(s) else UndoSender(s));
      case Inserting(s) => MoveCost(st, st.(connections := st.connections[c := s]), c, Rechecking(s));
      case Rechecking(s) =>
        MoveCost(st, st, c, if st.sessions[s].state == Connected(c) then AdmitConn(s) else UndoMap(s));
      case UndoMap(s) => MoveCost(st, RemoveExact(st, c, s), c, UndoSender(s));
      case UndoSender(s) => MoveCost(st, SetSender(st, s, None), c, Rejected);
    }
  }

  lemma RetainCost(st: State, c: ConnectionId)
    requires Enabled(st, ConnStep(c)) && Retaining(st.conns[c])
    ensures Cheaper(st, RetainNext(st, c, st.conns[c]), c)
  {
    hide AdmitNext, LeaveNext, ConnNext;
  }

  lemma LeaveCost(st: State, c: ConnectionId)
    requires Enabled(st, ConnStep(c)) && !Admitting(st.conns[c]) && !Retaining(st.conns[c])
    ensures Cheaper(st, LeaveNext(st, c, st.conns[c]), c)
  {
    hide RetainNext, AdmitNext, ConnNext, TriggerStep, Cheaper;
    var conn := st.conns[c];
    if conn.ExitTrigger? {
      ExitTriggerCost(st, c);
    } else if conn.Finishing? && conn.retained {
      var state := Completed(st.sessions[conn.s].state, Some(c));
      MoveCost(st, SetState(st, conn.s, state), c, Finished(conn.s, true));
    } else {
      MoveCost(st, st, c, LeaveNext(st, c, conn).conns[c]);
    }
  }

  lemma ExitTriggerCost(st: State, c: ConnectionId)
    requires Enabled(st, ConnStep(c)) && st.conns[c].ExitTrigger?
    ensures Cheaper(st, LeaveNext(st, c, st.conns[c]), c)
  {
    hide RetainNext, AdmitNext, ConnNext, TriggerStep, Cheaper;
    var ExitTrigger(s, retained, reason) := st.conns[c];
    TriggerShape(st, s, reason);
    var next := TriggerStep(st, s, reason);
    TriggerMoveCost(st, c, s, reason, if Left(st.sessions[s].state) then Finishing(s, retained)
                                      else ExitSending(s, retained, next.inHand[s]));
  }

  lemma ConnCost(st: State, c: ConnectionId)
    requires Enabled(st, ConnStep(c))
    ensures Work(ConnNext(st, c, st.conns[c])) < Work(st)
  {
    hide AdmitNext, RetainNext, LeaveNext, ConnRank, TotalRank;
    var next := ConnNext(st, c, st.conns[c]);
    if Admitting(st.conns[c]) {
      AdmitCost(st, c);
    } else if Retaining(st.conns[c]) {
      RetainCost(st, c);
    } else {
      LeaveCost(st, c);
    }
    TotalUpdate(st.conns, c, next.conns[c]);
  }

  lemma CleanCost(st: State, request: Request, at: CleanPc, alive: bool)
    requires request.session in st.sessions
    ensures var (next, to) := CleanNext(st, request, at, alive);
      && next.conns == st.conns && next.worker == st.worker && next.inHand == st.inHand
      && next.queue == st.queue && next.creating == st.creating
      && (to.Some? ==> CleanRank(to.value) < CleanRank(at))
  {
  }

  lemma WorkerCost(st: State, alive: bool)
    requires st.worker.Cleaning? && st.worker.request.session in st.sessions
    ensures Work(WorkerNext(st, alive)) < Work(st)
  {
    CleanCost(st, st.worker.request, st.worker.at, alive);
    hide CleanNext, TotalRank;
  }

  lemma ConnCleanCost(st: State, c: ConnectionId, alive: bool)
    requires c in st.conns && st.conns[c].ExitCleaning? && st.conns[c].request.session in st.sessions
    ensures Work(ConnCleanNext(st, c, alive)) < Work(st)
  {
    CleanCost(st, st.conns[c].request, st.conns[c].at, alive);
    hide CleanNext, TotalRank;
    TotalUpdate(st.conns, c, ConnCleanNext(st, c, alive).conns[c]);
  }

  lemma ChannelCost(st: State)
    ensures forall s :: s in st.inHand ==> Work(Emitted(st, s)) < Work(st)
    ensures st.worker.Idle? && st.queue != [] ==> Work(Taken(st)) < Work(st)
    ensures forall s :: s in st.creating && s in st.sessions ==> Work(Published(st, s)) < Work(st)
  {
    forall s | s in st.inHand ensures Work(Emitted(st, s)) < Work(st) {
      assert (st.inHand - {s}).Keys == st.inHand.Keys - {s};
      assert |st.inHand - {s}| == |(st.inHand - {s}).Keys| == |st.inHand| - 1;
    }
    hide TotalRank;
  }

  /** Every step that does not come from outside leaves less to do. */
  lemma StepCost(st: State, step: Step)
    requires Enabled(st, step) && !FromOutside(step)
    ensures Work(Apply(st, step)) < Work(st)
  {
    hide Work, ConnNext, WorkerNext, ConnCleanNext, Emitted, Taken, Published, TriggerStep;
    if step.ConnStep? {
      ConnCost(st, step.c);
    } else if step.WorkerStep? {
      WorkerCost(st, step.alive);
    } else if step.ConnClean? {
      ConnCleanCost(st, step.c, step.alive);
    } else if step.Refuse? {
      RefuseCost(st, step.c);
    } else {
      ChannelCost(st);
    }
  }

  lemma RefuseCost(st: State, c: ConnectionId)
    requires c in st.conns && st.conns[c].Lookup?
    ensures Work(Goto(st, c, Rejected)) < Work(st)
  {
    hide TotalRank;
    TotalUpdate(st.conns, c, Rejected);
  }

  /** Left alone from any reachable state, the protocol makes no more steps than its work allows. */
  lemma {:induction false} SettlingIsBounded(steps: seq<Step>, st: State, more: seq<Step>, later: State)
    requires Run(steps) == Some(st) && Run(steps + more) == Some(later)
    requires forall i :: 0 <= i < |more| ==> !FromOutside(more[i])
    ensures |more| + Work(later) <= Work(st)
  {
    hide Apply, Enabled, Work, FromOutside;
    if more == [] {
      assert steps + more == steps;
    } else {
      var front, step := more[..|more|-1], more[|more|-1];
      assert (steps + more)[..|steps + more|-1] == steps + front;
      var before := Run(steps + front).value;
      SettlingIsBounded(steps, st, front, before);
      assert !FromOutside(step);
      StepCost(before, step);
    }
  }

  // ----- it never gets stuck before everything is quiet

  /** While a session is not quiet, some task can go on. */
  lemma StepUnlessQuiet(steps: seq<Step>, st: State, s: SessionId) returns (step: Step)
    requires Run(steps) == Some(st) && !Quiet(st, s)
    ensures Enabled(st, step) && !FromOutside(step)
  {
    hide Inv, Enabled, Run;
    InvHolds(steps, st);
    if st.queue == [] && !st.worker.Cleaning? && s !in st.creating && s !in st.inHand {
      var c :| c in st.conns && SessionOf(st.conns[c]) == Some(s)
        && (Admitting(st.conns[c]) || st.conns[c].ExitSending? || st.conns[c].ExitCleaning?);
      step := TaskGoesOn(st, c);
    } else {
      step := HandGoesOn(st, s);
    }
  }

  lemma HandGoesOn(st: State, s: SessionId) returns (step: Step)
    requires Inv(st)
    requires s in st.creating || s in st.inHand || st.worker.Cleaning? || st.queue != []
    ensures Enabled(st, step) && !FromOutside(step)
  {
    hide SessionOk, ConnectionOk, RequestsFor, BaseOk, ConnOk;
    BaseParts(st);
    if s in st.creating {
      step := Publish(s);
    } else if s in st.inHand {
      step := Send(s);
    } else if st.worker.Cleaning? {
      WorkerHolds(st);
      step := WorkerStep(true);
    } else {
      step := Take;
    }
  }

  lemma TaskGoesOn(st: State, c: ConnectionId) returns (step: Step)
    requires Inv(st) && c in st.conns && SessionOf(st.conns[c]).Some?
    requires Admitting(st.conns[c]) || st.conns[c].ExitSending? || st.conns[c].ExitCleaning?
    ensures Enabled(st, step) && !FromOutside(step)
  {
    hide SessionOk, ConnectionOk, RequestsFor, BaseOk;
    BoundTask(st, c);
    TaskHolds(st, c);
    if st.conns[c].ExitCleaning? {
      CleaningTask(st, c);
      step := ConnClean(c, true);
    } else if st.conns[c].ExitSending? && st.conns[c].s in st.inHand {
      step := Send(st.conns[c].s);
    } else {
      step := ConnStep(c);
    }
  }

  /** Left alone, it comes to a state in which nothing is under way for any session, within its work. */
  lemma {:induction false} Settles(steps: seq<Step>, st: State) returns (more: seq<Step>, later: State)
    requires Run(steps) == Some(st)
    ensures Run(steps + more) == Some(later) && |more| <= Work(st)
    ensures forall i :: 0 <= i < |more| ==> !FromOutside(more[i])
    ensures forall s :: Quiet(later, s)
    decreases Work(st)
  {
    hide Run, Apply, Enabled, Work, Quiet, FromOutside;
    more, later := [], st;
    assert steps + more == steps;
    if s: SessionId :| !Quiet(st, s) {
      var step := StepUnlessQuiet(steps, st, s);
      StepCost(st, step);
      var longer, next := Advance(steps, st, step);
      var rest;
      rest, later := Settles(longer, next);
      more := [step] + rest;
      assert steps + more == longer + rest;
    }
  }

  // ----- a session that stays `Closing`

  lemma Advance(steps: seq<Step>, st: State, step: Step) returns (longer: seq<Step>, next: State)
    requires Run(steps) == Some(st) && Enabled(st, step)
    ensures longer == steps + [step] && next == Apply(st, step) && Run(longer) == Some(next)
  {
    longer, next := steps + [step], Apply(st, step);
    assert longer[..|steps|] == steps;
    hide Apply, Enabled;
  }

  function Requested(): Request {
    Request(0, 0, Some(7), ResponseError)
  }

  /** A session is created and published. */
  lemma PublishedSession() returns (steps: seq<Step>, st: State)
    ensures Run(steps) == Some(st)
    ensures st == State(map[0 := Entry(0, Pending, None)], map[0 := 0], {0}, map[], {}, map[], [], Idle, map[], [], [])
  {
    hide Run;
    steps, st := [], Init();
    assert Run(steps) == Some(st) by { StartsEmpty(); }
    steps, st := Advance(steps, st, Create(0, 0));
    steps, st := Advance(steps, st, Publish(0));
  }

  /** A socket has bound the session and is about to look for its cluster. */
  lemma BoundBeforeCluster() returns (steps: seq<Step>, st: State)
    ensures Run(steps) == Some(st)
    ensures st == State(map[0 := Entry(0, Connected(7), None)], map[0 := 0], {0}, map[], {}, map[], [], Idle,
                        map[7 := Finding(0)], [], [])
  {
    hide Run;
    steps, st := PublishedSession();
    steps, st := Advance(steps, st, Open(7, 0));
    assert st.conns == map[7 := Lookup(0)];
    steps, st := Advance(steps, st, ConnStep(7));
    assert st.conns == map[7 := Binding(0)];
    steps, st := Advance(steps, st, ConnStep(7));
    assert st.conns == map[7 := Finding(0)];
    assert st.sessions == map[0 := Entry(0, Connected(7), None)];
  }

  /** Meanwhile the session is triggered, and the worker takes the request. */
  lemma TriggeredWhileBinding() returns (steps: seq<Step>, st: State)
    ensures Run(steps) == Some(st)
    ensures st == State(map[0 := Entry(0, Closing(Some(7), ResponseError), None)], map[0 := 0], {0}, map[], {}, map[],
                        [], Cleaning(Requested(), Upgrade), map[7 := Finding(0)], [Requested()], [])
  {
    hide Run;
    steps, st := BoundBeforeCluster();
    steps, st := Advance(steps, st, Fire(0, ResponseError));
    assert st.sessions == map[0 := Entry(0, Closing(Some(7), ResponseError), None)];
    assert st.inHand == map[0 := Requested()];
    steps, st := Advance(steps, st, Send(0));
    assert st.inHand == map[];
    steps, st := Advance(steps, st, Take);
  }

  lemma StartsEmpty()
    ensures Run([]) == Some(Init())
  {
  }

  lemma CleanedWhileBinding() returns (steps: seq<Step>, st: State)
    ensures Run(steps) == Some(st)
    ensures st == State(map[0 := Entry(0, Closing(Some(7), ResponseError), None)], map[], {}, map[], {}, map[],
                        [], Idle, map[7 := Finding(0)], [Requested()], [0])
  {
    hide Run;
    steps, st := TriggeredWhileBinding();
    steps, st := Advance(steps, st, WorkerStep(true));
    steps, st := Advance(steps, st, WorkerStep(true));
    steps, st := Advance(steps, st, WorkerStep(true));
    assert st.published == map[] && st.torn == [0];
    steps, st := Advance(steps, st, WorkerStep(true));
    assert st.clusters == {};
    steps, st := Advance(steps, st, WorkerStep(true));
    steps, st := Advance(steps, st, WorkerStep(true));
    assert st.sessions == map[0 := Entry(0, Closing(Some(7), ResponseError), None)];
  }

  /**
   What the protocol does not promise: a cleanup that runs between a socket's binding and its look at the
   cluster leaves the session `Closing` for good, for that socket is rejected and nobody else completes it.
  */
  lemma ClosingIsLeftBehind() returns (steps: seq<Step>, st: State)
    ensures Run(steps) == Some(st) && 0 in st.sessions && Quiet(st, 0)
    ensures st.sessions[0].state == Closing(Some(7), ResponseError)
    ensures 7 in st.conns && st.conns[7] == Rejected
  {
    hide Run;
    steps, st := CleanedWhileBinding();
    steps, st := Advance(steps, st, ConnStep(7));
    assert st.conns == map[7 := Offline(0)];
    steps, st := Advance(steps, st, ConnStep(7));
  }
}
