/**
 The outbound scheduler of one cluster as a machine that takes one step per lock acquisition,
 atomic update or notification. Producers, pruners and the scheduler task interleave freely:
 a run is any sequence of enabled steps.
 */
module Scheduler {
  import opened Wrappers
  import opened Bytes
  import opened PriorityQueue

  /** Who holds a level's write lock, and how far the holder has got. */
  datatype Lock =
    | Free
    | Draining                               // the scheduler task
    | Pushed(source: Source, size: nat)      // an enqueuer: message pushed, bytes not yet counted
    | Counted(source: Source)                // an enqueuer: bytes counted, `data_notify` not yet signalled

  /** Where the scheduler task is. `at` is the position in the round's snapshot of sources. */
  datatype Pc =
    | Parked                                                          // waiting on `data_notify`
    | Round(level: nat)                                               // about to lock the level for a new round
    | Visit(level: nat, sources: seq<Source>, at: nat, served: bool)  // holds the lock
    | Popped(level: nat, sources: seq<Source>, at: nat, size: nat)    // holds the lock, bytes not yet subtracted
    | Peek(level: nat, sources: seq<Source>, at: nat, next: nat)      // `has_higher_priority_data` reads `next`
    | Relock(level: nat, sources: seq<Source>, at: nat)               // about to take the lock back

  datatype Event =
    | Enqueued(level: nat, source: Source, data: Data)
    | Dequeued(level: nat, source: Source, data: Data)

  datatype State = State(
    levels: seq<Level>,
    locks: seq<Lock>,
    bytes: int,             // `queued_message_size`
    dataPermit: bool,       // `data_notify`, a one-permit cell
    sizePermit: bool,       // `queue_size_notify`, a one-permit cell
    pc: Pc,
    log: seq<Event>         // history of the queue
  )

  datatype Step =
    | Push(level: nat, source: Source, data: Data)
    | Count(level: nat)
    | Signal(level: nat)
    | Prune(level: nat)
    | AwaitSize               // a drain waiter consumes the `queue_size_notify` permit
    | Wake
    | BeginRound(sources: seq<Source>)
    | VisitSource
    | Subtract
    | PeekLevel
    | Reacquire

  predicate IsSchedulerStep(step: Step) {
    step.Wake? || step.BeginRound? || step.VisitSource? || step.Subtract? || step.PeekLevel? || step.Reacquire?
  }

  function Init(): State {
    State(seq(LEVELS, _ => map[]), seq(LEVELS, _ => Free), 0, false, false, Parked, [])
  }

  predicate Distinct(sources: seq<Source>) {
    forall i, j | 0 <= i < j < |sources| :: sources[i] != sources[j]
  }

  /** A hash map yields its keys once each, in an order of its own. */
  predicate Lists(sources: seq<Source>, level: Level) {
    && Distinct(sources)
    && (forall source | source in level :: source in sources)
    && (forall source | source in sources :: source in level)
  }

  predicate Shape(s: State) {
    |s.levels| == LEVELS && |s.locks| == LEVELS
    && match s.pc
       case Parked => true
       case Round(level) => level < LEVELS
       case Visit(level, sources, at, _) => level < LEVELS && at <= |sources|
       case Popped(level, sources, at, _) => level < LEVELS && at < |sources|
       case Peek(level, sources, at, next) => level < LEVELS && at < |sources| && next <= level
       case Relock(level, sources, at) => level < LEVELS && at < |sources|
  }

  predicate Enabled(s: State, step: Step) {
    Shape(s)
    && match step
       case Push(level, _, _) => level < LEVELS && s.locks[level] == Free
       case Count(level) => level < LEVELS && s.locks[level].Pushed?
       case Signal(level) => level < LEVELS && s.locks[level].Counted?
       case Prune(level) => level < LEVELS && s.locks[level] == Free
       case AwaitSize => s.sizePermit
       case Wake => s.pc.Parked? && s.dataPermit
       case BeginRound(sources) =>
         s.pc.Round? && s.locks[s.pc.level] == Free && Lists(sources, s.levels[s.pc.level])
       case VisitSource => s.pc.Visit?
       case Subtract => s.pc.Popped?
       case PeekLevel => s.pc.Peek? && (s.pc.next < s.pc.level ==> s.locks[s.pc.next] == Free)
       case Reacquire => s.pc.Relock? && s.locks[s.pc.level] == Free
  }

  function Apply(s: State, step: Step): (t: State)
    requires Enabled(s, step)
    ensures Shape(t)
  {
    match step
    case Push(level, source, data) =>
      s.(levels := s.levels[level := s.levels[level][source := QueueOf(s.levels[level], source) + [data]]],
         locks := s.locks[level := Lock.Pushed(source, |data|)],
         log := s.log + [Enqueued(level, source, data)])
    case Count(level) =>
      s.(bytes := s.bytes + s.locks[level].size,
         locks := s.locks[level := Counted(s.locks[level].source)])
    case Signal(level) =>
      s.(dataPermit := true, locks := s.locks[level := Free])
    case Prune(level) =>
      s.(levels := s.levels[level := NonEmptySources(s.levels[level])])
    case AwaitSize =>
      s.(sizePermit := false)
    case Wake =>
      s.(dataPermit := false, pc := Round(0))
    case BeginRound(sources) =>
      s.(locks := s.locks[s.pc.level := Draining], pc := Visit(s.pc.level, sources, 0, false))
    case VisitSource =>
      VisitNext(s)
    case Subtract =>
      s.(bytes := s.bytes - s.pc.size, sizePermit := true,
         locks := s.locks[s.pc.level := Free], pc := Peek(s.pc.level, s.pc.sources, s.pc.at, 0))
    case PeekLevel =>
      if s.pc.next >= s.pc.level then s.(pc := Relock(s.pc.level, s.pc.sources, s.pc.at))
      else if !IsEmpty(s.levels[s.pc.next]) then s.(pc := Round(0))
      else s.(pc := Peek(s.pc.level, s.pc.sources, s.pc.at, s.pc.next + 1))
    case Reacquire =>
      s.(locks := s.locks[s.pc.level := Draining],
         pc := Visit(s.pc.level, s.pc.sources, s.pc.at + 1, true))
  }

  /** With the level locked: pop from the next source of the snapshot, or close the round. */
  function VisitNext(s: State): (t: State)
    requires Shape(s) && s.pc.Visit?
    ensures Shape(t)
  {
    var Visit(level, sources, at, served) := s.pc;
    if at == |sources| then
      s.(locks := s.locks[level := Free],
         pc := if served then Round(level) else if level + 1 < LEVELS then Round(level + 1) else Parked)
    else
      var queue := QueueOf(s.levels[level], sources[at]);
      if queue == [] then s.(pc := Visit(level, sources, at + 1, served))
      else
        s.(levels := s.levels[level := s.levels[level][sources[at] := queue[1..]]],
           pc := Pc.Popped(level, sources, at, |queue[0]|),
           log := s.log + [Dequeued(level, sources[at], queue[0])])
  }

  /** The state after a run, or nothing when some step of it was not enabled. */
  function RunFrom(s: State, steps: seq<Step>): (r: Option<State>)
    ensures Shape(s) && r.Some? ==> Shape(r.value)
  {
    if steps == [] then Some(s)
    else
      match RunFrom(s, steps[..|steps|-1])
      case None => None
      case Some(before) =>
        if Enabled(before, steps[|steps|-1]) then Some(Apply(before, steps[|steps|-1])) else None
  }

  function Run(steps: seq<Step>): (r: Option<State>)
    ensures r.Some? ==> Shape(r.value)
  {
    RunFrom(Init(), steps)
  }

  lemma RunExtend(s: State, steps: seq<Step>, step: Step)
    requires RunFrom(s, steps).Some? && Enabled(RunFrom(s, steps).value, step)
    ensures RunFrom(s, steps + [step]) == Some(Apply(RunFrom(s, steps).value, step))
  {
    assert (steps + [step])[..|steps|] == steps;
  }

  lemma {:induction false} RunCompose(s: State, first: seq<Step>, second: seq<Step>)
    requires RunFrom(s, first).Some?
    ensures RunFrom(s, first + second) == RunFrom(RunFrom(s, first).value, second)
  {
    if second == [] {
      assert first + second == first;
    } else {
      var front := second[..|second|-1];
      RunCompose(s, first, front);
      assert (first + second)[..|first + second|-1] == first + front;
    }
  }

  /* ---- What the history says ---- */

  /** Messages accepted from one source at one level, in order. */
  function Accepted(log: seq<Event>, level: nat, source: Source): seq<Data> {
    if log == [] then []
    else
      var last := log[|log|-1];
      Accepted(log[..|log|-1], level, source)
      + if last.Enqueued? && last.level == level && last.source == source then [last.data] else []
  }

  /** Messages dequeued for one source at one level, in order. */
  function Sent(log: seq<Event>, level: nat, source: Source): seq<Data> {
    if log == [] then []
    else
      var last := log[|log|-1];
      Sent(log[..|log|-1], level, source)
      + if last.Dequeued? && last.level == level && last.source == source then [last.data] else []
  }

  /** How many messages of strictly lower priority than `level` were dequeued from position `from` on. */
  function Outranking(log: seq<Event>, from: nat, level: nat): nat {
    if |log| <= from then 0
    else
      var last := log[|log|-1];
      Outranking(log[..|log|-1], from, level) + if last.Dequeued? && last.level > level then 1 else 0
  }

  /** The message enqueued by event `i` has not been dequeued by the end of `log`. */
  predicate Waiting(log: seq<Event>, i: nat) {
    && i < |log| && log[i].Enqueued?
    && |Sent(log, log[i].level, log[i].source)| <= |Accepted(log[..i], log[i].level, log[i].source)|
  }

  lemma {:induction false} AcceptedGrows(log: seq<Event>, n: nat, level: nat, source: Source)
    requires n <= |log|
    ensures Accepted(log[..n], level, source) <= Accepted(log, level, source)
    decreases |log|
  {
    if n < |log| {
      AcceptedGrows(log[..|log|-1], n, level, source);
      assert log[..|log|-1][..n] == log[..n];
    } else {
      assert log[..n] == log;
    }
  }

  lemma AppendEvent(log: seq<Event>, e: Event)
    ensures (log + [e])[..|log|] == log
    ensures forall level, source ::
              Accepted(log + [e], level, source) == Accepted(log, level, source)
                + if e.Enqueued? && e.level == level && e.source == source then [e.data] else []
    ensures forall level, source ::
              Sent(log + [e], level, source) == Sent(log, level, source)
                + if e.Dequeued? && e.level == level && e.source == source then [e.data] else []
    ensures forall from: nat, level | from <= |log| ::
              Outranking(log + [e], from, level)
              == Outranking(log, from, level) + if e.Dequeued? && e.level > level then 1 else 0
  {
    assert (log + [e])[..|log|] == log;
  }

  /* ---- Invariants of every run ---- */

  predicate Holds(pc: Pc, level: nat) {
    (pc.Visit? || pc.Popped?) && pc.level == level
  }

  ghost predicate LocksMatch(s: State)
    requires Shape(s)
  {
    forall l | 0 <= l < LEVELS :: s.locks[l] == Draining <==> Holds(s.pc, l)
  }

  /** While a round has popped nothing, the lock has been held since its snapshot. */
  ghost predicate SnapshotFresh(s: State)
    requires Shape(s)
  {
    s.pc.Visit? && !s.pc.served ==>
      && Lists(s.pc.sources, s.levels[s.pc.level])
      && (forall i | 0 <= i < s.pc.at :: QueueOf(s.levels[s.pc.level], s.pc.sources[i]) == [])
  }

  /** Per-source refinement of a FIFO queue. */
  ghost predicate Fifo(s: State)
    requires Shape(s)
  {
    forall l, source | 0 <= l < LEVELS ::
      Accepted(s.log, l, source) == Sent(s.log, l, source) + QueueOf(s.levels[l], source)
  }

  /** The scheduler will lock the level again before it can park. */
  predicate Ahead(pc: Pc, level: nat) {
    match pc
    case Parked => false
    case Round(l) => l <= level
    case Visit(l, _, _, _) => l <= level
    case Popped(l, _, _, _) => l <= level
    case Peek(l, _, _, _) => l <= level
    case Relock(l, _, _) => l <= level
  }

  predicate Enqueuing(lock: Lock) {
    lock.Pushed? || lock.Counted?
  }

  ghost predicate NoneStranded(s: State)
    requires Shape(s)
  {
    forall l | 0 <= l < LEVELS && !IsEmpty(s.levels[l]) ::
      s.dataPermit || Enqueuing(s.locks[l]) || Ahead(s.pc, l)
  }

  /** The scheduler cannot dequeue below `level` before it has looked at `level` again. */
  predicate Committed(pc: Pc, level: nat) {
    match pc
    case Parked => true
    case Popped(_, _, _, _) => true
    case Peek(l, _, _, next) => l <= level || next <= level
    case _ => Ahead(pc, level)
  }

  ghost predicate InversionBounded(s: State, i: nat)
    requires i < |s.log|
  {
    var n := Outranking(s.log, i + 1, s.log[i].level);
    n <= 1 && (n == 1 ==> Committed(s.pc, s.log[i].level))
  }

  ghost predicate InversionsBounded(s: State) {
    && (forall i | 0 <= i < |s.log| :: s.log[i].level < LEVELS)
    && (forall i | 0 <= i < |s.log| :: Waiting(s.log, i) ==> InversionBounded(s, i))
  }

  /** Bytes on a level whose enqueuer has not added them to the counter yet. */
  function Uncounted(lock: Lock): nat {
    if lock.Pushed? then lock.size else 0
  }

  function InHand(pc: Pc): nat {
    if pc.Popped? then pc.size else 0
  }

  ghost function Queued(s: State): int
    requires Shape(s)
  {
    BytesIn(s.levels[0]) + BytesIn(s.levels[1]) + BytesIn(s.levels[2])
  }

  ghost predicate CounterExact(s: State)
    requires Shape(s)
  {
    s.bytes == Queued(s) + InHand(s.pc) - Uncounted(s.locks[0]) - Uncounted(s.locks[1]) - Uncounted(s.locks[2])
  }

  /** An enqueuer that still has to count its bytes finds its message at the tail of its queue. */
  ghost predicate PushedIsTail(s: State)
    requires Shape(s)
  {
    forall l | 0 <= l < LEVELS && s.locks[l].Pushed? ::
      var queue := QueueOf(s.levels[l], s.locks[l].source);
      queue != [] && |queue[|queue|-1]| == s.locks[l].size
  }

  ghost predicate Inv(s: State) {
    && Shape(s) && LocksMatch(s) && SnapshotFresh(s) && Fifo(s)
    && NoneStranded(s) && InversionsBounded(s) && CounterExact(s) && PushedIsTail(s)
  }

  lemma InitInv()
    ensures Inv(Init())
  {
    EmptyHasNoBytes(map[]);
  }

  lemma LocksMatchPreserved(s: State, step: Step)
    requires Enabled(s, step) && LocksMatch(s)
    ensures LocksMatch(Apply(s, step))
  {
  }

  lemma SnapshotFreshPreserved(s: State, step: Step)
    requires Enabled(s, step) && LocksMatch(s) && SnapshotFresh(s)
    ensures SnapshotFresh(Apply(s, step))
  {
    var t := Apply(s, step);
    if t.pc.Visit? && !t.pc.served && (step.Push? || step.Prune?) {
      assert s.locks[s.pc.level] == Draining;
      assert t.levels[t.pc.level] == s.levels[s.pc.level];
    }
  }

  /** What one step does to one source's queue, and what it writes into the history. */
  lemma QueueEffect(s: State, step: Step, l: nat, source: Source)
    requires Enabled(s, step) && l < LEVELS
    ensures var t := Apply(s, step); |s.log| <= |t.log| <= |s.log| + 1 && t.log[..|s.log|] == s.log
    ensures var t := Apply(s, step); var before, after := QueueOf(s.levels[l], source), QueueOf(t.levels[l], source);
            if t.log == s.log then after == before
            else
              var e := t.log[|s.log|];
              if e.level != l || e.source != source then after == before
              else if e.Enqueued? then after == before + [e.data]
              else before == [e.data] + after
  {
    if step.Prune? {
      PruneKeepsQueues(s.levels[step.level], source);
    }
  }

  lemma FifoPreserved(s: State, step: Step)
    requires Enabled(s, step) && Fifo(s)
    ensures Fifo(Apply(s, step))
  {
    var t := Apply(s, step);
    forall l, source | 0 <= l < LEVELS
      ensures Accepted(t.log, l, source) == Sent(t.log, l, source) + QueueOf(t.levels[l], source)
    {
      FifoPreservedAt(s, step, l, source);
    }
  }

  /** A queue's history stays exact when an event of its own, or of another queue, is appended. */
  lemma FifoAfterEvent(log: seq<Event>, e: Event, l: nat, source: Source, before: seq<Data>, after: seq<Data>)
    requires Accepted(log, l, source) == Sent(log, l, source) + before
    requires if e.level != l || e.source != source then after == before
             else if e.Enqueued? then after == before + [e.data]
             else before == [e.data] + after
    ensures Accepted(log + [e], l, source) == Sent(log + [e], l, source) + after
  {
    AppendEvent(log, e);
  }

  lemma FifoPreservedAt(s: State, step: Step, l: nat, source: Source)
    requires Enabled(s, step) && l < LEVELS
    requires Accepted(s.log, l, source) == Sent(s.log, l, source) + QueueOf(s.levels[l], source)
    ensures var t := Apply(s, step);
            Accepted(t.log, l, source) == Sent(t.log, l, source) + QueueOf(t.levels[l], source)
  {
    QueueEffect(s, step, l, source);
    var log := Apply(s, step).log;
    var before, after := QueueOf(s.levels[l], source), QueueOf(Apply(s, step).levels[l], source);
    if |log| > |s.log| {
      var e := log[|s.log|];
      assert log == s.log + [e];
      FifoAfterEvent(s.log, e, l, source, before, after);
    } else {
      assert log == s.log;
    }
  }

  /** A round that popped nothing closes on an empty level. */
  lemma ClosedRoundLeavesEmptyLevel(s: State)
    requires Shape(s) && SnapshotFresh(s)
    requires s.pc.Visit? && !s.pc.served && s.pc.at == |s.pc.sources|
    ensures IsEmpty(s.levels[s.pc.level])
  {
    forall source | source in s.levels[s.pc.level]
      ensures s.levels[s.pc.level][source] == []
    {
      var i :| 0 <= i < |s.pc.sources| && s.pc.sources[i] == source;
      assert QueueOf(s.levels[s.pc.level], s.pc.sources[i]) == [];
    }
  }

  lemma NoneStrandedPreserved(s: State, step: Step)
    requires Enabled(s, step) && LocksMatch(s) && SnapshotFresh(s) && NoneStranded(s)
    ensures NoneStranded(Apply(s, step))
  {
    if step.VisitSource? && !s.pc.served && s.pc.at == |s.pc.sources| {
      ClosedRoundLeavesEmptyLevel(s);
    }
  }

  /** A waiting message keeps its level non-empty. */
  lemma WaitingKeepsLevelBusy(s: State, i: nat)
    requires Shape(s) && Fifo(s) && Waiting(s.log, i) && s.log[i].level < LEVELS
    ensures !IsEmpty(s.levels[s.log[i].level])
  {
    var Enqueued(l, source, data) := s.log[i];
    AppendEvent(s.log[..i], s.log[i]);
    assert s.log[..i] + [s.log[i]] == s.log[..i+1];
    AcceptedGrows(s.log, i + 1, l, source);
    assert QueueOf(s.levels[l], source) != [];
  }

  /** Without a new event, a waiting message stays protected. */
  lemma CommitmentKept(s: State, step: Step, i: nat)
    requires Enabled(s, step) && LocksMatch(s) && SnapshotFresh(s) && Fifo(s)
    requires Waiting(s.log, i) && s.log[i].level < LEVELS && Committed(s.pc, s.log[i].level)
    requires !(step.VisitSource? && Apply(s, step).pc.Popped?)
    ensures Committed(Apply(s, step).pc, s.log[i].level)
  {
    WaitingKeepsLevelBusy(s, i);
    if step.VisitSource? && !s.pc.served && s.pc.at == |s.pc.sources| {
      ClosedRoundLeavesEmptyLevel(s);
    }
  }

  lemma WaitingAfterEvent(log: seq<Event>, e: Event, i: nat)
    requires Waiting(log + [e], i) && i < |log|
    ensures Waiting(log, i)
    ensures Outranking(log + [e], i + 1, log[i].level)
            == Outranking(log, i + 1, log[i].level) + if e.Dequeued? && e.level > log[i].level then 1 else 0
  {
    AppendEvent(log, e);
    assert (log + [e])[..i] == log[..i];
  }

  /** The event a step writes; a dequeue is of the level being visited. */
  lemma EventOfStep(s: State, step: Step)
    requires Enabled(s, step) && Apply(s, step).log != s.log
    ensures var t := Apply(s, step);
            |t.log| == |s.log| + 1 && t.log == s.log + [t.log[|s.log|]] && t.log[|s.log|].level < LEVELS
    ensures var t := Apply(s, step); var e := t.log[|s.log|];
            if e.Dequeued? then step.VisitSource? && s.pc.level == e.level && t.pc.Popped?
            else step.Push? && t.pc == s.pc
  {
  }

  lemma InversionPreservedAt(s: State, step: Step, i: nat)
    requires Enabled(s, step) && LocksMatch(s) && SnapshotFresh(s) && Fifo(s) && InversionsBounded(s)
    requires var t := Apply(s, step); Waiting(t.log, i)
    ensures InversionBounded(Apply(s, step), i)
  {
    var t := Apply(s, step);
    if t.log == s.log {
      if Outranking(s.log, i + 1, s.log[i].level) == 1 {
        CommitmentKept(s, step, i);
      }
    } else {
      EventOfStep(s, step);
      var e := t.log[|s.log|];
      if i < |s.log| {
        WaitingAfterEvent(s.log, e, i);
        assert InversionBounded(s, i);
      }
    }
  }

  lemma InversionsPreserved(s: State, step: Step)
    requires Enabled(s, step) && LocksMatch(s) && SnapshotFresh(s) && Fifo(s) && InversionsBounded(s)
    ensures InversionsBounded(Apply(s, step))
  {
    var t := Apply(s, step);
    forall i | 0 <= i < |t.log| && Waiting(t.log, i)
      ensures InversionBounded(t, i)
    {
      InversionPreservedAt(s, step, i);
    }
  }

  /* ---- The byte counter ---- */

  lemma {:induction false} TailFits(queue: seq<Data>)
    requires queue != []
    ensures SizeOf(queue) >= |queue[|queue|-1]|
  {
    var last := queue[|queue|-1];
    assert queue == queue[..|queue|-1] + [last];
    SizeOfAppend(queue[..|queue|-1], last);
  }

  /** Bytes on one level that the counter already covers. */
  ghost function Covered(s: State, l: nat): int
    requires Shape(s) && l < LEVELS
  {
    BytesIn(s.levels[l]) - Uncounted(s.locks[l])
  }

  lemma PushedIsTailPreserved(s: State, step: Step)
    requires Enabled(s, step) && LocksMatch(s) && PushedIsTail(s)
    ensures PushedIsTail(Apply(s, step))
  {
    var t := Apply(s, step);
    forall l | 0 <= l < LEVELS && t.locks[l].Pushed?
      ensures var queue := QueueOf(t.levels[l], t.locks[l].source);
              queue != [] && |queue[|queue|-1]| == t.locks[l].size
    {
      if s.locks[l].Pushed? {
        assert t.levels[l] == s.levels[l] && t.locks[l] == s.locks[l];
      }
    }
  }

  /** What each step does to the covered bytes of one level. */
  lemma CoveredEffect(s: State, step: Step, l: nat)
    requires Enabled(s, step) && LocksMatch(s) && l < LEVELS
    ensures var t := Apply(s, step);
            Covered(t, l) == Covered(s, l)
            + (if step.Count? && step.level == l then s.locks[l].size else 0)
            - (if t.pc.Popped? && !s.pc.Popped? && t.pc.level == l then t.pc.size else 0)
  {
    var t := Apply(s, step);
    if t.levels[l] != s.levels[l] {
      match step
      case Push(_, source, data) =>
        SizeOfAppend(QueueOf(s.levels[l], source), data);
        BytesInUpdate(s.levels[l], source, QueueOf(s.levels[l], source) + [data]);
      case Prune(_) =>
        PruneKeepsBytes(s.levels[l]);
      case VisitSource =>
        var source := s.pc.sources[s.pc.at];
        BytesInUpdate(s.levels[l], source, QueueOf(s.levels[l], source)[1..]);
    }
  }

  lemma CounterPreserved(s: State, step: Step)
    requires Enabled(s, step) && LocksMatch(s) && CounterExact(s)
    ensures CounterExact(Apply(s, step))
  {
    CoveredEffect(s, step, 0);
    CoveredEffect(s, step, 1);
    CoveredEffect(s, step, 2);
  }

  lemma InvPreserved(s: State, step: Step)
    requires Inv(s) && Enabled(s, step)
    ensures Inv(Apply(s, step))
  {
    LocksMatchPreserved(s, step);
    SnapshotFreshPreserved(s, step);
    FifoPreserved(s, step);
    NoneStrandedPreserved(s, step);
    InversionsPreserved(s, step);
    CounterPreserved(s, step);
    PushedIsTailPreserved(s, step);
  }

  lemma {:induction false} InvHolds(steps: seq<Step>)
    requires Run(steps).Some?
    ensures Inv(Run(steps).value)
  {
    if steps == [] {
      InitInv();
    } else {
      InvHolds(steps[..|steps|-1]);
      InvPreserved(Run(steps[..|steps|-1]).value, steps[|steps|-1]);
    }
  }

  lemma CounterInv(steps: seq<Step>, s: State)
    requires Run(steps) == Some(s)
    ensures LocksMatch(s) && CounterExact(s) && PushedIsTail(s)
  {
    InvHolds(steps);
  }
}
