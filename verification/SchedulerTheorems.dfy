/**
 What every run of the outbound scheduler guarantees, whatever the interleaving of
 producers, pruners and the scheduler task.
 */
module SchedulerTheorems {
  import opened Wrappers
  import opened Bytes
  import opened PriorityQueue
  import opened Scheduler

  /** A run's history only grows, one event at a time. */
  lemma LogGrows(steps: seq<Step>)
    requires steps != [] && Run(steps).Some?
    ensures var before, after := Run(steps[..|steps|-1]).value.log, Run(steps).value.log;
            |before| <= |after| <= |before| + 1 && before == after[..|before|]
  {
    var s, step := Run(steps[..|steps|-1]).value, steps[|steps|-1];
    if Apply(s, step).log != s.log {
      EventOfStep(s, step);
    }
  }

  /**
   Bounded priority inversion: between the moment a message is enqueued and its own dequeue, at
   most one message of strictly lower priority is dequeued.
   */
  lemma {:induction false} PriorityInversionBounded(steps: seq<Step>, i: nat, j: nat)
    requires Run(steps).Some? && i < j <= |Run(steps).value.log|
    requires Waiting(Run(steps).value.log[..j], i)
    ensures Outranking(Run(steps).value.log[..j], i + 1, Run(steps).value.log[i].level) <= 1
  {
    var log := Run(steps).value.log;
    if j == |log| {
      assert log[..j] == log;
      InvHolds(steps);
      assert InversionBounded(Run(steps).value, i);
    } else {
      LogGrows(steps);
      var before := Run(steps[..|steps|-1]).value.log;
      assert log[..j] == before[..j];
      PriorityInversionBounded(steps[..|steps|-1], i, j);
    }
  }

  /** One more step of a run. */
  lemma Then(steps: seq<Step>, s: State, step: Step) returns (longer: seq<Step>, t: State)
    requires Run(steps) == Some(s) && Enabled(s, step)
    ensures longer == steps + [step] && t == Apply(s, step) && Run(longer) == Some(t)
  {
    RunExtend(Init(), steps, step);
    longer, t := steps + [step], Apply(s, step);
  }

  /** The bound is met: a medium message can land while a lowest one is about to be popped. */
  lemma OneInversionHappens(source: Source, a: Data, b: Data) returns (steps: seq<Step>)
    ensures Run(steps).Some?
    ensures var log := Run(steps).value.log;
            |log| == 3 && log[1] == Enqueued(1, source, b) && log[2] == Dequeued(2, source, a)
            && Waiting(log, 1) && Outranking(log, 2, 1) == 1
  {
    var s;
    steps, s := LowestQueuedOnly(source, a);
    // The medium message arrives once its level has been passed.
    steps, s := Then(steps, s, Push(1, source, b));
    steps, s := Then(steps, s, BeginRound([source]));
    steps, s := Then(steps, s, VisitSource);
    assert s.log == [Enqueued(2, source, a)] + [Enqueued(1, source, b)] + [Dequeued(2, source, a)];
    AppendEvent([], Enqueued(2, source, a));
    AppendEvent([Enqueued(2, source, a)], Enqueued(1, source, b));
    AppendEvent([Enqueued(2, source, a)] + [Enqueued(1, source, b)], Dequeued(2, source, a));
    assert s.log[..1] == [] + [Enqueued(2, source, a)] == [Enqueued(2, source, a)];
  }

  /** The scheduler has walked past two empty levels to the only queued message. */
  lemma LowestQueuedOnly(source: Source, a: Data) returns (steps: seq<Step>, s: State)
    ensures Run(steps) == Some(s)
    ensures s == State([map[], map[], map[source := [a]]], [Free, Free, Free], |a|, false, false, Round(2),
                       [Enqueued(2, source, a)])
  {
    steps, s := Then([], Init(), Push(2, source, a));
    assert QueueOf(map[], source) + [a] == [a];
    assert s.levels[2] == map[source := [a]];
    steps, s := Then(steps, s, Count(2));
    steps, s := Then(steps, s, Signal(2));
    steps, s := Then(steps, s, Wake);
    assert s.levels == [map[], map[], map[source := [a]]] && s.locks == [Free, Free, Free];
    steps, s := PassEmptyLevel(steps, s);
    steps, s := PassEmptyLevel(steps, s);
  }

  lemma PassEmptyLevel(steps: seq<Step>, s: State) returns (longer: seq<Step>, t: State)
    requires Run(steps) == Some(s) && Shape(s) && s.pc.Round? && s.pc.level + 1 < LEVELS
    requires s.locks[s.pc.level] == Free && s.levels[s.pc.level] == map[]
    ensures Run(longer) == Some(t) && t == s.(pc := Round(s.pc.level + 1))
  {
    longer, t := Then(steps, s, BeginRound([]));
    longer, t := Then(longer, t, VisitSource);
  }

  /** The pass has seen nothing on the last level: the next scheduler step parks the scheduler. */
  predicate AboutToPark(pc: Pc) {
    pc.Visit? && pc.level == LEVELS - 1 && pc.at == |pc.sources| && !pc.served
  }

  /** No stranded message: a task that sleeps on non-empty queues is about to be woken. */
  lemma NoStrandedMessage(steps: seq<Step>, s: State, l: nat)
    requires Run(steps) == Some(s) && l < LEVELS
    requires (s.pc.Parked? || AboutToPark(s.pc)) && !IsEmpty(s.levels[l])
    ensures s.dataPermit || Enqueuing(s.locks[l])
  {
    InvHolds(steps);
    if AboutToPark(s.pc) {
      ClosedRoundLeavesEmptyLevel(s);
    }
  }

  /** When nobody is enqueuing and the scheduler sleeps without a permit, every accepted message is out. */
  lemma IdleMeansDrained(steps: seq<Step>, s: State, l: nat, source: Source)
    requires Run(steps) == Some(s) && l < LEVELS
    requires s.pc.Parked? && !s.dataPermit && !Enqueuing(s.locks[l])
    ensures Sent(s.log, l, source) == Accepted(s.log, l, source)
  {
    InvHolds(steps);
    assert IsEmpty(s.levels[l]);
    assert QueueOf(s.levels[l], source) == [];
  }

  /** Per-source refinement: what went out, then what is queued, is what came in, in order. */
  lemma SourceOrderKept(steps: seq<Step>, s: State, l: nat, source: Source)
    requires Run(steps) == Some(s) && l < LEVELS
    ensures Sent(s.log, l, source) + QueueOf(s.levels[l], source) == Accepted(s.log, l, source)
  {
    InvHolds(steps);
  }

  lemma CoveredNonNegative(s: State, l: nat)
    requires Shape(s) && PushedIsTail(s) && l < LEVELS
    ensures Covered(s, l) >= 0
  {
    if s.locks[l].Pushed? {
      var source := s.locks[l].source;
      BytesInSplit(s.levels[l], source);
      TailFits(QueueOf(s.levels[l], source));
    }
  }

  /** The atomic counter never underflows, not even between a push and its own `fetch_add`. */
  lemma CounterNeverUnderflows(steps: seq<Step>, s: State)
    requires Run(steps) == Some(s)
    ensures s.bytes >= InHand(s.pc)
    ensures Enabled(s, Subtract) ==> Apply(s, Subtract).bytes >= 0
  {
    CounterInv(steps, s);
    CoveredNonNegative(s, 0);
    CoveredNonNegative(s, 1);
    CoveredNonNegative(s, 2);
  }

  /** With no level locked, the counter is the number of queued bytes. */
  lemma CounterExactWhenUnlocked(steps: seq<Step>, s: State)
    requires Run(steps) == Some(s)
    requires forall l | 0 <= l < LEVELS :: s.locks[l] == Free
    ensures s.bytes == Queued(s)
  {
    CounterInv(steps, s);
    assert !Holds(s.pc, 0) && !Holds(s.pc, 1) && !Holds(s.pc, 2);
  }

  /**
   A lock-free read of the counter bounds what one source has queued on one level, as long as no
   push of that source is still uncounted.
   */
  lemma CounterBoundsSource(steps: seq<Step>, s: State, l: nat, source: Source)
    requires Run(steps) == Some(s) && l < LEVELS
    requires var lock := s.locks[l]; lock.Pushed? ==> lock.source != source
    ensures SizeOf(QueueOf(s.levels[l], source)) <= s.bytes
  {
    CounterInv(steps, s);
    CoveredNonNegative(s, 0);
    CoveredNonNegative(s, 1);
    CoveredNonNegative(s, 2);
    if source in s.levels[l] {
      BytesInSplit(s.levels[l], source);
      if s.locks[l].Pushed? {
        BytesInSplit(s.levels[l] - {source}, s.locks[l].source);
        TailFits(QueueOf(s.levels[l], s.locks[l].source));
      }
    }
  }

  /* ---- Round fairness ---- */

  predicate InPass(pc: Pc, l: nat) {
    !pc.Parked? && pc.level == l
  }

  /** Every state of the segment, first to last, is inside a pass over level `l`. */
  predicate Unpreempted(s: State, steps: seq<Step>, l: nat) {
    && RunFrom(s, steps).Some? && InPass(RunFrom(s, steps).value.pc, l)
    && (steps != [] ==> Unpreempted(s, steps[..|steps|-1], l))
  }

  /** The source has something queued in every state of the segment. */
  predicate Backlogged(s: State, steps: seq<Step>, l: nat, source: Source) {
    && RunFrom(s, steps).Some? && l < |RunFrom(s, steps).value.levels|
    && QueueOf(RunFrom(s, steps).value.levels[l], source) != []
    && (steps != [] ==> Backlogged(s, steps[..|steps|-1], l, source))
  }

  function Rounds(steps: seq<Step>): nat {
    if steps == [] then 0
    else Rounds(steps[..|steps|-1]) + if steps[|steps|-1].BeginRound? then 1 else 0
  }

  lemma {:induction false} RoundsGrow(earlier: seq<Step>, later: seq<Step>)
    requires earlier <= later
    ensures Rounds(earlier) <= Rounds(later)
  {
    if |earlier| < |later| {
      RoundsGrow(earlier, later[..|later|-1]);
    } else {
      assert earlier == later;
    }
  }

  /** Sources of the current snapshot whose turn has come. */
  function Visited(pc: Pc): seq<Source>
    requires !pc.Parked? && !pc.Round?
    requires if pc.Visit? then pc.at <= |pc.sources| else pc.at < |pc.sources|
  {
    if pc.Visit? then pc.sources[..pc.at] else pc.sources[..pc.at + 1]
  }

  function Service(s: State, t: State, l: nat, source: Source): int {
    |Sent(t.log, l, source)| - |Sent(s.log, l, source)|
  }

  /** A backlogged source has had one message per round, less one while its turn is still to come. */
  ghost predicate InStep(s: State, t: State, rounds: nat, l: nat, source: Source)
    requires Shape(t) && InPass(t.pc, l)
  {
    if t.pc.Round? then Service(s, t, l, source) == rounds
    else
      && Distinct(t.pc.sources)
      && source in t.pc.sources
      && Service(s, t, l, source) == rounds - 1 + if source in Visited(t.pc) then 1 else 0
  }

  /** The step pops from this source. */
  predicate Pops(t: State, step: Step, l: nat, source: Source)
    requires Enabled(t, step) && l < LEVELS
  {
    && step.VisitSource? && t.pc.level == l && t.pc.at < |t.pc.sources| && t.pc.sources[t.pc.at] == source
    && QueueOf(t.levels[l], source) != []
  }

  lemma ServiceEffect(t: State, step: Step, l: nat, source: Source)
    requires Enabled(t, step) && l < LEVELS
    ensures |Sent(Apply(t, step).log, l, source)|
            == |Sent(t.log, l, source)| + if Pops(t, step, l, source) then 1 else 0
  {
    var u := Apply(t, step);
    if u.log != t.log {
      EventOfStep(t, step);
      AppendEvent(t.log, u.log[|t.log|]);
    }
  }

  lemma InStepPreserved(s: State, t: State, step: Step, rounds: nat, l: nat, source: Source)
    requires Enabled(t, step) && InPass(t.pc, l) && InPass(Apply(t, step).pc, l) && l < LEVELS
    requires QueueOf(t.levels[l], source) != []
    requires InStep(s, t, rounds, l, source)
    ensures InStep(s, Apply(t, step), rounds + if step.BeginRound? then 1 else 0, l, source)
  {
    if step.VisitSource? {
      VisitKeepsInStep(s, t, rounds, l, source);
    } else {
      ServiceEffect(t, step, l, source);
    }
  }

  lemma VisitKeepsInStep(s: State, t: State, rounds: nat, l: nat, source: Source)
    requires Shape(t) && t.pc.Visit? && t.pc.level == l && InPass(VisitNext(t).pc, l)
    requires QueueOf(t.levels[l], source) != []
    requires InStep(s, t, rounds, l, source)
    ensures InStep(s, VisitNext(t), rounds, l, source)
  {
    ServiceEffect(t, VisitSource, l, source);
    TurnOf(t.pc.sources, t.pc.at, source);
  }

  /** Whose turn has come when the scheduler moves on by one source. */
  lemma TurnOf(sources: seq<Source>, at: nat, source: Source)
    requires Distinct(sources) && at <= |sources|
    ensures at == |sources| ==> sources[..at] == sources
    ensures at < |sources| ==>
              && sources[at] !in sources[..at]
              && (source in sources[..at + 1] <==> source in sources[..at] || source == sources[at])
  {
    if at < |sources| {
      assert sources[..at + 1] == sources[..at] + [sources[at]];
    } else {
      assert sources[..at] == sources;
    }
  }

  lemma {:induction false} BackloggedServedPerRound(s: State, steps: seq<Step>, l: nat, source: Source)
    requires Shape(s) && s.pc == Round(l) && Unpreempted(s, steps, l) && Backlogged(s, steps, l, source)
    ensures InStep(s, RunFrom(s, steps).value, Rounds(steps), l, source)
  {
    if steps != [] {
      var front := steps[..|steps|-1];
      BackloggedServedPerRound(s, front, l, source);
      InStepPreserved(s, RunFrom(s, front).value, steps[|steps|-1], Rounds(front), l, source);
    }
  }

  /**
   Round fairness: in an unpreempted pass, two sources that stay backlogged never differ by more
   than one message served.
   */
  lemma BackloggedSourcesServedEvenly(s: State, steps: seq<Step>, l: nat, a: Source, b: Source)
    requires Shape(s) && s.pc == Round(l) && Unpreempted(s, steps, l)
    requires Backlogged(s, steps, l, a) && Backlogged(s, steps, l, b)
    ensures var t := RunFrom(s, steps).value;
            -1 <= Service(s, t, l, a) - Service(s, t, l, b) <= 1
  {
    BackloggedServedPerRound(s, steps, l, a);
    BackloggedServedPerRound(s, steps, l, b);
  }

  /** Every state of the segment belongs to the round that took this snapshot. */
  predicate SameRound(s: State, steps: seq<Step>, l: nat, sources: seq<Source>) {
    && RunFrom(s, steps).Some?
    && (var pc := RunFrom(s, steps).value.pc; InPass(pc, l) && !pc.Round? && pc.sources == sources)
    && (steps != [] ==> SameRound(s, steps[..|steps|-1], l, sources))
  }

  /** Within a round: at most one message each, exactly one if there was one at the snapshot. */
  ghost predicate OneEach(s: State, t: State, l: nat, source: Source)
    requires Shape(s) && Shape(t) && l < LEVELS && !t.pc.Parked? && !t.pc.Round?
  {
    if source in Visited(t.pc) then
      && 0 <= Service(s, t, l, source) <= 1
      && (QueueOf(s.levels[l], source) != [] ==> Service(s, t, l, source) == 1)
    else
      && Service(s, t, l, source) == 0
      && QueueOf(s.levels[l], source) <= QueueOf(t.levels[l], source)
  }

  lemma OneEachPreserved(s: State, t: State, step: Step, l: nat, source: Source)
    requires Shape(s) && Enabled(t, step) && l < LEVELS
    requires InPass(t.pc, l) && !t.pc.Round?
    requires InPass(Apply(t, step).pc, l) && !Apply(t, step).pc.Round? && Apply(t, step).pc.sources == t.pc.sources
    requires Distinct(t.pc.sources)
    requires OneEach(s, t, l, source)
    ensures OneEach(s, Apply(t, step), l, source)
  {
    ServiceEffect(t, step, l, source);
    if !Pops(t, step, l, source) {
      QueueGrowsUnlessPopped(t, step, l, source);
    }
    if step.VisitSource? {
      TurnOf(t.pc.sources, t.pc.at, source);
    }
  }

  lemma QueueGrowsUnlessPopped(t: State, step: Step, l: nat, source: Source)
    requires Enabled(t, step) && l < LEVELS && !Pops(t, step, l, source)
    ensures QueueOf(t.levels[l], source) <= QueueOf(Apply(t, step).levels[l], source)
  {
    QueueEffect(t, step, l, source);
    if Apply(t, step).log != t.log {
      EventOfStep(t, step);
    }
  }

  lemma {:induction false} OneEachHolds(s: State, steps: seq<Step>, l: nat, source: Source)
    requires Shape(s) && l < LEVELS && s.pc.Visit? && s.pc.level == l && s.pc.at == 0
    requires Lists(s.pc.sources, s.levels[l]) && SameRound(s, steps, l, s.pc.sources)
    ensures var t := RunFrom(s, steps).value; OneEach(s, t, l, source)
  {
    if steps != [] {
      var front := steps[..|steps|-1];
      OneEachHolds(s, front, l, source);
      OneEachPreserved(s, RunFrom(s, front).value, steps[|steps|-1], l, source);
    }
  }

  /**
   A completed round dequeues exactly one message from every source that had one at the key
   snapshot, and at most one from any other, whatever is enqueued or pruned meanwhile.
   */
  lemma RoundServesEachOnce(s: State, steps: seq<Step>, l: nat, source: Source)
    requires Shape(s) && l < LEVELS && s.pc.Visit? && s.pc.level == l && s.pc.at == 0
    requires Lists(s.pc.sources, s.levels[l]) && SameRound(s, steps, l, s.pc.sources)
    requires var t := RunFrom(s, steps).value; t.pc.Visit? && t.pc.at == |s.pc.sources|
    ensures var t := RunFrom(s, steps).value;
            if QueueOf(s.levels[l], source) != [] then Service(s, t, l, source) == 1
            else 0 <= Service(s, t, l, source) <= 1
  {
    OneEachHolds(s, steps, l, source);
    var sources := s.pc.sources;
    assert sources[..|sources|] == sources;
  }

  /** Whenever the counter has fallen, a drain waiter finds a permit, until one of them takes it. */
  lemma {:induction false} FallWakesWaiter(steps: seq<Step>, s: State, p: nat)
    requires Run(steps) == Some(s) && p < |steps| && Run(steps[..p]).Some? && Run(steps[..p + 1]).Some?
    requires Run(steps[..p + 1]).value.bytes < Run(steps[..p]).value.bytes
    requires forall i | p < i < |steps| :: !steps[i].AwaitSize?
    ensures s.sizePermit
  {
    var front := steps[..|steps|-1];
    if p + 1 == |steps| {
      assert steps[..p] == front && steps[..p + 1] == steps;
    } else {
      assert steps[..p] == front[..p] && steps[..p + 1] == front[..p + 1];
      FallWakesWaiter(front, Run(front).value, p);
    }
  }
}
