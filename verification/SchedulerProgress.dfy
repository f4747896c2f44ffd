/**
 Progress of the outbound scheduler: once nothing new is enqueued, it drains every level and goes to sleep
 within a number of its own steps fixed by what is queued and listed.
 */
module SchedulerProgress {
  import opened Wrappers
  import opened Bytes
  import opened PriorityQueue
  import opened Scheduler
  import opened SchedulerTheorems

  // ----- how many messages are queued

  /** The same queues with every message one byte long, so that bytes count messages. */
  function Unit(queue: seq<Data>): seq<Data> {
    seq(|queue|, _ => [0])
  }

  function UnitLevel(level: Level): Level {
    map source | source in level :: Unit(level[source])
  }

  ghost function MessagesIn(level: Level): nat {
    BytesIn(UnitLevel(level))
  }

  lemma {:induction false} UnitSize(queue: seq<Data>)
    ensures SizeOf(Unit(queue)) == |queue|
  {
    if queue != [] {
      UnitSize(queue[1..]);
      assert Unit(queue)[1..] == Unit(queue[1..]);
    }
  }

  lemma MessagesUpdate(level: Level, source: Source, queue: seq<Data>)
    ensures MessagesIn(level[source := queue]) == MessagesIn(level) - |QueueOf(level, source)| + |queue|
  {
    BytesInUpdate(UnitLevel(level), source, Unit(queue));
    assert UnitLevel(level[source := queue]) == UnitLevel(level)[source := Unit(queue)];
    assert QueueOf(UnitLevel(level), source) == Unit(QueueOf(level, source));
    UnitSize(queue);
    UnitSize(QueueOf(level, source));
  }

  lemma PruneKeepsMessages(level: Level)
    ensures MessagesIn(NonEmptySources(level)) == MessagesIn(level)
    ensures |NonEmptySources(level)| <= |level|
  {
    PruneKeepsBytes(UnitLevel(level));
    assert UnitLevel(NonEmptySources(level)) == NonEmptySources(UnitLevel(level));
    SubsetSize(NonEmptySources(level).Keys, level.Keys);
  }

  lemma {:induction false} SubsetSize<T>(a: set<T>, b: set<T>)
    requires a <= b
    ensures |a| <= |b|
  {
    if a != {} {
      var x :| x in a;
      SubsetSize(a - {x}, b - {x});
    }
  }

  /** A snapshot lists no more sources than the level has keys. */
  lemma {:induction false} DistinctSize(sources: seq<Source>, keys: set<Source>)
    requires Distinct(sources) && forall source | source in sources :: source in keys
    ensures |sources| <= |keys|
  {
    if sources != [] {
      var init, last := sources[..|sources|-1], sources[|sources|-1];
      DistinctSize(init, keys - {last});
    }
  }

  ghost function Messages(s: State): nat
    requires Shape(s)
  {
    MessagesIn(s.levels[0]) + MessagesIn(s.levels[1]) + MessagesIn(s.levels[2])
  }

  function Snapshot(pc: Pc): seq<Source> {
    if pc.Parked? || pc.Round? then [] else pc.sources
  }

  /** Keys of the levels and of the round under way. */
  function Listed(s: State): nat
    requires Shape(s)
  {
    |s.levels[0]| + |s.levels[1]| + |s.levels[2]| + |Snapshot(s.pc)|
  }

  // ----- a measure that every scheduler step lowers

  /** Steps of one pass from level `l` on that pops nothing, with at most `n` keys a level. */
  function Pass(n: nat, l: nat): nat {
    if l == 0 then 3 * (n + 2) else if l == 1 then 2 * (n + 2) else if l == 2 then n + 2 else 0
  }

  /** Scheduler steps before the next pop or the next sleep, at most. */
  function Rank(n: nat, pc: Pc): int {
    match pc
    case Parked => 0
    case Round(l) => Pass(n, l)
    case Visit(l, sources, at, served) => |sources| - at + 1 + Pass(n, if served then l else l + 1)
    case Popped(l, sources, at, _) => l + 3 + |sources| - at + Pass(n, 0)
    case Peek(l, sources, at, next) => l - next + 2 + |sources| - at + Pass(n, 0)
    case Relock(l, sources, at) => 1 + |sources| - at + Pass(n, l)
  }

  function Weight(lock: Lock): nat {
    if Enqueuing(lock) then 1 else 0
  }

  /** Wake-ups that are stored or on their way. */
  function WakeUps(s: State): nat
    requires Shape(s)
  {
    (if s.dataPermit then 1 else 0) + Weight(s.locks[0]) + Weight(s.locks[1]) + Weight(s.locks[2])
  }

  function PerMessage(n: nat): nat { 4 * n + 13 }

  function PerWakeUp(n: nat): nat { 3 * n + 7 }

  ghost function Work(n: nat, s: State): int
    requires Shape(s)
  {
    PerMessage(n) * Messages(s) + Rank(n, s.pc) + PerWakeUp(n) * WakeUps(s)
  }

  predicate Bounded(n: nat, s: State)
    requires Shape(s)
  {
    && |s.levels[0]| <= n && |s.levels[1]| <= n && |s.levels[2]| <= n
    && |Snapshot(s.pc)| <= n
  }

  lemma RankRange(n: nat, s: State)
    requires Shape(s) && Bounded(n, s)
    ensures 0 <= Rank(n, s.pc) < PerMessage(n)
  {
  }

  function Own(step: Step): nat {
    if IsSchedulerStep(step) then 1 else 0
  }

  function SchedulerSteps(steps: seq<Step>): nat {
    if steps == [] then 0 else SchedulerSteps(steps[..|steps|-1]) + Own(steps[|steps|-1])
  }

  lemma PopEffect(s: State)
    requires Shape(s) && s.pc.Visit? && s.pc.at < |s.pc.sources|
    requires QueueOf(s.levels[s.pc.level], s.pc.sources[s.pc.at]) != []
    ensures var t := VisitNext(s);
      && t.pc.Popped? && Messages(t) == Messages(s) - 1 && Snapshot(t.pc) == Snapshot(s.pc)
      && (forall l | 0 <= l < LEVELS :: |t.levels[l]| == |s.levels[l]|)
  {
    var l, source := s.pc.level, s.pc.sources[s.pc.at];
    var level, queue := s.levels[l], QueueOf(s.levels[l], source);
    MessagesUpdate(level, source, queue[1..]);
    assert level[source := queue[1..]].Keys == level.Keys;
    assert |level[source := queue[1..]]| == |level|;
    hide MessagesIn;
  }

  lemma VisitEffect(s: State)
    requires Shape(s) && s.pc.Visit?
    ensures var t := VisitNext(s);
      && Messages(t) == Messages(s) - (if t.pc.Popped? then 1 else 0)
      && |Snapshot(t.pc)| <= |Snapshot(s.pc)|
      && (forall l | 0 <= l < LEVELS :: |t.levels[l]| == |s.levels[l]|)
  {
    hide MessagesIn;
    if s.pc.at < |s.pc.sources| && QueueOf(s.levels[s.pc.level], s.pc.sources[s.pc.at]) != [] {
      PopEffect(s);
    } else {
      assert VisitNext(s).levels == s.levels;
    }
  }

  lemma MessagesOfStep(s: State, step: Step)
    requires Enabled(s, step) && !step.Push?
    ensures Messages(Apply(s, step)) == Messages(s) - (if step.VisitSource? && Apply(s, step).pc.Popped? then 1 else 0)
  {
    if step.VisitSource? {
      VisitEffect(s);
    } else if step.Prune? {
      PruneKeepsMessages(s.levels[step.level]);
    } else {
      assert Apply(s, step).levels == s.levels;
    }
    hide VisitNext, MessagesIn;
  }

  lemma BoundedVisit(n: nat, s: State)
    requires Shape(s) && s.pc.Visit? && Bounded(n, s)
    ensures Bounded(n, VisitNext(s))
  {
    VisitEffect(s);
    hide VisitNext, MessagesIn;
  }

  lemma BoundedPrune(n: nat, s: State, l: nat)
    requires Enabled(s, Prune(l)) && Bounded(n, s)
    ensures Bounded(n, Apply(s, Prune(l)))
  {
    PruneKeepsMessages(s.levels[l]);
    hide MessagesIn, NonEmptySources;
  }

  lemma BoundedBegin(n: nat, s: State, sources: seq<Source>)
    requires Enabled(s, BeginRound(sources)) && Bounded(n, s)
    ensures Bounded(n, Apply(s, BeginRound(sources)))
  {
    DistinctSize(sources, s.levels[s.pc.level].Keys);
    hide Lists;
  }

  lemma BoundedStep(n: nat, s: State, step: Step)
    requires Enabled(s, step) && !step.Push? && Bounded(n, s)
    ensures Bounded(n, Apply(s, step))
  {
    hide VisitNext, Lists;
    if step.VisitSource? {
      BoundedVisit(n, s);
    } else if step.BeginRound? {
      BoundedBegin(n, s, step.sources);
    } else if step.Prune? {
      BoundedPrune(n, s, step.level);
    } else {
      assert Apply(s, step).levels == s.levels;
      assert |Snapshot(Apply(s, step).pc)| <= |Snapshot(s.pc)|;
    }
  }

  lemma WakeUpsOfStep(s: State, step: Step)
    requires Enabled(s, step) && !step.Push? && LocksMatch(s)
    ensures WakeUps(Apply(s, step)) <= WakeUps(s) - (if step.Wake? then 1 else 0)
  {
  }

  lemma RankOfVisit(n: nat, s: State)
    requires Shape(s) && s.pc.Visit? && |s.pc.sources| <= n
    ensures var t := VisitNext(s);
      if t.pc.Popped? then Rank(n, t.pc) < PerMessage(n) && Rank(n, s.pc) > 0 else Rank(n, t.pc) < Rank(n, s.pc)
  {
  }

  lemma RankOfPeek(n: nat, s: State)
    requires Enabled(s, PeekLevel) && |s.pc.sources| <= n
    ensures Rank(n, Apply(s, PeekLevel).pc) < Rank(n, s.pc)
  {
  }

  lemma RankOfLock(n: nat, s: State, step: Step)
    requires Enabled(s, step) && (step.BeginRound? || step.Subtract? || step.Reacquire?)
    requires |Snapshot(Apply(s, step).pc)| <= n
    ensures Rank(n, Apply(s, step).pc) < Rank(n, s.pc)
  {
    hide Lists;
  }

  lemma RankOfStep(n: nat, s: State, step: Step)
    requires Enabled(s, step) && Bounded(n, s) && Bounded(n, Apply(s, step))
    ensures var t := Apply(s, step);
      && (!IsSchedulerStep(step) ==> t.pc == s.pc)
      && (step.Wake? ==> Rank(n, t.pc) < PerWakeUp(n) && Rank(n, s.pc) == 0)
      && (step.VisitSource? && t.pc.Popped? ==> Rank(n, t.pc) < PerMessage(n) && Rank(n, s.pc) > 0)
      && (IsSchedulerStep(step) && !step.Wake? && !(step.VisitSource? && t.pc.Popped?) ==>
            Rank(n, t.pc) < Rank(n, s.pc))
  {
    hide VisitNext, Lists;
    if step.VisitSource? {
      RankOfVisit(n, s);
      assert Apply(s, step) == VisitNext(s);
    } else if step.PeekLevel? {
      RankOfPeek(n, s);
    } else if IsSchedulerStep(step) && !step.Wake? {
      RankOfLock(n, s, step);
    } else if step.Wake? {
      assert Rank(n, Round(0)) == 3 * (n + 2);
    }
    hide Rank;
  }

  lemma OneLess(a: nat, m: nat)
    requires m > 0
    ensures a * (m - 1) == a * m - a
  {
  }

  lemma Fewer(a: nat, m: nat, k: nat)
    requires m <= k
    ensures a * m <= a * k
  {
  }

  /** Without a push no step adds work, and every step of the scheduler takes some away. */
  lemma WorkOfStep(n: nat, s: State, step: Step)
    requires Enabled(s, step) && !step.Push? && LocksMatch(s) && Bounded(n, s)
    ensures Bounded(n, Apply(s, step)) && Work(n, Apply(s, step)) + Own(step) <= Work(n, s)
  {
    var t := Apply(s, step);
    MessagesOfStep(s, step);
    BoundedStep(n, s, step);
    WakeUpsOfStep(s, step);
    RankOfStep(n, s, step);
    hide Apply, Rank, Messages, WakeUps, Bounded;
    if step.Wake? {
      OneLess(PerWakeUp(n), WakeUps(s));
      Fewer(PerWakeUp(n), WakeUps(t), WakeUps(s) - 1);
    } else {
      Fewer(PerWakeUp(n), WakeUps(t), WakeUps(s));
    }
    if step.VisitSource? && t.pc.Popped? {
      OneLess(PerMessage(n), Messages(s));
    }
  }

  lemma {:induction false} WorkOfRun(n: nat, steps: seq<Step>, s: State, more: seq<Step>, t: State)
    requires Run(steps) == Some(s) && RunFrom(s, more) == Some(t) && Bounded(n, s)
    requires forall i | 0 <= i < |more| :: !more[i].Push?
    ensures Bounded(n, t) && Work(n, t) + SchedulerSteps(more) <= Work(n, s)
  {
    hide Apply, Enabled, Work, Bounded;
    if more != [] {
      var front, step := more[..|more|-1], more[|more|-1];
      var before := RunFrom(s, front).value;
      WorkOfRun(n, steps, s, front, before);
      RunCompose(Init(), steps, front);
      CounterInv(steps + front, before);
      assert !step.Push?;
      WorkOfStep(n, before, step);
    }
  }

  /**
   Bounded draining: in any run on from any reachable state in which nothing is pushed, whatever prunes,
   waits and unfinished enqueues it interleaves, the scheduler makes at most so many steps.
   */
  lemma DrainIsBounded(steps: seq<Step>, s: State, more: seq<Step>, t: State)
    requires Run(steps) == Some(s) && RunFrom(s, more) == Some(t)
    requires forall i | 0 <= i < |more| :: !more[i].Push?
    ensures var n := Listed(s);
      SchedulerSteps(more) <= PerMessage(n) * (Messages(s) + 1) + 4 * PerWakeUp(n)
  {
    var n := Listed(s);
    assert Bounded(n, s);
    WorkOfRun(n, steps, s, more, t);
    RankRange(n, s);
    RankRange(n, t);
    Fewer(PerWakeUp(n), WakeUps(s), 4);
    Nonnegative(PerMessage(n), Messages(t));
    Nonnegative(PerWakeUp(n), WakeUps(t));
    OneLess(PerMessage(n), Messages(s) + 1);
  }

  lemma Nonnegative(a: nat, b: nat)
    ensures a * b >= 0
  {
  }

  // ----- it never gets stuck before it is done

  predicate Drained(s: State)
    requires Shape(s)
  {
    s.pc.Parked? && !s.dataPermit && forall l | 0 <= l < LEVELS :: IsEmpty(s.levels[l])
  }

  predicate NobodyEnqueues(s: State)
    requires Shape(s)
  {
    forall l | 0 <= l < LEVELS :: !Enqueuing(s.locks[l])
  }

  /** Some order of the keys. */
  lemma {:induction false} ListKeys(level: Level) returns (sources: seq<Source>)
    ensures Lists(sources, level)
    decreases |level|
  {
    if level == map[] {
      sources := [];
    } else {
      var source :| source in level;
      var rest := ListKeys(level - {source});
      sources := rest + [source];
    }
  }

  /** While nobody is enqueuing, the scheduler can always make a step, unless it sleeps on empty levels. */
  lemma StepUnlessDrained(steps: seq<Step>, s: State) returns (step: Step)
    requires Run(steps) == Some(s) && NobodyEnqueues(s) && !Drained(s)
    ensures IsSchedulerStep(step) && Enabled(s, step)
  {
    CounterInv(steps, s);
    InvHolds(steps);
    match s.pc
    case Parked => step := Wake;
    case Round(l) =>
      var sources := ListKeys(s.levels[l]);
      step := BeginRound(sources);
    case Visit(_, _, _, _) => step := VisitSource;
    case Popped(_, _, _, _) => step := Subtract;
    case Peek(_, _, _, _) => step := PeekLevel;
    case Relock(_, _, _) => step := Reacquire;
  }

  lemma StaysNobody(s: State, step: Step)
    requires Enabled(s, step) && IsSchedulerStep(step) && NobodyEnqueues(s)
    ensures NobodyEnqueues(Apply(s, step))
  {
  }

  /** From every reachable state without an unfinished enqueue, the scheduler alone drains everything. */
  lemma {:induction false} DrainsAlone(n: nat, steps: seq<Step>, s: State) returns (more: seq<Step>, t: State)
    requires Run(steps) == Some(s) && NobodyEnqueues(s) && Bounded(n, s)
    ensures Run(steps + more) == Some(t) && Drained(t)
    ensures (forall i | 0 <= i < |more| :: IsSchedulerStep(more[i])) && |more| <= Work(n, s)
    decreases Work(n, s)
  {
    hide RunFrom;
    more, t := [], s;
    assert steps + more == steps;
    WorkNonnegative(n, s);
    if !Drained(s) {
      var step := StepUnlessDrained(steps, s);
      CounterInv(steps, s);
      WorkOfStep(n, s, step);
      StaysNobody(s, step);
      RunExtend(Init(), steps, step);
      hide Apply, Enabled, Work, Bounded, NobodyEnqueues, Drained;
      var rest;
      rest, t := DrainsAlone(n, steps + [step], Apply(s, step));
      more := [step] + rest;
      assert steps + more == steps + [step] + rest;
    }
  }

  lemma WorkNonnegative(n: nat, s: State)
    requires Shape(s) && Bounded(n, s)
    ensures Work(n, s) >= 0
  {
    RankRange(n, s);
    Nonnegative(PerMessage(n), Messages(s));
    Nonnegative(PerWakeUp(n), WakeUps(s));
  }

  /** The end of every run that can go no further: sleeping, with every accepted message out. */
  lemma EndsDrained(steps: seq<Step>, s: State, l: nat, source: Source)
    requires Run(steps) == Some(s) && NobodyEnqueues(s) && l < LEVELS
    requires forall step :: IsSchedulerStep(step) ==> !Enabled(s, step)
    ensures Drained(s) && Sent(s.log, l, source) == Accepted(s.log, l, source)
  {
    hide Enabled;
    if !Drained(s) {
      var step := StepUnlessDrained(steps, s);
    }
    IdleMeansDrained(steps, s, l, source);
  }
}
