/**
 The cluster's queue as the program runs it: methods that update the shared fields in place,
 with every other task free to run between two accesses. Each method is proved to take only
 steps of the machine in module Scheduler, so everything proved of its runs holds here.
 */
module ClusterQueue {
  import opened Wrappers
  import opened Bytes
  import opened PriorityQueue
  import opened Scheduler
  import opened SchedulerTheorems

  /** What the running task rules out for all others: its own control flow, its locks, its source. */
  datatype Task = Task(scheduler: bool, holds: set<nat>, owns: set<Source>)

  const SCHEDULER_TASK := Task(true, {}, {})

  predicate ByOther(me: Task, step: Step) {
    && (me.scheduler ==> !IsSchedulerStep(step))
    && (step.Count? || step.Signal? ==> step.level !in me.holds)
    && (step.Push? ==> step.source !in me.owns)
  }

  predicate ByOthers(me: Task, steps: seq<Step>) {
    forall i | 0 <= i < |steps| :: ByOther(me, steps[i])
  }

  /** Only the running task pushes for the sources it owns. */
  ghost predicate NoNewPush(owns: set<Source>, before: seq<Lock>, after: seq<Lock>)
    requires |before| == LEVELS && |after| == LEVELS
  {
    forall l | 0 <= l < LEVELS :: after[l].Pushed? && after[l].source in owns ==> after[l] == before[l]
  }

  /** What the running task can rely on while others run. */
  ghost predicate Undisturbed(me: Task, s: State, t: State)
    requires Shape(s) && Shape(t)
  {
    && s.log <= t.log
    && (me.scheduler ==> t.pc == s.pc)
    && (forall l | 0 <= l < LEVELS && l in me.holds && Enqueuing(s.locks[l]) ::
          t.locks[l] == s.locks[l] && t.levels[l] == s.levels[l])
    && (forall l | 0 <= l < LEVELS && me.scheduler && s.locks[l] == Draining ::
          t.locks[l] == s.locks[l] && t.levels[l] == s.levels[l])
    && (forall l, source | 0 <= l < LEVELS && source in me.owns ::
          Accepted(t.log, l, source) == Accepted(s.log, l, source))
    && NoNewPush(me.owns, s.locks, t.locks)
  }

  lemma OtherStepUndisturbed(me: Task, s: State, step: Step)
    requires Enabled(s, step) && LocksMatch(s) && ByOther(me, step)
    ensures Undisturbed(me, s, Apply(s, step))
  {
    hide Apply, Accepted;
    OtherStepLog(me, s, step);
    OtherStepLocks(me, s, step);
  }

  lemma OtherStepLog(me: Task, s: State, step: Step)
    requires Enabled(s, step) && ByOther(me, step)
    ensures s.log <= Apply(s, step).log
    ensures forall l, source | 0 <= l < LEVELS && source in me.owns ::
              Accepted(Apply(s, step).log, l, source) == Accepted(s.log, l, source)
  {
    var t := Apply(s, step);
    if t.log != s.log {
      EventOfStep(s, step);
      AppendEvent(s.log, t.log[|s.log|]);
    }
  }

  lemma OtherStepLocks(me: Task, s: State, step: Step)
    requires Enabled(s, step) && LocksMatch(s) && ByOther(me, step)
    ensures var t := Apply(s, step);
            && (me.scheduler ==> t.pc == s.pc) && NoNewPush(me.owns, s.locks, t.locks)
            && (forall l | 0 <= l < LEVELS && l in me.holds && Enqueuing(s.locks[l]) ::
                  t.locks[l] == s.locks[l] && t.levels[l] == s.levels[l])
            && (forall l | 0 <= l < LEVELS && me.scheduler && s.locks[l] == Draining ::
                  t.locks[l] == s.locks[l] && t.levels[l] == s.levels[l])
  {
  }


  lemma {:induction false} OthersUndisturbed(me: Task, steps: seq<Step>, s: State, others: seq<Step>, t: State)
    requires Run(steps) == Some(s) && Run(steps + others) == Some(t) && ByOthers(me, others)
    ensures Undisturbed(me, s, t)
  {
    if others == [] {
      assert steps + others == steps;
    } else {
      var front := others[..|others|-1];
      assert (steps + others)[..|steps + others|-1] == steps + front;
      var u := Run(steps + front).value;
      OthersUndisturbed(me, steps, s, front, u);
      CounterInv(steps + front, u);
      OtherStepUndisturbed(me, u, others[|others|-1]);
    }
  }

  /** A drained level is locked by the scheduler task, which is then not the running task. */
  lemma LockHolder(me: Task, steps: seq<Step>, s: State, others: seq<Step>, t: State, l: nat)
    requires Run(steps) == Some(s) && Run(steps + others) == Some(t) && ByOthers(me, others) && l < LEVELS
    requires me.scheduler ==> !Holds(s.pc, l)
    ensures t.locks[l] == Draining ==> Holds(t.pc, l) && !me.scheduler
  {
    OthersUndisturbed(me, steps, s, others, t);
    CounterInv(steps + others, t);
  }

  // ----- what a run shows at one of its steps

  /** The step prunes level `l`: no source is left empty, and no queue has changed. */
  ghost predicate PrunedAt(steps: seq<Step>, at: nat, l: nat) {
    && at < |steps| && steps[at] == Prune(l) && l < LEVELS
    && Run(steps[..at]).Some? && Run(steps[..at + 1]).Some?
    && var before, after := Run(steps[..at]).value.levels[l], Run(steps[..at + 1]).value.levels[l];
    && (forall source :: source in after ==> after[source] != [])
    && (forall source :: QueueOf(after, source) == QueueOf(before, source))
  }

  /** The step reads level `l` on behalf of a lower one, and finds it empty or not. */
  ghost predicate ReadAt(steps: seq<Step>, at: nat, l: nat, empty: bool) {
    && at < |steps| && steps[at] == PeekLevel && Run(steps[..at]).Some?
    && var s := Run(steps[..at]).value;
    && s.pc.Peek? && s.pc.next == l < s.pc.level && IsEmpty(s.levels[l]) == empty
  }

  /** The step finds data on a level above `l`. */
  ghost predicate HigherAt(steps: seq<Step>, at: nat, l: nat) {
    exists k: nat :: k < l && ReadAt(steps, at, k, false)
  }

  /** The step pops a message of level `l`. */
  ghost predicate PoppedAt(steps: seq<Step>, at: nat, l: nat) {
    && at < |steps| && steps[at] == VisitSource && Run(steps[..at + 1]).Some?
    && var pc := Run(steps[..at + 1]).value.pc;
    && pc.Popped? && pc.level == l
  }

  /** The step closes a round over level `l`, which is empty. */
  ghost predicate EmptyAt(steps: seq<Step>, at: nat, l: nat) {
    && at < |steps| && steps[at] == VisitSource && Run(steps[..at]).Some?
    && var s := Run(steps[..at]).value;
    && s.pc.Visit? && s.pc.level == l && s.pc.at == |s.pc.sources| && IsEmpty(s.levels[l])
  }

  /** After its first `p` steps the run's counter of queued bytes was above `limit`. */
  ghost predicate CounterAbove(steps: seq<Step>, p: nat, limit: int) {
    p <= |steps| && Run(steps[..p]).Some? && Run(steps[..p]).value.bytes > limit
  }

  ghost predicate CounterWithin(steps: seq<Step>, p: nat, limit: int) {
    p <= |steps| && Run(steps[..p]).Some? && Run(steps[..p]).value.bytes <= limit
  }

  /** One turn of a drain wait: no permit after the first `at` steps, or one taken there and a read of the counter. */
  datatype Look = Asleep(at: nat) | Woken(at: nat, read: nat)

  /** The turn had to go on: it slept, or its read was above the target. */
  ghost predicate WentOn(steps: seq<Step>, look: Look, target: int) {
    match look
    case Asleep(at) => at <= |steps| && Run(steps[..at]).Some? && !Run(steps[..at]).value.sizePermit
    case Woken(at, read) => at < read && at < |steps| && steps[at] == AwaitSize && CounterAbove(steps, read, target)
  }

  /** A drain wait: its first read of the counter, its turns, and its last read. */
  datatype Wait = Wait(first: nat, looks: seq<Look>, last: nat)

  /**
   What makes a wait behind the first `base` steps answer so. A first read within the threshold is the answer. After
   any other every turn but the last went on, and the answer is whether the last read is within the target; it is
   negative only when all wake-ups have been used.
  */
  ghost predicate Answered(steps: seq<Step>, base: nat, wait: Wait, threshold: int, target: int, wakeUps: nat,
                           drained: bool)
  {
    && base <= wait.first <= wait.last
    && if CounterWithin(steps, wait.first, threshold) then drained && wait.looks == [] && wait.last == wait.first
       else
         && CounterAbove(steps, wait.first, threshold)
         && AllWentOn(steps, wait.first, wait.looks, target) && |wait.looks| <= wakeUps
         && if drained then CounterWithin(steps, wait.last, target)
            else CounterAbove(steps, wait.last, target) && |wait.looks| == wakeUps
  }

  ghost predicate AllWentOn(steps: seq<Step>, base: nat, looks: seq<Look>, target: int) {
    && (forall i | 0 <= i < |looks| :: base <= looks[i].at && WentOn(steps, looks[i], target))
    && (forall i, j | 0 <= i < j < |looks| :: looks[i].at <= looks[j].at)
  }

  /** A drain wait behind the first `base` steps: a read above `high` made it wait, its last one was above `low`. */
  ghost predicate WaitFailed(steps: seq<Step>, base: nat, high: int, low: int) {
    exists p: nat, q: nat :: base <= p <= q && CounterAbove(steps, p, high) && CounterAbove(steps, q, low)
  }

  lemma CounterStays(steps: seq<Step>, longer: seq<Step>, p: nat, limit: int)
    requires steps <= longer
    ensures CounterAbove(steps, p, limit) ==> CounterAbove(longer, p, limit)
    ensures p <= |steps| ==> (CounterWithin(steps, p, limit) <==> CounterWithin(longer, p, limit))
  {
    hide Run;
    if p <= |steps| {
      assert longer[..p] == steps[..p];
    }
  }

  lemma CounterNow(steps: seq<Step>, s: State, limit: int)
    requires Run(steps) == Some(s)
    ensures s.bytes > limit ==> CounterAbove(steps, |steps|, limit) && !CounterWithin(steps, |steps|, limit)
    ensures s.bytes <= limit ==> CounterWithin(steps, |steps|, limit)
  {
    hide Run;
    assert steps[..|steps|] == steps;
  }

  lemma BothAbove(steps: seq<Step>, base: nat, p: nat, q: nat, high: int, low: int)
    requires base <= p <= q && CounterAbove(steps, p, high) && CounterAbove(steps, q, low)
    ensures WaitFailed(steps, base, high, low)
  {
    hide CounterAbove;
  }

  lemma WaitStays(steps: seq<Step>, base: nat, high: int, low: int, longer: seq<Step>, earlier: nat)
    requires WaitFailed(steps, base, high, low) && steps <= longer && earlier <= base
    ensures WaitFailed(longer, earlier, high, low)
  {
    hide CounterAbove, CounterWithin;
    var p: nat, q: nat :| base <= p <= q && CounterAbove(steps, p, high) && CounterAbove(steps, q, low);
    CounterStays(steps, longer, p, high);
    CounterStays(steps, longer, q, low);
  }

  lemma WentOnStays(steps: seq<Step>, longer: seq<Step>, look: Look, target: int)
    requires WentOn(steps, look, target) && steps <= longer
    ensures WentOn(longer, look, target)
  {
    hide Run, CounterAbove, CounterWithin;
    assert longer[..look.at] == steps[..look.at];
    if look.Woken? {
      CounterStays(steps, longer, look.read, target);
    }
  }

  lemma OneMoreLook(steps: seq<Step>, base: nat, looks: seq<Look>, target: int, longer: seq<Step>, look: Look)
    requires AllWentOn(steps, base, looks, target) && steps <= longer && base <= |steps| <= look.at
    requires WentOn(longer, look, target)
    ensures AllWentOn(longer, base, looks + [look], target)
  {
    hide Run, CounterAbove;
    forall i | 0 <= i < |looks| ensures WentOn(longer, looks[i], target) && looks[i].at <= |steps| {
      assert WentOn(steps, looks[i], target);
      WentOnStays(steps, longer, looks[i], target);
    }
  }

  lemma LooksStay(steps: seq<Step>, base: nat, looks: seq<Look>, target: int, longer: seq<Step>)
    requires AllWentOn(steps, base, looks, target) && steps <= longer
    ensures AllWentOn(longer, base, looks, target)
  {
    hide WentOn;
    forall i | 0 <= i < |looks| ensures WentOn(longer, looks[i], target) {
      WentOnStays(steps, longer, looks[i], target);
    }
  }

  /** What a run shows, every longer run shows. */
  lemma ShownLater(steps: seq<Step>, longer: seq<Step>, at: nat, l: nat, empty: bool)
    requires steps <= longer
    ensures PrunedAt(steps, at, l) ==> PrunedAt(longer, at, l)
    ensures ReadAt(steps, at, l, empty) ==> ReadAt(longer, at, l, empty)
    ensures PoppedAt(steps, at, l) ==> PoppedAt(longer, at, l)
    ensures EmptyAt(steps, at, l) ==> EmptyAt(longer, at, l)
  {
    if at < |steps| {
      assert longer[..at] == steps[..at] && longer[..at + 1] == steps[..at + 1];
    }
    hide Run;
  }

  /** The keys of a level, each once, in some order. */
  method KeysOf(level: Level) returns (sources: seq<Source>)
    ensures Lists(sources, level)
  {
    sources := [];
    var rest := level.Keys;
    while rest != {}
      invariant rest <= level.Keys
      invariant Distinct(sources)
      invariant forall source :: source in sources <==> source in level && source !in rest
    {
      var source :| source in rest;
      sources := sources + [source];
      rest := rest - {source};
    }
  }

  class Cluster {
    var levels: seq<Level>
    var locks: seq<Lock>
    var queuedMessageSize: int
    var dataPermit: bool
    var sizePermit: bool
    var pc: Pc
    ghost var log: seq<Event>
    ghost var steps: seq<Step>   // the run so far

    ghost function Now(): State
      reads this
    {
      State(levels, locks, queuedMessageSize, dataPermit, sizePermit, pc, log)
    }

    ghost predicate Valid()
      reads this
    {
      Run(steps) == Some(Now())
    }

    constructor ()
      ensures Valid() && steps == [] && Now() == Init()
    {
      levels := seq(LEVELS, _ => map[]);
      locks := seq(LEVELS, _ => Free);
      queuedMessageSize, dataPermit, sizePermit, pc := 0, false, false, Parked;
      log, steps := [], [];
    }

    /** Write down the step the running task has just taken. */
    ghost method Record(before: State, step: Step)
      requires Run(steps) == Some(before) && Enabled(before, step) && Now() == Apply(before, step)
      modifies this`steps
      ensures steps == old(steps) + [step] && Valid()
    {
      RunExtend(Init(), steps, step);
      steps := steps + [step];
    }

    /** Any number of steps of other tasks. The body takes none; callers may assume no more than the contract. */
    method LetOthersRun(ghost me: Task) returns (ghost others: seq<Step>)
      requires Valid()
      modifies this
      ensures Valid() && steps == old(steps) + others && ByOthers(me, others)
    {
      hide RunFrom;
      others := [];
    }

    /** `LetOthersRun`, with what the running task may rely on. */
    method Interfere(ghost me: Task) returns (ghost others: seq<Step>)
      requires Valid()
      modifies this
      ensures Valid() && steps == old(steps) + others && ByOthers(me, others)
      ensures Undisturbed(me, old(Now()), Now())
    {
      hide RunFrom;
      others := LetOthersRun(me);
      OthersUndisturbed(me, old(steps), old(Now()), others, Now());
    }

    /** Scheduler step under the lock: pop from the next source, skip it, or close the round. */
    method VisitNextSource() returns (popped: bool)
      requires Valid() && pc.Visit?
      modifies this
      ensures Valid() && steps == old(steps) + [VisitSource] && Now() == VisitNext(old(Now()))
      ensures popped == pc.Popped?
      ensures var Visit(l, sources, at, served) := old(pc);
              if at == |sources| then
                pc == if served then Round(l) else if l + 1 < LEVELS then Round(l + 1) else Parked
              else if popped then pc.level == l && pc.sources == sources && pc.at == at
              else pc == Visit(l, sources, at + 1, served)
    {
      hide RunFrom;
      ghost var s := Now();
      var Visit(l, sources, at, served) := pc;
      popped := false;
      if at == |sources| {
        locks := locks[l := Free];
        pc := if served then Round(l) else if l + 1 < LEVELS then Round(l + 1) else Parked;
      } else {
        var queue := QueueOf(levels[l], sources[at]);
        if queue == [] {
          pc := Visit(l, sources, at + 1, served);
        } else {
          levels := levels[l := levels[l][sources[at] := queue[1..]]];
          pc := Pc.Popped(l, sources, at, |queue[0]|);
          log := log + [Dequeued(l, sources[at], queue[0])];
          popped := true;
        }
      }
      Record(s, VisitSource);
    }

    /** Scheduler step: subtract the popped bytes, signal drain waiters, release the lock. */
    method SubtractPopped()
      requires Valid() && pc.Popped?
      modifies this
      ensures Valid() && steps == old(steps) + [Subtract] && Now() == Apply(old(Now()), Subtract)
      ensures pc == Peek(old(pc.level), old(pc.sources), old(pc.at), 0)
    {
      hide RunFrom;
      ghost var s := Now();
      queuedMessageSize := queuedMessageSize - pc.size;
      sizePermit := true;
      locks := locks[pc.level := Free];
      pc := Peek(pc.level, pc.sources, pc.at, 0);
      Record(s, Subtract);
    }

    /** The scheduler task, holding a lock, runs until it releases it. */
    method SchedulerReleases(l: nat, ghost me: Task) returns (ghost others: seq<Step>)
      requires Valid() && Holds(pc, l) && !me.scheduler
      modifies this
      ensures Valid() && steps == old(steps) + others && ByOthers(me, others)
      ensures locks[l] == Free
    {
      hide RunFrom;
      others := [];
      while pc.Visit?
        invariant Valid() && steps == old(steps) + others && ByOthers(me, others)
        invariant pc.Visit? ==> Holds(pc, l) && pc.at <= |pc.sources|
        invariant !pc.Visit? ==> locks[l] == Free || (pc.Popped? && Holds(pc, l))
        decreases if pc.Visit? then 1 + |pc.sources| - pc.at else 0
      {
        ghost var before := steps;
        var popped := VisitNextSource();
        assert steps == old(steps) + (others + [VisitSource]);
        others := others + [VisitSource];
        CounterInv(before, Run(before).value);
        if pc.Round? && pc.level == l {
          break;
        }
      }
      if pc.Popped? && locks[l] != Free {
        SubtractPopped();
        assert steps == old(steps) + (others + [Subtract]);
        others := others + [Subtract];
      }
    }

    /** Enqueuer step: add the pushed bytes to the counter. */
    method CountPushed(l: nat)
      requires Valid() && l < LEVELS && locks[l].Pushed?
      modifies this
      ensures Valid() && steps == old(steps) + [Count(l)] && Now() == Apply(old(Now()), Count(l))
    {
      hide RunFrom;
      ghost var s := Now();
      queuedMessageSize := queuedMessageSize + locks[l].size;
      locks := locks[l := Counted(locks[l].source)];
      Record(s, Count(l));
    }

    /** Enqueuer step: signal the scheduler and release the lock. */
    method SignalData(l: nat)
      requires Valid() && l < LEVELS && locks[l].Counted?
      modifies this
      ensures Valid() && steps == old(steps) + [Signal(l)] && Now() == Apply(old(Now()), Signal(l))
    {
      hide RunFrom;
      ghost var s := Now();
      dataPermit := true;
      locks := locks[l := Free];
      Record(s, Signal(l));
    }

    /** An enqueuer, holding a lock, runs until it releases it. */
    method EnqueuerReleases(l: nat, ghost me: Task) returns (ghost others: seq<Step>)
      requires Valid() && l < LEVELS && Enqueuing(locks[l]) && l !in me.holds
      modifies this
      ensures Valid() && steps == old(steps) + others && ByOthers(me, others)
      ensures locks[l] == Free
    {
      hide RunFrom;
      others := [];
      if locks[l].Pushed? {
        CountPushed(l);
        others := [Count(l)];
      }
      SignalData(l);
      assert steps == old(steps) + (others + [Signal(l)]);
      others := others + [Signal(l)];
    }

    /** Wait for a level's lock: whoever holds it finishes its critical section. */
    method AwaitFree(l: nat, ghost me: Task) returns (ghost others: seq<Step>)
      requires Valid() && l < LEVELS && l !in me.holds
      requires me.scheduler ==> !Holds(pc, l)
      modifies this
      ensures Valid() && steps == old(steps) + others && ByOthers(me, others)
      ensures Undisturbed(me, old(Now()), Now())
      ensures locks[l] == Free
    {
      hide RunFrom;
      others := LetOthersRun(me);
      LockHolder(me, old(steps), old(Now()), others, Now(), l);
      ghost var release := [];
      if locks[l] == Draining {
        release := SchedulerReleases(l, me);
      } else if locks[l] != Free {
        release := EnqueuerReleases(l, me);
      }
      assert steps == old(steps) + (others + release);
      others := others + release;
      OthersUndisturbed(me, old(steps), old(Now()), others, Now());
    }

    /** `queue_message`: lock the level, push, count the bytes, signal the scheduler, unlock. */
    method QueueMessage(source: Source, data: Data, priority: Priority, ghost me: Task) returns (ghost at: nat)
      requires Valid() && !me.scheduler && me.holds == {}
      modifies this
      ensures Valid() && old(steps) <= steps && old(log) <= log
      ensures |old(log)| <= at < |log| && log[at] == Enqueued(priority.Index(), source, data)
      ensures forall l, own | 0 <= l < LEVELS && own in me.owns ::
                Accepted(log, l, own) == old(Accepted(log, l, own))
                  + if l == priority.Index() && own == source then [data] else []
      ensures dataPermit && NoNewPush(me.owns, old(locks), locks)
      ensures locks[priority.Index()] == Free
    {
      hide RunFrom;
      var l := priority.Index();
      IndexFollowsU8(priority, priority);
      var others := AwaitFree(l, me);
      at := |log|;
      AppendEvent(log, Enqueued(l, source, data));
      PushMessage(l, source, data);
      CountAndSignal(l, me);
    }

    /** The rest of an enqueue, with the level still locked. */
    method CountAndSignal(l: nat, ghost me: Task)
      requires Valid() && l < LEVELS && locks[l].Pushed? && !me.scheduler && me.holds == {}
      modifies this
      ensures Valid() && old(steps) <= steps && old(log) <= log
      ensures forall k, own | 0 <= k < LEVELS && own in me.owns :: Accepted(log, k, own) == old(Accepted(log, k, own))
      ensures dataPermit && locks[l] == Free
      ensures forall k | 0 <= k < LEVELS && k != l ::
                locks[k].Pushed? && locks[k].source in me.owns ==> locks[k] == old(locks[k])
    {
      hide RunFrom;
      var others := Interfere(Task(false, {l}, me.owns));
      CountPushed(l);
      others := Interfere(Task(false, {l}, me.owns));
      SignalData(l);
    }

    /** Enqueuer step under the lock: append the message to its source's queue. */
    method PushMessage(l: nat, source: Source, data: Data)
      requires Valid() && l < LEVELS && locks[l] == Free
      modifies this
      ensures Valid() && steps == old(steps) + [Push(l, source, data)]
      ensures Now() == Apply(old(Now()), Push(l, source, data))
    {
      hide RunFrom;
      ghost var s := Now();
      levels := levels[l := levels[l][source := QueueOf(levels[l], source) + [data]]];
      locks := locks[l := Lock.Pushed(source, |data|)];
      log := log + [Enqueued(l, source, data)];
      Record(s, Push(l, source, data));
    }

    /** One level of a prune cycle, under its lock. */
    method PruneLevel(l: nat, ghost me: Task) returns (ghost at: nat)
      requires Valid() && l < LEVELS && !me.scheduler && me.holds == {}
      modifies this
      ensures Valid() && old(steps) <= steps
      ensures |old(steps)| <= at < |steps| && PrunedAt(steps, at, l)
      ensures forall k, own | 0 <= k < LEVELS && own in me.owns :: Accepted(log, k, own) == old(Accepted(log, k, own))
    {
      hide RunFrom;
      var others := AwaitFree(l, me);
      ghost var s := Now();
      at := |steps|;
      levels := levels[l := NonEmptySources(levels[l])];
      Record(s, Prune(l));
      assert steps[..at + 1] == steps;
    }

    /** `prune_once`: drop the empty source queues, one level at a time, from the first to the last. */
    method PruneOnce(ghost me: Task) returns (ghost at: seq<nat>)
      requires Valid() && !me.scheduler && me.holds == {}
      modifies this
      ensures Valid() && old(steps) <= steps
      ensures |at| == LEVELS
      ensures forall l | 0 <= l < LEVELS :: |old(steps)| <= at[l] && PrunedAt(steps, at[l], l)
      ensures forall k, l | 0 <= k < l < LEVELS :: at[k] < at[l]
      ensures forall l, own | 0 <= l < LEVELS && own in me.owns :: Accepted(log, l, own) == old(Accepted(log, l, own))
    {
      hide RunFrom, PrunedAt;
      at := [];
      var l := 0;
      while l < LEVELS
        invariant l == |at| <= LEVELS
        invariant Valid() && old(steps) <= steps
        invariant forall k | 0 <= k < l :: |old(steps)| <= at[k] < |steps| && PrunedAt(steps, at[k], k)
        invariant forall j, k | 0 <= j < k < l :: at[j] < at[k]
        invariant forall k, own | 0 <= k < LEVELS && own in me.owns ::
                    Accepted(log, k, own) == old(Accepted(log, k, own))
      {
        ghost var earlier := steps;
        ghost var next := PruneLevel(l, me);
        forall k | 0 <= k < l ensures PrunedAt(steps, at[k], k) {
          ShownLater(earlier, steps, at[k], k, false);
        }
        at := at + [next];
        l := l + 1;
      }
    }

    /** Other tasks run; the scheduler's own place is untouched. */
    method Yield()
      requires Valid()
      modifies this
      ensures Valid() && old(steps) <= steps && pc == old(pc)
    {
      hide RunFrom;
      var others := Interfere(SCHEDULER_TASK);
    }

    /** The scheduler task waits for a level's lock. */
    method SchedulerAwaits(l: nat)
      requires Valid() && l < LEVELS && !Holds(pc, l)
      modifies this
      ensures Valid() && old(steps) <= steps && pc == old(pc) && locks[l] == Free
    {
      hide RunFrom;
      var others := AwaitFree(l, SCHEDULER_TASK);
    }

    /** One level read by `has_higher_priority_data`. */
    method LevelHasData(level: nat, l: nat) returns (higher: bool, ghost at: nat)
      requires Valid() && pc.Peek? && pc.level == level && pc.next == l < level
      modifies this
      ensures Valid() && old(steps) <= steps
      ensures |old(steps)| <= at < |steps| && ReadAt(steps, at, l, !higher)
      ensures pc == if higher then Round(0) else Peek(level, old(pc.sources), old(pc.at), l + 1)
    {
      hide RunFrom;
      SchedulerAwaits(l);
      ghost var s := Now();
      at := |steps|;
      higher := !IsEmpty(levels[l]);
      pc := if higher then Round(0) else Peek(level, pc.sources, pc.at, l + 1);
      Record(s, PeekLevel);
    }

    /**
     `has_higher_priority_data`, as the scheduler calls it after a pop: one level read at a time. It
     answers true on the first level read non-empty, and false once each was read empty.
     */
    method HasHigherPriorityData(level: nat) returns (higher: bool, ghost looked: seq<nat>)
      requires Valid() && pc.Peek? && pc.level == level && pc.next == 0
      modifies this
      ensures Valid() && old(steps) <= steps
      ensures pc == if higher then Round(0) else Relock(level, old(pc.sources), old(pc.at))
      ensures if higher then 0 < |looked| <= level else |looked| == level
      ensures forall k | 0 <= k < |looked| ::
                |old(steps)| <= looked[k] && ReadAt(steps, looked[k], k, !higher || k < |looked| - 1)
    {
      hide RunFrom, ReadAt;
      looked := [];
      var l := 0;
      while l < level
        invariant l == |looked| <= level < LEVELS
        invariant Valid() && old(steps) <= steps
        invariant pc == Peek(level, old(pc.sources), old(pc.at), l)
        invariant forall k | 0 <= k < l :: |old(steps)| <= looked[k] && ReadAt(steps, looked[k], k, true)
      {
        ghost var earlier := steps;
        ghost var at;
        higher, at := LevelHasData(level, l);
        forall k | 0 <= k < l ensures ReadAt(steps, looked[k], k, true) {
          ShownLater(earlier, steps, looked[k], k, true);
        }
        looked := looked + [at];
        if higher {
          return;
        }
        l := l + 1;
      }
      ghost var s, earlier := Now(), steps;
      pc := Relock(level, pc.sources, pc.at);
      Record(s, PeekLevel);
      forall k | 0 <= k < |looked| ensures ReadAt(steps, looked[k], k, true) {
        ShownLater(earlier, steps, looked[k], k, true);
      }
      higher := false;
    }

    /** Take the level's lock and snapshot its keys. */
    method StartRound(l: nat) returns (sources: seq<Source>)
      requires Valid() && pc == Round(l)
      modifies this
      ensures Valid() && old(steps) <= steps && pc == Visit(l, sources, 0, false)
      ensures Rounds(steps) > Rounds(old(steps))
    {
      hide RunFrom;
      SchedulerAwaits(l);
      RoundsGrow(old(steps), steps);
      ghost var s := Now();
      sources := KeysOf(levels[l]);
      locks := locks[l := Draining];
      pc := Visit(l, sources, 0, false);
      Record(s, BeginRound(sources));
    }

    /** Take the lock back for the next source of the round. */
    method RetakeLock()
      requires Valid() && pc.Relock?
      modifies this
      ensures Valid() && old(steps) <= steps
      ensures pc == Visit(old(pc.level), old(pc.sources), old(pc.at) + 1, true)
    {
      hide RunFrom;
      var l := pc.level;
      SchedulerAwaits(l);
      ghost var s := Now();
      locks := locks[l := Draining];
      pc := Visit(l, pc.sources, pc.at + 1, true);
      Record(s, Reacquire);
    }

    /**
     `run_scheduler`, cut off once it has begun `budget` rounds: every prefix of the scheduler's life is
     covered. Returning `idle`, the scheduler sleeps without a permit and everything accepted by then on
     an unlocked level has been dequeued, in order.
     */
    method RunScheduler(budget: nat) returns (idle: bool)
      requires Valid() && pc == Parked
      modifies this
      ensures Valid() && old(steps) <= steps
      ensures idle ==> pc == Parked && !dataPermit
      ensures !idle ==> Rounds(steps) >= Rounds(old(steps)) + budget
      ensures idle ==> forall l, source | 0 <= l < LEVELS && locks[l] == Free ::
                Sent(log, l, source) == Accepted(log, l, source)
    {
      hide RunFrom;
      var left := budget;
      while left > 0
        invariant Valid() && old(steps) <= steps && pc == Parked
        invariant left <= budget && Rounds(steps) >= Rounds(old(steps)) + budget - left
      {
        ghost var earlier := steps;
        Yield();
        RoundsGrow(earlier, steps);
        if !dataPermit {
          forall l, source | 0 <= l < LEVELS && locks[l] == Free
            ensures Sent(log, l, source) == Accepted(log, l, source)
          {
            IdleMeansDrained(steps, Now(), l, source);
          }
          return true;
        }
        ghost var s := Now();
        dataPermit, pc := false, Round(0);
        Record(s, Wake);
        RoundsGrow(earlier, steps);
        var drained;
        ghost var empties;
        left, drained, empties := DrainQueues(left);
        if !drained {
          return false;
        }
      }
      idle := false;
    }

    /** Pop from the next source of the snapshot, if it has anything. */
    method PopSource(l: nat, sources: seq<Source>, at: nat, hadData: bool) returns (popped: bool, ghost shown: nat)
      requires Valid() && at < |sources| && pc == Visit(l, sources, at, hadData)
      modifies this
      ensures Valid() && old(steps) <= steps
      ensures if popped then pc.Popped? && pc.level == l && pc.sources == sources && pc.at == at
              else pc == Visit(l, sources, at + 1, hadData)
      ensures popped ==> |old(steps)| <= shown && PoppedAt(steps, shown, l)
    {
      hide RunFrom, VisitNext, Apply, Enabled;
      Yield();
      shown := |steps|;
      popped := VisitNextSource();
      assert steps[..shown + 1] == steps;
    }

    /**
     The body of the round's loop: pop one message, let higher priorities cut in, take the lock back.
     `shown` is the pop, or the read that cut it short.
     */
    method ServeSource(l: nat, sources: seq<Source>, at: nat, hadData: bool)
      returns (popped: bool, higher: bool, ghost shown: nat)
      requires Valid() && at < |sources| && pc == Visit(l, sources, at, hadData)
      modifies this
      ensures Valid() && old(steps) <= steps && (higher ==> popped)
      ensures pc == if higher then Round(0) else Visit(l, sources, at + 1, hadData || popped)
      ensures popped ==> |old(steps)| <= shown
      ensures higher ==> HigherAt(steps, shown, l)
      ensures popped && !higher ==> PoppedAt(steps, shown, l)
    {
      hide RunFrom, VisitNext, Apply, Enabled, PoppedAt, ReadAt;
      popped, shown := PopSource(l, sources, at, hadData);
      higher := false;
      if popped {
        ghost var earlier := steps;
        Yield();
        SubtractPopped();
        ghost var looked;
        higher, looked := HasHigherPriorityData(l);
        if higher {
          shown := looked[|looked| - 1];
          assert ReadAt(steps, shown, |looked| - 1, false);
        } else {
          RetakeLock();
          ShownLater(earlier, steps, shown, l, false);
        }
      }
    }

    /** The end of a round: a level that gave nothing is empty. */
    method CloseRound(l: nat, sources: seq<Source>, hadData: bool) returns (ghost shown: nat)
      requires Valid() && pc == Visit(l, sources, |sources|, hadData)
      modifies this
      ensures Valid() && old(steps) <= steps
      ensures pc == if hadData then Round(l) else if l + 1 < LEVELS then Round(l + 1) else Parked
      ensures !hadData ==> |old(steps)| <= shown < |steps| && EmptyAt(steps, shown, l)
    {
      hide RunFrom, VisitNext, Apply, Enabled;
      Yield();
      shown := |steps|;
      ghost var earlier, s := steps, Now();
      InvHolds(steps);
      if !hadData {
        ClosedRoundLeavesEmptyLevel(s);
      }
      var popped := VisitNextSource();
      assert steps[..shown] == earlier;
    }

    /**
     One round over a level's sources. It is cut short only by a read that found a higher level
     non-empty; otherwise `hadData` says whether a message was popped, and if none was, the level was
     empty when the round closed. `shown` is the step that tells.
     */
    method DrainRound(l: nat) returns (hadData: bool, higher: bool, ghost shown: nat)
      requires Valid() && pc == Round(l)
      modifies this
      ensures Valid() && old(steps) <= steps && Rounds(steps) > Rounds(old(steps))
      ensures pc == if higher then Round(0) else if hadData then Round(l)
                    else if l + 1 < LEVELS then Round(l + 1) else Parked
      ensures |old(steps)| <= shown
      ensures if higher then HigherAt(steps, shown, l)
              else if hadData then PoppedAt(steps, shown, l) else shown < |steps| && EmptyAt(steps, shown, l)
    {
      hide RunFrom, Rounds, PoppedAt, EmptyAt, HigherAt;
      var sources := StartRound(l);
      ghost var begun := steps;
      var at := 0;
      hadData, higher, shown := false, false, |steps|;
      while at < |sources|
        invariant at <= |sources|
        invariant Valid() && begun <= steps && |old(steps)| <= shown
        invariant pc == Visit(l, sources, at, hadData)
        invariant hadData ==> PoppedAt(steps, shown, l)
      {
        ghost var earlier, next := steps, 0;
        var popped;
        popped, higher, next := ServeSource(l, sources, at, hadData);
        ShownLater(earlier, steps, shown, l, false);
        shown := if popped then next else shown;
        hadData := hadData || popped;
        if higher {
          RoundsGrow(begun, steps);
          return;
        }
        at := at + 1;
      }
      ghost var earlier := steps;
      ghost var closed := CloseRound(l, sources, hadData);
      ShownLater(earlier, steps, shown, l, false);
      shown := if hadData then shown else closed;
      RoundsGrow(begun, steps);
    }

    /** Rounds over one level until one pops nothing, or a higher level cuts in. */
    method DrainLevel(l: nat, budget: nat) returns (left: nat, higher: bool, emptied: bool, ghost shown: nat)
      requires Valid() && pc == Round(l)
      modifies this
      ensures Valid() && old(steps) <= steps && left <= budget && |old(steps)| <= shown
      ensures Rounds(steps) >= Rounds(old(steps)) + budget - left
      ensures higher || emptied ==> left < budget
      ensures higher ==> !emptied && pc == Round(0) && HigherAt(steps, shown, l)
      ensures emptied ==>
                && shown < |steps| && EmptyAt(steps, shown, l)
                && pc == if l + 1 < LEVELS then Round(l + 1) else Parked
      ensures !higher && !emptied ==> left == 0
    {
      hide RunFrom, Rounds, PoppedAt, EmptyAt, HigherAt;
      left, higher, emptied, shown := budget, false, false, |steps|;
      while left > 0 && !higher && !emptied
        invariant Valid() && old(steps) <= steps && left <= budget && |old(steps)| <= shown
        invariant Rounds(steps) >= Rounds(old(steps)) + budget - left
        invariant higher || emptied ==> left < budget
        invariant higher ==> !emptied && pc == Round(0) && HigherAt(steps, shown, l)
        invariant emptied ==>
                    && shown < |steps| && EmptyAt(steps, shown, l)
                    && pc == if l + 1 < LEVELS then Round(l + 1) else Parked
        invariant !higher && !emptied ==> pc == Round(l)
        decreases left
      {
        left := left - 1;
        var hadData;
        hadData, higher, shown := DrainRound(l);
        emptied := !hadData && !higher;
      }
    }

    /**
     One wake-up of the scheduler: pass over the levels, starting again whenever it is preempted. When it
     returns drained, its last pass has found every level empty, one after the other.
     */
    method DrainQueues(budget: nat) returns (left: nat, drained: bool, ghost empties: seq<nat>)
      requires Valid() && pc == Round(0) && budget > 0
      modifies this
      ensures Valid() && old(steps) <= steps && left < budget
      ensures Rounds(steps) >= Rounds(old(steps)) + budget - left
      ensures if drained then pc == Parked else left == 0
      ensures drained ==> |empties| == LEVELS
      ensures drained ==> forall l | 0 <= l < LEVELS :: |old(steps)| <= empties[l] && EmptyAt(steps, empties[l], l)
      ensures drained ==> forall k, l | 0 <= k < l < LEVELS :: empties[k] < empties[l]
    {
      hide RunFrom, Rounds, EmptyAt;
      left, empties := budget, [];
      label reset:
      while true
        invariant Valid() && old(steps) <= steps && pc == Round(0)
        invariant left <= budget && Rounds(steps) >= Rounds(old(steps)) + budget - left
        decreases left
      {
        ghost var start := left;
        empties := [];
        var l := 0;
        while l < LEVELS
          invariant l == |empties| <= LEVELS && left <= start && (l > 0 ==> left < start)
          invariant Valid() && old(steps) <= steps && Rounds(steps) >= Rounds(old(steps)) + budget - left
          invariant pc == if l < LEVELS then Round(l) else Parked
          invariant forall k | 0 <= k < l :: |old(steps)| <= empties[k] < |steps| && EmptyAt(steps, empties[k], k)
          invariant forall j, k | 0 <= j < k < l :: empties[j] < empties[k]
        {
          ghost var earlier, shown := steps, 0;
          var higher, emptied;
          left, higher, emptied, shown := DrainLevel(l, left);
          if higher {
            continue reset;
          }
          if !emptied {
            return left, false, empties;
          }
          forall k | 0 <= k < l ensures EmptyAt(steps, empties[k], k) {
            ShownLater(earlier, steps, empties[k], k, false);
          }
          empties := empties + [shown];
          l := l + 1;
        }
        return left, true, empties;
      }
    }

    /**
     `wait_for_queue_drain` with the wake-ups that come before its deadline: a first read within the early-return
     threshold is the answer, and otherwise whether the last read is within the target.
    */
    method WaitForQueueDrain(waitForEmpty: bool, minBuffer: nat, maxBuffer: nat, wakeUps: nat, ghost me: Task)
      returns (drained: bool, ghost wait: Wait)
      requires Valid() && !me.scheduler && me.holds == {}
      modifies this
      ensures Valid() && old(steps) <= steps && old(log) <= log && NoNewPush(me.owns, old(locks), locks)
      ensures forall l, own | 0 <= l < LEVELS && own in me.owns :: Accepted(log, l, own) == old(Accepted(log, l, own))
      ensures wait.last == |steps|
      ensures Answered(steps, |old(steps)|, wait, if waitForEmpty then 0 else maxBuffer,
                       if waitForEmpty then 0 else minBuffer, wakeUps, drained)
      ensures drained ==>
                queuedMessageSize <= if waitForEmpty then 0 else if minBuffer < maxBuffer then maxBuffer else minBuffer
      ensures !drained ==> queuedMessageSize > if waitForEmpty then 0 else minBuffer
      ensures !drained ==> WaitFailed(steps, |old(steps)|, if waitForEmpty then 0 else maxBuffer,
                                      if waitForEmpty then 0 else minBuffer)
    {
      hide RunFrom, CounterAbove, CounterWithin, WaitFailed, AllWentOn;
      var others := Interfere(me);
      var threshold, drainTarget := if waitForEmpty then 0 else maxBuffer, if waitForEmpty then 0 else minBuffer;
      ghost var first := steps;
      CounterNow(steps, Now(), threshold);
      if queuedMessageSize <= threshold {
        return true, Wait(|first|, [], |first|);
      }
      ghost var looks;
      drained, looks := AwaitSizes(drainTarget, wakeUps, me);
      CounterStays(first, steps, |first|, threshold);
      CounterNow(steps, Now(), drainTarget);
      wait := Wait(|first|, looks, |steps|);
      if !drained {
        BothAbove(steps, |old(steps)|, |first|, |steps|, threshold, drainTarget);
      }
    }

    /** The loop over the wake-ups, each followed by a read of the counter; one more read at the deadline. */
    method AwaitSizes(drainTarget: nat, wakeUps: nat, ghost me: Task) returns (drained: bool, ghost looks: seq<Look>)
      requires Valid() && !me.scheduler && me.holds == {}
      modifies this
      ensures Valid() && old(steps) <= steps && old(log) <= log && NoNewPush(me.owns, old(locks), locks)
      ensures forall l, own | 0 <= l < LEVELS && own in me.owns :: Accepted(log, l, own) == old(Accepted(log, l, own))
      ensures AllWentOn(steps, |old(steps)|, looks, drainTarget) && |looks| <= wakeUps
      ensures drained <==> queuedMessageSize <= drainTarget
      ensures !drained ==> |looks| == wakeUps
    {
      hide RunFrom, WentOn, AllWentOn;
      looks := [];
      NoLooks(steps, drainTarget);
      var left := wakeUps;
      while left > 0
        invariant Valid() && old(steps) <= steps && old(log) <= log && NoNewPush(me.owns, old(locks), locks)
        invariant forall l, own | 0 <= l < LEVELS && own in me.owns ::
                    Accepted(log, l, own) == old(Accepted(log, l, own))
        invariant AllWentOn(steps, |old(steps)|, looks, drainTarget) && |looks| + left == wakeUps
      {
        ghost var sofar := steps;
        var within;
        ghost var look;
        within, look := AwaitOnce(drainTarget, me);
        if within {
          LooksStay(sofar, |old(steps)|, looks, drainTarget, steps);
          return true, looks;
        }
        OneMoreLook(sofar, |old(steps)|, looks, drainTarget, steps, look);
        looks := looks + [look];
        left := left - 1;
      }
      ghost var sofar, others := steps, [];
      others := Interfere(me);
      LooksStay(sofar, |old(steps)|, looks, drainTarget, steps);
      drained := queuedMessageSize <= drainTarget;
    }

    /** One turn: take the permit, if there is one, and read the counter. */
    method AwaitOnce(drainTarget: nat, ghost me: Task) returns (within: bool, ghost look: Look)
      requires Valid() && !me.scheduler && me.holds == {}
      modifies this
      ensures Valid() && old(steps) <= steps && old(log) <= log && NoNewPush(me.owns, old(locks), locks)
      ensures forall l, own | 0 <= l < LEVELS && own in me.owns :: Accepted(log, l, own) == old(Accepted(log, l, own))
      ensures if within then queuedMessageSize <= drainTarget
              else |old(steps)| <= look.at && WentOn(steps, look, drainTarget)
    {
      hide RunFrom, WentOn;
      ghost var others := Interfere(me);
      look := Asleep(|steps|);
      ghost var s, sofar := Now(), steps;
      if sizePermit {
        sizePermit := false;
        Record(s, AwaitSize);
        ghost var took := steps;
        others := Interfere(me);
        look := Woken(|sofar|, |steps|);
        assert steps[|sofar|] == took[|sofar|];
        within := queuedMessageSize <= drainTarget;
        if !within {
          WokenAbove(steps, Now(), |sofar|, drainTarget);
        }
      } else {
        SleptOn(steps, s, drainTarget);
        within := false;
      }
    }
  }

  lemma NoLooks(steps: seq<Step>, target: int)
    ensures AllWentOn(steps, |steps|, [], target)
  {
  }

  lemma WokenAbove(steps: seq<Step>, s: State, at: nat, target: int)
    requires Run(steps) == Some(s) && at < |steps| && steps[at] == AwaitSize && s.bytes > target
    ensures WentOn(steps, Woken(at, |steps|), target)
  {
    hide Run;
    CounterNow(steps, s, target);
  }

  lemma SleptOn(steps: seq<Step>, s: State, target: int)
    requires Run(steps) == Some(s) && !s.sizePermit
    ensures WentOn(steps, Asleep(|steps|), target)
  {
    hide Run;
    assert steps[..|steps|] == steps;
  }
}
