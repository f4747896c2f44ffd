/**
 A download's transfer state as the program runs it: the chunk handler and the response stream update
 the shared fields in place, and the other side may run between any two accesses.
 */
module DownloadTransfer {
  import opened Wrappers
  import opened Bytes
  import opened DownloadSession
  import opened DownloadStream
  import Wire
  import opened MessageBuffer

  datatype Side = ChunkHandler | ResponseStream

  predicate ByOther(me: Side, step: Step) {
    match me
    case ChunkHandler => !step.Arrive? && !step.HandlerStep?
    case ResponseStream => !step.StreamStep?
  }

  predicate ByOthers(me: Side, steps: seq<Step>) {
    forall i :: 0 <= i < |steps| ==> ByOther(me, steps[i])
  }

  /** What only one side writes. */
  predicate Undisturbed(me: Side, st: State, after: State) {
    match me
    case ChunkHandler =>
      after.handler == st.handler && after.received == st.received && after.arrived == st.arrived
      && (!st.paused ==> !after.paused)
    case ResponseStream =>
      after.stream == st.stream && after.sent == st.sent && after.sentBytes == st.sentBytes
      && after.yielded == st.yielded && after.popped == st.popped && after.fired == st.fired
  }

  lemma StreamLeaves(limits: Limits, st: State, outcome: Outcome)
    requires Enabled(limits, st, StreamStep(outcome))
    ensures Undisturbed(ChunkHandler, st, StreamNext(limits, st, outcome))
  {
  }

  lemma {:induction false} OthersUndisturbed(limits: Limits, me: Side, steps: seq<Step>, st: State,
                                             others: seq<Step>, after: State)
    requires Run(limits, steps) == Some(st) && Run(limits, steps + others) == Some(after) && ByOthers(me, others)
    ensures Undisturbed(me, st, after)
  {
    hide HandlerNext, StreamNext;
    if others == [] {
      assert steps + others == steps;
    } else {
      var front, step := others[..|others|-1], others[|others|-1];
      assert (steps + others)[..|steps + others|-1] == steps + front;
      var before := Run(limits, steps + front).value;
      OthersUndisturbed(limits, me, steps, st, front, before);
      assert ByOther(me, step);
      match step {
        case HandlerStep => HandlerLeaves(limits, before);
        case StreamStep(outcome) => StreamLeaves(limits, before, outcome);
        case _ =>
      }
    }
  }

  lemma RunExtend(limits: Limits, steps: seq<Step>, st: State, step: Step)
    requires Run(limits, steps) == Some(st) && Enabled(limits, st, step)
    ensures Run(limits, steps + [step]) == Some(Apply(limits, st, step))
  {
    assert (steps + [step])[..|steps|] == steps;
  }

  /** Where in a run the handler looked at `client_paused`, and then at `received_bytes` and `sent_bytes`. */
  datatype PauseLook = PauseLook(paused: nat, received: nat, sent: nat)

  /** The step at `p` of a run is an access of the chunk handler, made in this state. */
  ghost predicate HandlerAt(limits: Limits, steps: seq<Step>, p: nat, st: State) {
    p < |steps| && steps[p] == HandlerStep && Run(limits, steps[..p]) == Some(st)
  }

  /** Looking from step `base` on: a PAUSE if and only if none stands and the two counts differ by too much. */
  ghost predicate PauseDecided(limits: Limits, steps: seq<Step>, base: nat, look: PauseLook, pause: bool) {
    exists first: State ::
      && base <= look.paused && HandlerAt(limits, steps, look.paused, first) && first.handler.LoadPaused?
      && if first.paused then !pause else BacklogCompared(limits, steps, look, pause)
  }

  ghost predicate BacklogCompared(limits: Limits, steps: seq<Step>, look: PauseLook, pause: bool) {
    exists second: State, third: State ::
      && look.paused < look.received < look.sent
      && HandlerAt(limits, steps, look.received, second) && second.handler.LoadReceived?
      && HandlerAt(limits, steps, look.sent, third) && third.handler.LoadSent?
      && (pause <==> second.received - third.sentBytes > limits.maxBuffer)
  }

  /** Where the stream looked at `received_bytes`, at `client_paused`, and exchanged the latter. */
  datatype ResumeLook = ResumeLook(received: nat, paused: nat, exchange: nat)

  /**
   Looking from step `base` on: a RESUME if and only if a pause stood, less than the minimum was left, and the
   exchange still found the pause.
  */
  ghost predicate ResumeDecided(limits: Limits, steps: seq<Step>, base: nat, look: ResumeLook, resume: bool) {
    exists first: State ::
      && base <= look.received && StreamAt(limits, steps, look.received, first) && first.stream.LookReceived?
      && PauseFound(limits, steps, look, first.received, resume)
  }

  ghost predicate PauseFound(limits: Limits, steps: seq<Step>, look: ResumeLook, received: nat, resume: bool) {
    exists second: State ::
      && look.received < look.paused && StreamAt(limits, steps, look.paused, second) && second.stream.LookPaused?
      && if second.paused && received - second.sent < limits.minBuffer then Exchanged(limits, steps, look, resume)
         else !resume
  }

  ghost predicate Exchanged(limits: Limits, steps: seq<Step>, look: ResumeLook, resume: bool) {
    exists third: State ::
      && look.paused < look.exchange && StreamAt(limits, steps, look.exchange, third) && third.stream.Exchange?
      && (resume <==> third.paused)
  }

  lemma HandlerAtStays(limits: Limits, steps: seq<Step>, p: nat, st: State, longer: seq<Step>)
    requires HandlerAt(limits, steps, p, st) && steps <= longer
    ensures HandlerAt(limits, longer, p, st)
  {
    assert longer[..p] == steps[..p];
  }

  lemma StreamAtStays(limits: Limits, steps: seq<Step>, p: nat, st: State, longer: seq<Step>)
    requires StreamAt(limits, steps, p, st) && steps <= longer
    ensures StreamAt(limits, longer, p, st)
  {
    assert longer[..p] == steps[..p];
  }

  lemma JustStepped(limits: Limits, steps: seq<Step>, st: State, step: Step)
    requires Run(limits, steps) == Some(st)
    ensures step == HandlerStep ==> HandlerAt(limits, steps + [step], |steps|, st)
    ensures step.StreamStep? ==> StreamAt(limits, steps + [step], |steps|, st)
  {
    hide Run;
    assert (steps + [step])[..|steps|] == steps;
  }

  lemma PauseDecisionStays(limits: Limits, steps: seq<Step>, base: nat, look: PauseLook, pause: bool,
                           longer: seq<Step>, earlier: nat)
    requires PauseDecided(limits, steps, base, look, pause) && steps <= longer && earlier <= base
    ensures PauseDecided(limits, longer, earlier, look, pause)
  {
    hide HandlerAt;
    var first :|
      && base <= look.paused && HandlerAt(limits, steps, look.paused, first) && first.handler.LoadPaused?
      && if first.paused then !pause else BacklogCompared(limits, steps, look, pause);
    HandlerAtStays(limits, steps, look.paused, first, longer);
    if !first.paused {
      ComparisonStays(limits, steps, look, pause, longer);
    }
  }

  lemma ComparisonStays(limits: Limits, steps: seq<Step>, look: PauseLook, pause: bool, longer: seq<Step>)
    requires BacklogCompared(limits, steps, look, pause) && steps <= longer
    ensures BacklogCompared(limits, longer, look, pause)
  {
    hide HandlerAt;
    var second, third :|
      && look.paused < look.received < look.sent
      && HandlerAt(limits, steps, look.received, second) && second.handler.LoadReceived?
      && HandlerAt(limits, steps, look.sent, third) && third.handler.LoadSent?
      && (pause <==> second.received - third.sentBytes > limits.maxBuffer);
    HandlerAtStays(limits, steps, look.received, second, longer);
    HandlerAtStays(limits, steps, look.sent, third, longer);
  }

  lemma ResumeDecisionStays(limits: Limits, steps: seq<Step>, base: nat, look: ResumeLook, resume: bool,
                            longer: seq<Step>, earlier: nat)
    requires ResumeDecided(limits, steps, base, look, resume) && steps <= longer && earlier <= base
    ensures ResumeDecided(limits, longer, earlier, look, resume)
  {
    hide StreamAt, PauseFound;
    var first :|
      && base <= look.received && StreamAt(limits, steps, look.received, first) && first.stream.LookReceived?
      && PauseFound(limits, steps, look, first.received, resume);
    StreamAtStays(limits, steps, look.received, first, longer);
    PauseFoundStays(limits, steps, look, first.received, resume, longer);
  }

  lemma PauseFoundStays(limits: Limits, steps: seq<Step>, look: ResumeLook, received: nat, resume: bool,
                        longer: seq<Step>)
    requires PauseFound(limits, steps, look, received, resume) && steps <= longer
    ensures PauseFound(limits, longer, look, received, resume)
  {
    hide StreamAt, Exchanged;
    var second :|
      && look.received < look.paused && StreamAt(limits, steps, look.paused, second) && second.stream.LookPaused?
      && if second.paused && received - second.sent < limits.minBuffer then Exchanged(limits, steps, look, resume)
         else !resume;
    StreamAtStays(limits, steps, look.paused, second, longer);
    if second.paused && received - second.sent < limits.minBuffer {
      ExchangeStays(limits, steps, look, resume, longer);
    }
  }

  lemma ExchangeStays(limits: Limits, steps: seq<Step>, look: ResumeLook, resume: bool, longer: seq<Step>)
    requires Exchanged(limits, steps, look, resume) && steps <= longer
    ensures Exchanged(limits, longer, look, resume)
  {
    hide StreamAt;
    var third :|
      && look.paused < look.exchange && StreamAt(limits, steps, look.exchange, third) && third.stream.Exchange?
      && (resume <==> third.paused);
    StreamAtStays(limits, steps, look.exchange, third, longer);
  }

  /** One turn of the stream's loop that brought a chunk, and what it decided about a RESUME. */
  datatype Round = Round(check: nat, receive: nat, look: ResumeLook, resumed: bool)

  /**
   The loop's condition held at `check`, no error being flagged; the `recv` at `receive` took a chunk; and a chunk
   that left something to come was followed by the look at the backlog.
  */
  ghost predicate RoundOk(limits: Limits, steps: seq<Step>, base: nat, round: Round) {
    exists first: State, second: State ::
      && base <= round.check < round.receive
      && StreamAt(limits, steps, round.check, first) && first.stream.Top? && !first.error && first.sent < limits.size
      && StreamAt(limits, steps, round.receive, second) && second.stream.Receiving? && second.channel != []
      && steps[round.receive].outcome.Chunk?
      && ResumeDecided(limits, steps, round.receive, round.look, round.resumed)
  }

  /** Different turns of a run from `base` on, in order. */
  ghost predicate Rounds(limits: Limits, steps: seq<Step>, base: nat, rounds: seq<Round>) {
    && (forall i | 0 <= i < |rounds| :: RoundOk(limits, steps, base, rounds[i]))
    && (forall i, j | 0 <= i < j < |rounds| :: rounds[i].receive < rounds[j].check)
    && (forall i | 0 <= i < |rounds| :: rounds[i].receive < |steps|)
  }

  lemma RoundStays(limits: Limits, steps: seq<Step>, base: nat, round: Round, longer: seq<Step>, earlier: nat)
    requires RoundOk(limits, steps, base, round) && steps <= longer && earlier <= base
    ensures RoundOk(limits, longer, earlier, round)
  {
    hide Run, ResumeDecided;
    var first, second :|
      && base <= round.check < round.receive
      && StreamAt(limits, steps, round.check, first) && first.stream.Top? && !first.error && first.sent < limits.size
      && StreamAt(limits, steps, round.receive, second) && second.stream.Receiving? && second.channel != []
      && steps[round.receive].outcome.Chunk?
      && ResumeDecided(limits, steps, round.receive, round.look, round.resumed);
    StreamAtStays(limits, steps, round.check, first, longer);
    StreamAtStays(limits, steps, round.receive, second, longer);
    ResumeDecisionStays(limits, steps, round.receive, round.look, round.resumed, longer, round.receive);
  }

  lemma RoundsStay(limits: Limits, steps: seq<Step>, longer: seq<Step>, base: nat, rounds: seq<Round>)
    requires Rounds(limits, steps, base, rounds) && steps <= longer
    ensures Rounds(limits, longer, base, rounds)
  {
    hide RoundOk;
    forall i | 0 <= i < |rounds| ensures RoundOk(limits, longer, base, rounds[i]) {
      RoundStays(limits, steps, base, rounds[i], longer, base);
    }
  }

  lemma OneMoreRound(limits: Limits, steps: seq<Step>, base: nat, rounds: seq<Round>, longer: seq<Step>, round: Round)
    requires Rounds(limits, steps, base, rounds) && base <= |steps| && steps <= longer
    requires RoundOk(limits, longer, |steps|, round) && |steps| <= round.check && round.receive < |longer|
    ensures Rounds(limits, longer, base, rounds + [round])
  {
    hide RoundOk;
    RoundsStay(limits, steps, longer, base, rounds);
    RoundStays(limits, longer, |steps|, round, longer, base);
  }

  lemma NoRounds(limits: Limits, steps: seq<Step>)
    ensures Rounds(limits, steps, |steps|, [])
  {
  }

  lemma RoundInside(limits: Limits, steps: seq<Step>, base: nat, round: Round)
    requires RoundOk(limits, steps, base, round)
    ensures base <= round.check
  {
    hide StreamAt, ResumeDecided;
  }

  /** A turn from step `base` on that ended the loop: an error or everything out, no chunk, or one that overshot. */
  ghost predicate TurnEnds(limits: Limits, steps: seq<Step>, base: nat, outcome: Outcome) {
    exists p: nat, st: State ::
      && base <= p && StreamAt(limits, steps, p, st)
      && (|| (st.stream.Top? && (st.error || st.sent >= limits.size))
          || (st.stream.Receiving? && !(outcome.Chunk? && st.channel != []))
          || (st.stream.Receiving? && st.channel != [] && st.sent + |st.channel[0]| > limits.size))
  }

  lemma TurnEndStays(limits: Limits, steps: seq<Step>, base: nat, outcome: Outcome, longer: seq<Step>, earlier: nat)
    requires TurnEnds(limits, steps, base, outcome) && steps <= longer && earlier <= base
    ensures TurnEnds(limits, longer, earlier, outcome)
  {
    hide StreamAt;
    var p: nat, st: State :|
      && base <= p && StreamAt(limits, steps, p, st)
      && (|| (st.stream.Top? && (st.error || st.sent >= limits.size))
          || (st.stream.Receiving? && !(outcome.Chunk? && st.channel != []))
          || (st.stream.Receiving? && st.channel != [] && st.sent + |st.channel[0]| > limits.size));
    StreamAtStays(limits, steps, p, st, longer);
  }

  lemma FirstReasonGiven(limits: Limits, steps: seq<Step>, st: State)
    requires Run(limits, steps) == Some(st) && st.fired != []
    ensures ReasonHolds(limits, steps, st.fired[0])
  {
    hide Run, ReasonHolds;
    FirstReasonCause(limits, steps, st);
  }

  class Transfer {
    const limits: Limits
    var receivedBytes: nat
    var sentBytes: nat
    var clientPaused: bool
    var error: bool
    var chunks: seq<Data>             // the chunk channel
    var sent: nat
    var body: Data                    // yielded to the client
    var handler: Handler              // where the two sides are
    var stream: Stream
    var fired: seq<Reason>
    ghost var arrived: Data
    ghost var popped: Data
    ghost var decisions: seq<Decision>
    ghost var steps: seq<Step>        // the run so far

    ghost function Now(): State
      reads this
    {
      State(receivedBytes, sentBytes, clientPaused, error, chunks, handler, stream, sent, arrived, popped, body,
            decisions, fired)
    }

    ghost predicate Valid()
      reads this
    {
      Run(limits, steps) == Some(Now())
    }

    constructor (limits: Limits)
      ensures Valid() && steps == [] && Now() == Init() && this.limits == limits
    {
      this.limits := limits;
      receivedBytes, sentBytes, clientPaused, error, chunks, sent, body := 0, 0, false, false, [], 0, [];
      handler, stream, fired := Waiting, Top, [];
      arrived, popped, decisions, steps := [], [], [], [];
    }

    ghost method Record(before: State, step: Step)
      requires Run(limits, steps) == Some(before) && Enabled(limits, before, step)
      requires Now() == Apply(limits, before, step)
      modifies this`steps
      ensures Valid() && steps == old(steps) + [step]
    {
      RunExtend(limits, steps, before, step);
      steps := steps + [step];
    }

    /** Any number of steps of the other side. The body takes none; callers may assume no more than the contract. */
    method LetOthersRun(ghost me: Side) returns (ghost others: seq<Step>)
      requires Valid()
      modifies this
      ensures Valid() && steps == old(steps) + others && ByOthers(me, others)
    {
      hide Run;
      others := [];
    }

    method Interfere(ghost me: Side)
      requires Valid()
      modifies this
      ensures Valid() && old(steps) <= steps && Undisturbed(me, old(Now()), Now())
    {
      hide Run, Undisturbed;
      ghost var others := LetOthersRun(me);
      OthersUndisturbed(limits, me, old(steps), old(Now()), others, Now());
    }

    // ----- the chunk handler

    /** `received_bytes` is raised first, then the chunk goes into the channel. */
    method ForwardChunk(chunk: Data)
      requires Valid() && handler.Waiting?
      modifies this
      ensures Valid() && old(steps) <= steps && handler == LoadPaused
      ensures arrived == old(arrived) + chunk && receivedBytes == old(receivedBytes) + |chunk|
    {
      hide Run, StreamNext;
      Interfere(ChunkHandler);
      ghost var before := Now();
      receivedBytes := receivedBytes + |chunk|;
      arrived := arrived + chunk;
      handler := Forwarding(chunk);
      Record(before, Arrive(chunk));
      Interfere(ChunkHandler);
      before := Now();
      chunks := chunks + [chunk];
      handler := LoadPaused;
      Record(before, HandlerStep);
    }

    /** Whether a backlog above the limit has built up while not paused. */
    method BacklogTooBig() returns (full: bool, ghost look: PauseLook)
      requires Valid() && handler.LoadPaused?
      modifies this
      ensures Valid() && old(steps) <= steps && handler == if full then StorePause else Waiting
      ensures arrived == old(arrived) && receivedBytes == old(receivedBytes)
      ensures PauseDecided(limits, steps, |old(steps)|, look, full)
      ensures full ==> receivedBytes - sentBytes > limits.maxBuffer
    {
      hide Run, StreamNext, HandlerAt, BacklogCompared;
      Interfere(ChunkHandler);
      ghost var before, sofar := Now(), steps;
      full := !clientPaused;
      handler := if full then LoadReceived else Waiting;
      Record(before, HandlerStep);
      JustStepped(limits, sofar, before, HandlerStep);
      look := PauseLook(|sofar|, 0, 0);
      ghost var looked := steps;
      if full {
        full, look := LoadBacklog(|sofar|);
        HandlerAtStays(limits, looked, |sofar|, before, steps);
      }
    }

    method LoadBacklog(ghost paused: nat) returns (full: bool, ghost look: PauseLook)
      requires Valid() && handler.LoadReceived? && paused < |steps|
      modifies this
      ensures Valid() && old(steps) <= steps && handler == if full then StorePause else Waiting
      ensures arrived == old(arrived) && receivedBytes == old(receivedBytes)
      ensures look.paused == paused && BacklogCompared(limits, steps, look, full)
      ensures full ==> receivedBytes - sentBytes > limits.maxBuffer
    {
      hide Run, StreamNext, HandlerAt;
      Interfere(ChunkHandler);
      ghost var before, first := Now(), steps;
      var received := receivedBytes;
      handler := LoadSent(received);
      Record(before, HandlerStep);
      JustStepped(limits, first, before, HandlerStep);
      ghost var between := steps;
      full := LoadSentBytes(received);
      look := PauseLook(paused, |first|, |steps| - 1);
      HandlerAtStays(limits, between, |first|, before, steps);
    }

    method LoadSentBytes(received: nat) returns (full: bool)
      requires Valid() && handler == LoadSent(received)
      modifies this
      ensures Valid() && old(steps) < steps && handler == if full then StorePause else Waiting
      ensures arrived == old(arrived) && receivedBytes == old(receivedBytes)
      ensures exists st: State :: HandlerAt(limits, steps, |steps| - 1, st) && st.handler.LoadSent?
                && (full <==> received - st.sentBytes > limits.maxBuffer)
      ensures full ==> received - sentBytes > limits.maxBuffer
    {
      hide Run, StreamNext, HandlerAt;
      Interfere(ChunkHandler);
      ghost var before, sofar := Now(), steps;
      full := SaturatingSub(received, sentBytes) > limits.maxBuffer;
      handler := if full then StorePause else Waiting;
      Record(before, HandlerStep);
      JustStepped(limits, sofar, before, HandlerStep);
    }

    /** A chunk that arrived whole; the result says whether a PAUSE was sent. */
    method AcceptChunk(chunk: Data) returns (pause: bool, ghost look: PauseLook)
      requires Valid() && handler.Waiting?
      modifies this
      ensures Valid() && old(steps) <= steps && handler.Waiting?
      ensures arrived == old(arrived) + chunk && receivedBytes == old(receivedBytes) + |chunk|
      ensures PauseDecided(limits, steps, |old(steps)|, look, pause)
      ensures pause ==> clientPaused && decisions != [] && decisions[|decisions|-1] == Pause
    {
      hide Run, StreamNext, PauseDecided;
      ForwardChunk(chunk);
      ghost var forwarded := steps;
      pause, look := BacklogTooBig();
      ghost var decided := steps;
      if pause {
        Interfere(ChunkHandler);
        ghost var before := Now();
        clientPaused := true;
        decisions := decisions + [Pause];
        handler := Waiting;
        Record(before, HandlerStep);
      }
      PauseDecisionStays(limits, decided, |forwarded|, look, pause, steps, |old(steps)|);
    }

    /** An error is flagged, and nothing else of the account changes. */
    method RecordError()
      requires Valid()
      modifies this
      ensures Valid() && old(steps) <= steps && error && handler == old(handler)
      ensures arrived == old(arrived) && receivedBytes == old(receivedBytes)
    {
      hide Run, StreamNext, HandlerNext;
      ghost var before := Now();
      error := true;
      Record(before, DownloadStream.RaiseError);
    }

    /**
     `handle_file_chunk` on a message: a chunk whose length prefix claims more than is left is an error and
     forwards nothing; any other is counted and forwarded, whatever the stream does meanwhile, and answered with a
     PAUSE exactly if none stands and the backlog looked at is above the limit.
    */
    method HandleFileChunk(msg: Message) returns (pause: bool, ghost look: PauseLook)
      requires Valid() && handler.Waiting? && msg.Valid()
      modifies this, msg`index
      ensures Valid() && old(steps) <= steps && handler.Waiting? && msg.Valid()
      ensures var chunk := Wire.TryPopBytes(msg.data, old(msg.index)).0;
        if chunk.None? then error && !pause && arrived == old(arrived) && receivedBytes == old(receivedBytes)
        else
          && arrived == old(arrived) + chunk.value && receivedBytes == old(receivedBytes) + |chunk.value|
          && PauseDecided(limits, steps, |old(steps)|, look, pause)
      ensures pause ==> clientPaused && decisions != [] && decisions[|decisions|-1] == Pause
    {
      hide Run, Wire.TryPopBytes, PauseDecided;
      var chunk := msg.TryPopBytes();
      if chunk.None? {
        RecordError();
        return false, PauseLook(0, 0, 0);
      }
      pause, look := AcceptChunk(chunk.value);
    }

    // ----- the response stream

    /** Write down an access of the stream; it is the last step of the run now. */
    ghost method RecordStream(before: State, outcome: Outcome)
      requires Run(limits, steps) == Some(before) && Enabled(limits, before, StreamStep(outcome))
      requires Now() == Apply(limits, before, StreamStep(outcome))
      modifies this`steps
      ensures Valid() && steps == old(steps) + [StreamStep(outcome)]
      ensures StreamAt(limits, steps, |steps| - 1, before)
    {
      hide Run, Enabled, Apply, StreamAt;
      JustStepped(limits, steps, before, StreamStep(outcome));
      Record(before, StreamStep(outcome));
    }

    /** A chunk out of the channel; one that overshoots the declared size is cut and is the last. */
    method TakeChunk() returns (ghost seen: State)
      requires Valid() && stream.Receiving? && chunks != []
      modifies this
      ensures Valid() && old(steps) < steps && stream.StoreSent?
      ensures StreamAt(limits, steps, |steps| - 1, seen) && seen.stream.Receiving? && seen.channel != []
      ensures steps[|steps| - 1].outcome.Chunk?
      ensures stream.last <==> seen.sent + |seen.channel[0]| > limits.size
    {
      hide Run, HandlerNext, StreamAt;
      seen := Now();
      var chunk := chunks[0];
      chunks := chunks[1..];
      popped := popped + chunk;
      var last := sent + |chunk| > limits.size;
      if last {
        chunk := if limits.size < sent then [] else chunk[..limits.size - sent];
      }
      sent := sent + |chunk|;
      stream := StoreSent(chunk, last);
      RecordStream(seen, Chunk);
    }

    /** A `recv` that ran out of time or found the channel closed. */
    method GiveUp(closed: bool)
      requires Valid() && stream.Receiving? && (closed ==> chunks == [])
      modifies this
      ensures Valid() && steps == old(steps) + [StreamStep(if closed then ChannelClosed else TimedOut)]
      ensures stream.AfterLoop? && StreamAt(limits, steps, |old(steps)|, old(Now()))
    {
      hide Run, HandlerNext, StreamAt;
      ghost var before := Now();
      fired := fired + [if closed && sent == limits.size then Complete else ChunkTimeout];
      stream := AfterLoop;
      RecordStream(before, if closed then ChannelClosed else TimedOut);
    }

    /** The timed `recv` and the local count. */
    method Receive(outcome: Outcome) returns (ghost seen: State)
      requires Valid() && stream.Receiving?
      modifies this
      ensures Valid() && old(steps) < steps && (stream.StoreSent? || stream.AfterLoop?)
      ensures StreamAt(limits, steps, |steps| - 1, seen) && seen.stream.Receiving?
      ensures stream.StoreSent? <==> outcome.Chunk? && seen.channel != []
      ensures stream.StoreSent? ==>
        steps[|steps| - 1].outcome.Chunk? && (stream.last <==> seen.sent + |seen.channel[0]| > limits.size)
    {
      hide Run, HandlerNext, StreamAt;
      Interfere(ResponseStream);
      seen := Now();
      // With a chunk in the channel `recv` cannot report that it is closed.
      if outcome.Chunk? && chunks != [] {
        seen := TakeChunk();
      } else {
        GiveUp(outcome.ChannelClosed? && chunks == []);
      }
    }

    /** `sent_bytes` is stored before the backlog is looked at. */
    method StoreProgress()
      requires Valid() && stream.StoreSent?
      modifies this
      ensures Valid() && old(steps) <= steps
      ensures stream == if old(stream).last then FireLast(old(stream).chunk) else LookReceived(old(stream).chunk)
    {
      hide Run, HandlerNext, StreamAt;
      Interfere(ResponseStream);
      ghost var before := Now();
      var StoreSent(chunk, last) := stream;
      sentBytes := sent;
      stream := if last then FireLast(chunk) else LookReceived(chunk);
      RecordStream(before, Chunk);
    }

    /** The backlog is looked at; a RESUME is sent by whoever turns `client_paused` back to false. */
    method MaybeResume() returns (resume: bool, ghost look: ResumeLook)
      requires Valid() && stream.LookReceived?
      modifies this
      ensures Valid() && old(steps) <= steps && stream == FireFull(old(stream).chunk)
      ensures ResumeDecided(limits, steps, |old(steps)|, look, resume)
      ensures resume ==> !clientPaused && decisions != [] && decisions[|decisions|-1] == Resume
    {
      hide Run, HandlerNext, StreamAt, PauseFound;
      Interfere(ResponseStream);
      ghost var before, sofar := Now(), steps;
      stream := LookPaused(stream.chunk, receivedBytes);
      RecordStream(before, Chunk);
      ghost var looked := steps;
      resume, look := LookForPause(|sofar|);
      StreamAtStays(limits, looked, |sofar|, before, steps);
    }

    method LookForPause(ghost at: nat) returns (resume: bool, ghost look: ResumeLook)
      requires Valid() && stream.LookPaused? && at < |steps|
      modifies this
      ensures Valid() && old(steps) <= steps && stream == FireFull(old(stream).chunk)
      ensures look.received == at && PauseFound(limits, steps, look, old(stream).received, resume)
      ensures resume ==> !clientPaused && decisions != [] && decisions[|decisions|-1] == Resume
    {
      hide Run, HandlerNext, StreamAt, Exchanged;
      Interfere(ResponseStream);
      ghost var before, sofar := Now(), steps;
      var LookPaused(chunk, received) := stream;
      NothingBelowZero(before);
      resume := clientPaused && SaturatingSub(received, sent) < limits.minBuffer;
      stream := if resume then Exchange(chunk) else FireFull(chunk);
      RecordStream(before, Chunk);
      look := ResumeLook(at, |sofar|, 0);
      ghost var looked := steps;
      if resume {
        resume, look := SwapPaused(at, |sofar|);
        StreamAtStays(limits, looked, |sofar|, before, steps);
      }
    }

    /** The stream has not consumed more than it has found counted as received. */
    lemma NothingBelowZero(st: State)
      requires Run(limits, steps) == Some(st) && st.stream.LookPaused?
      ensures SaturatingSub(st.stream.received, st.sent) == st.stream.received - st.sent
    {
      hide Run;
      BackpressureExact(limits, steps, st);
    }

    /** The exchange of `client_paused` for false; the RESUME belongs to the side that found it true. */
    method SwapPaused(ghost received: nat, ghost paused: nat) returns (resume: bool, ghost look: ResumeLook)
      requires Valid() && stream.Exchange? && paused < |steps|
      modifies this
      ensures Valid() && old(steps) <= steps && stream == FireFull(old(stream).chunk)
      ensures look.received == received && look.paused == paused && Exchanged(limits, steps, look, resume)
      ensures resume ==> !clientPaused && decisions != [] && decisions[|decisions|-1] == Resume
    {
      hide Run, HandlerNext, StreamAt;
      Interfere(ResponseStream);
      ghost var before := Now();
      look := ResumeLook(received, paused, |steps|);
      resume := clientPaused;
      if resume {
        clientPaused := false;
        decisions := decisions + [Resume];
      }
      stream := FireFull(stream.chunk);
      RecordStream(before, Chunk);
    }

    method FireIfComplete()
      requires Valid() && (stream.FireLast? || stream.FireFull?)
      modifies this
      ensures Valid() && old(steps) <= steps && stream == Yielding(old(stream).chunk, old(stream).FireLast?)
    {
      hide Run, HandlerNext, StreamAt;
      Interfere(ResponseStream);
      ghost var before := Now();
      var last := stream.FireLast?;
      if last || sent == limits.size {
        fired := fired + [Complete];
      }
      stream := Yielding(stream.chunk, last);
      RecordStream(before, Chunk);
    }

    method YieldChunk()
      requires Valid() && stream.Yielding?
      modifies this
      ensures Valid() && old(steps) <= steps && stream == if old(stream).last then AfterLoop else Top
    {
      hide Run, HandlerNext, StreamAt;
      Interfere(ResponseStream);
      ghost var before := Now();
      body := body + stream.chunk;
      stream := if stream.last then AfterLoop else Top;
      RecordStream(before, Chunk);
    }

    method CheckLoop() returns (more: bool, ghost seen: State)
      requires Valid() && stream.Top?
      modifies this
      ensures Valid() && old(steps) < steps && stream == if more then Receiving else AfterLoop
      ensures StreamAt(limits, steps, |steps| - 1, seen) && seen.stream.Top?
      ensures more <==> seen.sent < limits.size && !seen.error
    {
      hide Run, HandlerNext, StreamAt;
      Interfere(ResponseStream);
      seen := Now();
      more := sent < limits.size && !error;
      stream := if more then Receiving else AfterLoop;
      RecordStream(seen, Chunk);
    }

    method Finish()
      requires Valid() && stream.AfterLoop?
      modifies this
      ensures Valid() && old(steps) <= steps && stream.Done?
    {
      hide Run, HandlerNext, StreamAt;
      Interfere(ResponseStream);
      ghost var before := Now();
      if sent < limits.size {
        fired := fired + [FileError];
      }
      stream := Done;
      RecordStream(before, Chunk);
    }

    /** A chunk in hand goes to the client. */
    method Deliver() returns (resumed: bool, ghost look: ResumeLook)
      requires Valid() && stream.StoreSent?
      modifies this
      ensures Valid() && old(steps) <= steps && stream == if old(stream).last then AfterLoop else Top
      ensures !old(stream).last ==> ResumeDecided(limits, steps, |old(steps)|, look, resumed)
    {
      hide Run, ResumeDecided;
      StoreProgress();
      resumed, look := false, ResumeLook(0, 0, 0);
      ghost var stored, decided := steps, steps;
      var last := stream.FireLast?;
      if !last {
        resumed, look := MaybeResume();
        decided := steps;
      }
      FireIfComplete();
      YieldChunk();
      if !last {
        ResumeDecisionStays(limits, decided, |stored|, look, resumed, steps, |old(steps)|);
      }
    }

    /** One turn of the stream's loop: it goes on with a chunk received and given to the client, or ends. */
    method Turn(outcome: Outcome) returns (ghost round: Round)
      requires Valid() && stream.Top?
      modifies this
      ensures Valid() && old(steps) <= steps && (stream.Top? || stream.AfterLoop?)
      ensures if stream.Top? then RoundOk(limits, steps, |old(steps)|, round) && round.receive < |steps|
              else TurnEnds(limits, steps, |old(steps)|, outcome)
    {
      hide Run, StreamAt, ResumeDecided;
      var more;
      ghost var first, second;
      more, first := CheckLoop();
      ghost var checked := steps;
      round := Round(|checked| - 1, 0, ResumeLook(0, 0, 0), false);
      if more {
        second := Receive(outcome);
        ghost var received := steps;
        if stream.StoreSent? {
          ghost var last := stream.last;
          var resumed;
          ghost var look;
          resumed, look := Deliver();
          StreamAtStays(limits, received, |received| - 1, second, steps);
          StreamAtStays(limits, checked, |checked| - 1, first, steps);
          assert steps[|received| - 1] == received[|received| - 1];
          round := Round(|checked| - 1, |received| - 1, look, resumed);
          if !last {
            ResumeDecisionStays(limits, steps, |received|, look, resumed, steps, |received| - 1);
          }
        }
      }
    }

    /**
     The response stream over the outcomes of its timed `recv`s. What the client has is a prefix of what arrived,
     within the declared size. The loop ends with the first turn that finds an error flagged or everything out,
     brings no chunk, or brings too much; otherwise running out of outcomes is the client going away. For a
     non-empty file that ran to its end the first reason is `Complete` exactly if all of it was delivered, and any
     other is the cause the run shows.
    */
    method StreamBody(outcomes: seq<Outcome>) returns (ended: bool, ghost rounds: seq<Round>)
      requires Valid() && stream.Top?
      modifies this
      ensures Valid() && body <= arrived && |body| <= limits.size && sentBytes == |body|
      ensures old(steps) <= steps && Rounds(limits, steps, |old(steps)|, rounds)
      ensures if ended then stream.Done? else stream.Top? && |rounds| == |outcomes|
      ensures ended ==> |rounds| < |outcomes| && TurnEnds(limits, steps, |old(steps)|, outcomes[|rounds|])
      ensures ended && limits.size > 0 ==>
        && fired != [] && (fired[0] == Complete <==> |body| == limits.size)
        && ReasonHolds(limits, steps, fired[0])
    {
      hide Run, RoundOk, Rounds, TurnEnds, ReasonHolds, Apply, Enabled, StreamAt;
      var i := 0;
      rounds := [];
      NoRounds(limits, steps);
      while i < |outcomes| && stream.Top?
        invariant Valid() && old(steps) <= steps && (stream.Top? || stream.AfterLoop?)
        invariant |rounds| <= i <= |outcomes| && Rounds(limits, steps, |old(steps)|, rounds)
        invariant if stream.Top? then |rounds| == i
                  else |rounds| == i - 1 && TurnEnds(limits, steps, |old(steps)|, outcomes[|rounds|])
        decreases |outcomes| - i
      {
        ghost var sofar := steps;
        ghost var round := Turn(outcomes[i]);
        if stream.Top? {
          RoundInside(limits, steps, |sofar|, round);
          OneMoreRound(limits, sofar, |old(steps)|, rounds, steps, round);
          rounds := rounds + [round];
        } else {
          RoundsStay(limits, sofar, steps, |old(steps)|, rounds);
          TurnEndStays(limits, steps, |sofar|, outcomes[i], steps, |old(steps)|);
        }
        i := i + 1;
      }
      ended := stream.AfterLoop?;
      if ended {
        ghost var sofar := steps;
        Finish();
        RoundsStay(limits, sofar, steps, |old(steps)|, rounds);
        TurnEndStays(limits, sofar, |old(steps)|, outcomes[|rounds|], steps, |old(steps)|);
        if limits.size > 0 {
          FirstReason(limits, steps, Now());
          FirstReasonGiven(limits, steps, Now());
        }
      }
      StreamIsPrefix(limits, steps, Now());
    }
  }
}
