/**
 The byte stream of one download and its backpressure: the chunk handler of the WebSocket side and
 the response stream of the HTTP side, one step per access to an atomic or to the chunk channel,
 interleaved freely.
 */
module DownloadStream {
  import opened Wrappers
  import opened Bytes
  import opened DownloadSession

  datatype Decision = Pause | Resume

  /** What the stream's timed `recv` returns. */
  datatype Outcome = Chunk | ChannelClosed | TimedOut

  /** Where the chunk handler is; a connection's messages are handled one after the other. */
  datatype Handler =
    | Waiting
    | Forwarding(chunk: Data)        // counted, not yet in the channel
    | LoadPaused
    | LoadReceived
    | LoadSent(received: nat)
    | StorePause

  /** Where the response stream is. */
  datatype Stream =
    | Top                            // the loop's condition
    | Receiving
    | StoreSent(chunk: Data, last: bool)
    | FireLast(chunk: Data)
    | LookReceived(chunk: Data)
    | LookPaused(chunk: Data, received: nat)
    | Exchange(chunk: Data)
    | FireFull(chunk: Data)
    | Yielding(chunk: Data, last: bool)
    | AfterLoop
    | Done

  datatype Limits = Limits(size: nat, minBuffer: nat, maxBuffer: nat)

  datatype State = State(
    received: nat,            // received_bytes
    sentBytes: nat,           // sent_bytes
    paused: bool,             // client_paused
    error: bool,
    channel: seq<Data>,
    handler: Handler,
    stream: Stream,
    sent: nat,                // the stream's own count
    arrived: Data,            // history: bytes counted, bytes taken from the channel, bytes yielded
    popped: Data,
    yielded: Data,
    decisions: seq<Decision>, // history: pause and resume decisions
    fired: seq<Reason>        // history: reasons the stream triggered
  )

  datatype Step =
    | Arrive(chunk: Data)
    | HandlerStep
    | StreamStep(outcome: Outcome)
    | RaiseError

  function Init(): State {
    State(0, 0, false, false, [], Waiting, Top, 0, [], [], [], [], [])
  }

  /** Rust's `saturating_sub`. */
  function SaturatingSub(a: nat, b: nat): nat {
    if a < b then 0 else a - b
  }

  predicate Enabled(limits: Limits, st: State, step: Step) {
    match step
    case Arrive(_) => st.handler.Waiting?
    case HandlerStep => !st.handler.Waiting?
    case StreamStep(outcome) =>
      && !st.stream.Done?
      && (st.stream.Receiving? ==>
            (outcome.Chunk? ==> st.channel != []) && (outcome.ChannelClosed? ==> st.channel == []))
    case RaiseError => true
  }

  function Apply(limits: Limits, st: State, step: Step): State
    requires Enabled(limits, st, step)
  {
    match step
    case Arrive(chunk) =>
      st.(received := st.received + |chunk|, arrived := st.arrived + chunk, handler := Forwarding(chunk))
    case HandlerStep => HandlerNext(limits, st)
    case StreamStep(outcome) => StreamNext(limits, st, outcome)
    case RaiseError => st.(error := true)
  }

  function HandlerNext(limits: Limits, st: State): State
    requires !st.handler.Waiting?
  {
    match st.handler
    case Forwarding(chunk) => st.(channel := st.channel + [chunk], handler := LoadPaused)
    case LoadPaused => st.(handler := if st.paused then Waiting else LoadReceived)
    case LoadReceived => st.(handler := LoadSent(st.received))
    case LoadSent(received) =>
      st.(handler := if SaturatingSub(received, st.sentBytes) > limits.maxBuffer then StorePause else Waiting)
    case StorePause => st.(paused := true, decisions := st.decisions + [Pause], handler := Waiting)
  }

  function Fire(st: State, reason: Reason): State {
    st.(fired := st.fired + [reason])
  }

  function StreamNext(limits: Limits, st: State, outcome: Outcome): State
    requires Enabled(limits, st, StreamStep(outcome))
  {
    match st.stream
    case Top => st.(stream := if st.sent < limits.size && !st.error then Receiving else AfterLoop)
    case Receiving => ReceiveNext(limits, st, outcome)
    case StoreSent(chunk, last) =>
      st.(sentBytes := st.sent, stream := if last then FireLast(chunk) else LookReceived(chunk))
    case FireLast(chunk) => Fire(st, Complete).(stream := Yielding(chunk, true))
    case LookReceived(chunk) => st.(stream := LookPaused(chunk, st.received))
    case LookPaused(chunk, received) =>
      st.(stream := if st.paused && SaturatingSub(received, st.sent) < limits.minBuffer then Exchange(chunk)
                    else FireFull(chunk))
    case Exchange(chunk) =>
      if st.paused then st.(paused := false, decisions := st.decisions + [Resume], stream := FireFull(chunk))
      else st.(stream := FireFull(chunk))
    case FireFull(chunk) =>
      (if st.sent == limits.size then Fire(st, Complete) else st).(stream := Yielding(chunk, false))
    case Yielding(chunk, last) => st.(yielded := st.yielded + chunk, stream := if last then AfterLoop else Top)
    case AfterLoop => (if st.sent < limits.size then Fire(st, FileError) else st).(stream := Done)
  }

  /** A chunk that overshoots the declared size is cut to what remains. */
  function ReceiveNext(limits: Limits, st: State, outcome: Outcome): State
    requires Enabled(limits, st, StreamStep(outcome)) && st.stream.Receiving?
  {
    match outcome
    case Chunk =>
      var chunk := st.channel[0];
      var next := st.(channel := st.channel[1..], popped := st.popped + chunk);
      if st.sent + |chunk| > limits.size then
        var cut := if limits.size < st.sent then [] else chunk[..limits.size - st.sent];
        next.(sent := st.sent + |cut|, stream := StoreSent(cut, true))
      else next.(sent := st.sent + |chunk|, stream := StoreSent(chunk, false))
    case ChannelClosed =>
      Fire(st, if st.sent == limits.size then Complete else ChunkTimeout).(stream := AfterLoop)
    case TimedOut => Fire(st, ChunkTimeout).(stream := AfterLoop)
  }

  function Run(limits: Limits, steps: seq<Step>): Option<State> {
    if steps == [] then Some(Init())
    else
      match Run(limits, steps[..|steps|-1])
      case None => None
      case Some(before) =>
        if Enabled(limits, before, steps[|steps|-1]) then Some(Apply(limits, before, steps[|steps|-1])) else None
  }

  // ----- the invariant

  ghost function Flatten(chunks: seq<Data>): Data {
    if chunks == [] then [] else chunks[0] + Flatten(chunks[1..])
  }

  lemma {:induction false} FlattenAppend(chunks: seq<Data>, chunk: Data)
    ensures Flatten(chunks + [chunk]) == Flatten(chunks) + chunk
  {
    if chunks == [] {
      assert Flatten([chunk]) == chunk + Flatten([]);
    } else {
      assert (chunks + [chunk])[1..] == chunks[1..] + [chunk];
      FlattenAppend(chunks[1..], chunk);
    }
  }

  /** The chunk the handler has counted but not forwarded. */
  function Forwarded(handler: Handler): Data {
    if handler.Forwarding? then handler.chunk else []
  }

  /** The chunk the stream has counted but not yielded. */
  function InFlight(stream: Stream): Data {
    if stream.Top? || stream.Receiving? || stream.AfterLoop? || stream.Done? then [] else stream.chunk
  }

  /** No byte is lost, repeated or reordered between the socket and the stream. */
  ghost predicate ArrivedOk(st: State) {
    && st.received == |st.arrived|
    && st.arrived == st.popped + (Flatten(st.channel) + Forwarded(st.handler))
  }

  /** Nor between the stream and the client, up to the declared size. */
  predicate OutOk(size: nat, sent: nat, sentBytes: nat, stream: Stream, yielded: Data, popped: Data) {
    var out := yielded + InFlight(stream);
    && sent == |out| <= size
    && out <= popped
    && (sent < size ==> out == popped)
    && sentBytes == (if stream.StoreSent? then |yielded| else sent)
  }

  predicate Alternates(decisions: seq<Decision>) {
    && (decisions != [] ==> decisions[0] == Pause)
    && (forall i :: 0 < i < |decisions| ==> decisions[i] != decisions[i-1])
  }

  predicate PauseOk(decisions: seq<Decision>, paused: bool) {
    Alternates(decisions) && paused == (decisions != [] && decisions[|decisions|-1] == Pause)
  }

  /** What either side has loaded is still good for its subtraction. */
  predicate LoadsOk(handler: Handler, stream: Stream, paused: bool, received: nat, sent: nat) {
    && (handler.LoadReceived? || handler.LoadSent? || handler.StorePause? ==> !paused)
    && (handler.LoadSent? ==> handler.received == received)
    && (stream.LookPaused? ==> sent <= stream.received <= received)
  }

  predicate Holding(stream: Stream) {
    || stream.StoreSent? || stream.FireLast? || stream.LookReceived? || stream.LookPaused?
    || stream.Exchange? || stream.FireFull?
  }

  /** `Complete` has been fired only once everything is out or about to be. */
  predicate FiredOk(size: nat, sent: nat, stream: Stream, out: nat, fired: seq<Reason>) {
    && (stream.Receiving? ==> sent < size)
    && (Holding(stream) ==> out < size && fired == [])
    && ((stream.StoreSent? || stream.Yielding?) && stream.last ==> sent == size)
    && (stream.FireLast? ==> sent == size)
    && (fired == [] ==>
          && (stream.Done? ==> size == 0)
          && (stream.AfterLoop? || stream.Top? || stream.Yielding? ==> sent < size || size == 0))
    && (fired != [] ==> (fired[0] == Complete <==> sent == size))
    && (fired != [] && sent < size ==> stream.AfterLoop? || stream.Done?)
    && (size == 0 ==> fired == [] && (stream.Top? || stream.AfterLoop? || stream.Done?))
  }

  /** No pause has been decided before more than the limit had arrived. */
  predicate PauseEarned(maxBuffer: nat, handler: Handler, decisions: seq<Decision>, received: nat) {
    decisions != [] || handler.StorePause? ==> received > maxBuffer
  }

  ghost predicate Inv(limits: Limits, st: State) {
    && ArrivedOk(st)
    && PauseEarned(limits.maxBuffer, st.handler, st.decisions, st.received)
    && OutOk(limits.size, st.sent, st.sentBytes, st.stream, st.yielded, st.popped)
    && PauseOk(st.decisions, st.paused)
    && LoadsOk(st.handler, st.stream, st.paused, st.received, st.sent)
    && FiredOk(limits.size, st.sent, st.stream, |st.yielded|, st.fired)
  }

  lemma Consumed(limits: Limits, st: State)
    requires Inv(limits, st)
    ensures |st.yielded| <= st.sent <= st.received && st.sent <= limits.size
    ensures st.stream.Receiving? ==> |st.yielded| == st.sent
    ensures st.sentBytes <= st.sent
    ensures st.stream.Yielding? && st.sent == limits.size ==> |st.yielded + st.stream.chunk| == limits.size
    ensures st.stream.Yielding? ==> |st.yielded + st.stream.chunk| == st.sent
  {
    hide PauseOk, LoadsOk, FiredOk, PauseEarned;
  }

  lemma AlternatesAppend(decisions: seq<Decision>, decision: Decision)
    requires Alternates(decisions)
    requires if decisions == [] then decision == Pause else decision != decisions[|decisions|-1]
    ensures Alternates(decisions + [decision])
  {
  }

  lemma HandlerKeepsArrived(limits: Limits, st: State)
    requires ArrivedOk(st) && !st.handler.Waiting?
    ensures ArrivedOk(HandlerNext(limits, st))
  {
    hide Flatten;
    if st.handler.Forwarding? {
      FlattenAppend(st.channel, st.handler.chunk);
      assert (Flatten(st.channel) + st.handler.chunk) + [] == Flatten(st.channel) + st.handler.chunk;
    }
  }

  lemma HandlerLeaves(limits: Limits, st: State)
    requires !st.handler.Waiting?
    ensures var next := HandlerNext(limits, st);
      && next.sent == st.sent && next.sentBytes == st.sentBytes && next.stream == st.stream
      && next.yielded == st.yielded && next.popped == st.popped && next.fired == st.fired
  {
  }

  lemma HandlerKeepsPause(limits: Limits, st: State)
    requires PauseOk(st.decisions, st.paused) && LoadsOk(st.handler, st.stream, st.paused, st.received, st.sent)
    requires PauseEarned(limits.maxBuffer, st.handler, st.decisions, st.received)
    requires !st.handler.Waiting?
    ensures var next := HandlerNext(limits, st);
      && PauseEarned(limits.maxBuffer, next.handler, next.decisions, next.received)
      && PauseOk(next.decisions, next.paused)
      && LoadsOk(next.handler, next.stream, next.paused, next.received, next.sent)
  {
    if st.handler.StorePause? {
      AlternatesAppend(st.decisions, Pause);
    }
    hide Alternates;
  }

  lemma HandlerKeeps(limits: Limits, st: State)
    requires Inv(limits, st) && !st.handler.Waiting?
    ensures Inv(limits, HandlerNext(limits, st))
  {
    hide ArrivedOk, OutOk, PauseOk, LoadsOk, FiredOk, PauseEarned, HandlerNext;
    HandlerKeepsArrived(limits, st);
    HandlerKeepsPause(limits, st);
    HandlerLeaves(limits, st);
  }

  lemma ReceiveKeepsArrived(limits: Limits, st: State, outcome: Outcome)
    requires ArrivedOk(st) && Enabled(limits, st, StreamStep(outcome)) && st.stream.Receiving?
    ensures ArrivedOk(ReceiveNext(limits, st, outcome))
  {
    if outcome.Chunk? {
      var chunk := st.channel[0];
      var rest, forwarded := Flatten(st.channel[1..]), Forwarded(st.handler);
      assert Flatten(st.channel) == chunk + rest;
      hide Flatten;
      assert st.popped + ((chunk + rest) + forwarded) == (st.popped + chunk) + (rest + forwarded);
    }
  }

  lemma ReceiveKeepsOut(limits: Limits, st: State, outcome: Outcome)
    requires OutOk(limits.size, st.sent, st.sentBytes, st.stream, st.yielded, st.popped)
    requires Enabled(limits, st, StreamStep(outcome)) && st.stream.Receiving? && st.sent < limits.size
    ensures var next := ReceiveNext(limits, st, outcome);
      OutOk(limits.size, next.sent, next.sentBytes, next.stream, next.yielded, next.popped)
  {
    assert st.yielded + [] == st.yielded;
  }

  lemma ReceiveKeeps(limits: Limits, st: State, outcome: Outcome)
    requires Inv(limits, st) && Enabled(limits, st, StreamStep(outcome)) && st.stream.Receiving?
    ensures Inv(limits, ReceiveNext(limits, st, outcome))
  {
    Consumed(limits, st);
    ReceiveKeepsArrived(limits, st, outcome);
    ReceiveKeepsOut(limits, st, outcome);
    hide ArrivedOk, OutOk, PauseOk;
  }

  lemma StreamKeepsOut(limits: Limits, st: State, outcome: Outcome)
    requires OutOk(limits.size, st.sent, st.sentBytes, st.stream, st.yielded, st.popped)
    requires Enabled(limits, st, StreamStep(outcome)) && !st.stream.Receiving?
    ensures var next := StreamNext(limits, st, outcome);
      OutOk(limits.size, next.sent, next.sentBytes, next.stream, next.yielded, next.popped)
  {
    StreamMovesOut(limits, st, outcome);
    hide StreamNext;
  }

  /** Away from `Receiving`, what is out or about to be does not change. */
  lemma StreamMovesOut(limits: Limits, st: State, outcome: Outcome)
    requires Enabled(limits, st, StreamStep(outcome)) && !st.stream.Receiving?
    ensures var next := StreamNext(limits, st, outcome);
      && next.yielded + InFlight(next.stream) == st.yielded + InFlight(st.stream)
      && next.sent == st.sent && next.popped == st.popped && !next.stream.StoreSent?
      && next.sentBytes == if st.stream.StoreSent? then st.sent else st.sentBytes
  {
    if st.stream.Yielding? {
      assert (st.yielded + st.stream.chunk) + [] == st.yielded + st.stream.chunk;
    }
  }

  /** Only what is still to be yielded decides whether all of it is out. */
  lemma StreamKeepsFired(limits: Limits, st: State, outcome: Outcome)
    requires FiredOk(limits.size, st.sent, st.stream, |st.yielded|, st.fired)
    requires st.stream.Yielding? ==> |st.yielded + st.stream.chunk| == st.sent
    requires Enabled(limits, st, StreamStep(outcome)) && !st.stream.Receiving? && st.sent <= limits.size
    ensures var next := StreamNext(limits, st, outcome);
      FiredOk(limits.size, next.sent, next.stream, |next.yielded|, next.fired)
  {
  }

  lemma StreamKeepsPause(limits: Limits, st: State, outcome: Outcome)
    requires PauseOk(st.decisions, st.paused) && LoadsOk(st.handler, st.stream, st.paused, st.received, st.sent)
    requires PauseEarned(limits.maxBuffer, st.handler, st.decisions, st.received)
    requires Enabled(limits, st, StreamStep(outcome)) && !st.stream.Receiving? && st.sent <= st.received
    ensures var next := StreamNext(limits, st, outcome);
      && PauseEarned(limits.maxBuffer, next.handler, next.decisions, next.received)
      && PauseOk(next.decisions, next.paused)
      && LoadsOk(next.handler, next.stream, next.paused, next.received, next.sent)
  {
    if st.stream.Exchange? && st.paused {
      AlternatesAppend(st.decisions, Resume);
    }
    hide Alternates;
  }

  lemma StreamKeeps(limits: Limits, st: State, outcome: Outcome)
    requires Inv(limits, st) && Enabled(limits, st, StreamStep(outcome))
    ensures Inv(limits, StreamNext(limits, st, outcome))
  {
    if st.stream.Receiving? {
      ReceiveKeeps(limits, st, outcome);
    } else {
      Consumed(limits, st);
      StreamKeepsOut(limits, st, outcome);
      StreamKeepsPause(limits, st, outcome);
      StreamKeepsFired(limits, st, outcome);
      StreamKeepsArrived(limits, st, outcome);
      hide ArrivedOk, OutOk, PauseOk, LoadsOk, FiredOk, PauseEarned, StreamNext;
    }
  }

  lemma StreamKeepsArrived(limits: Limits, st: State, outcome: Outcome)
    requires ArrivedOk(st) && Enabled(limits, st, StreamStep(outcome)) && !st.stream.Receiving?
    ensures ArrivedOk(StreamNext(limits, st, outcome))
  {
    hide Flatten;
  }

  lemma StepKeeps(limits: Limits, st: State, step: Step)
    requires Inv(limits, st) && Enabled(limits, st, step)
    ensures Inv(limits, Apply(limits, st, step))
  {
    hide Flatten, HandlerNext, StreamNext;
    match step
    case Arrive(chunk) =>
      var flat := Flatten(st.channel);
      assert (st.popped + (flat + [])) + chunk == st.popped + (flat + chunk);
    case HandlerStep => HandlerKeeps(limits, st);
    case StreamStep(outcome) => StreamKeeps(limits, st, outcome);
    case RaiseError =>
  }

  lemma {:induction false} InvHolds(limits: Limits, steps: seq<Step>, st: State)
    requires Run(limits, steps) == Some(st)
    ensures Inv(limits, st)
  {
    hide Apply, Enabled;
    if steps != [] {
      var before := Run(limits, steps[..|steps|-1]).value;
      InvHolds(limits, steps[..|steps|-1], before);
      StepKeeps(limits, before, steps[|steps|-1]);
    }
  }

  // ----- what it means

  /**
   `received_bytes` is what was consumed plus what is in the channel or in hand, so it never falls below
   `sent_bytes`, and both saturating subtractions of the protocol are exact when they are made.
  */
  lemma BackpressureExact(limits: Limits, steps: seq<Step>, st: State)
    requires Run(limits, steps) == Some(st)
    ensures st.received == |st.popped| + |Flatten(st.channel)| + |Forwarded(st.handler)|
    ensures st.sentBytes <= |st.popped| && st.sentBytes <= st.received
    ensures st.handler.LoadSent? ==> SaturatingSub(st.handler.received, st.sentBytes) == st.received - st.sentBytes
    ensures st.stream.LookPaused? ==>
      SaturatingSub(st.stream.received, st.sent) == st.stream.received - st.sent <= st.received - st.sent
  {
    InvHolds(limits, steps, st);
  }

  /** Pause and resume are decided in strict alternation, a pause first, in every interleaving. */
  lemma DecisionsAlternate(limits: Limits, steps: seq<Step>, st: State)
    requires Run(limits, steps) == Some(st)
    ensures st.decisions != [] ==> st.decisions[0] == Pause
    ensures forall i :: 0 < i < |st.decisions| ==> st.decisions[i] != st.decisions[i-1]
    ensures st.paused <==> st.decisions != [] && st.decisions[|st.decisions|-1] == Pause
  {
    InvHolds(limits, steps, st);
  }

  /**
   The client gets a prefix of what the cluster sent, never more than the declared size, and `sent_bytes`
   is what was yielded or is about to be.
  */
  lemma StreamIsPrefix(limits: Limits, steps: seq<Step>, st: State)
    requires Run(limits, steps) == Some(st)
    ensures st.yielded <= st.arrived && |st.yielded| <= limits.size
    ensures st.yielded + InFlight(st.stream) <= st.arrived
    ensures st.sentBytes == |st.yielded| || st.sentBytes == |st.yielded + InFlight(st.stream)|
    ensures st.stream.Done? || st.stream.Top? ==> st.sentBytes == |st.yielded|
  {
    InvHolds(limits, steps, st);
    var out := st.yielded + InFlight(st.stream);
    assert st.popped <= st.arrived;
    assert out == st.arrived[..|out|];
    assert st.yielded == st.arrived[..|st.yielded|];
  }

  /** For a non-empty file the first reason the stream gives is `Complete` exactly when all of it went out. */
  lemma FirstReason(limits: Limits, steps: seq<Step>, st: State)
    requires Run(limits, steps) == Some(st) && limits.size > 0
    ensures st.stream.Done? ==>
      st.fired != [] && (st.fired[0] == Complete <==> |st.yielded| == limits.size)
    ensures st.fired != [] && st.fired[0] == Complete ==> |st.yielded + InFlight(st.stream)| == limits.size
    ensures |st.yielded| == limits.size ==> st.fired != [] && st.fired[0] == Complete
  {
    InvHolds(limits, steps, st);
  }

  /** The step at `p` of a run is an access of the stream, made in this state. */
  ghost predicate StreamAt(limits: Limits, steps: seq<Step>, p: nat, st: State) {
    p < |steps| && steps[p].StreamStep? && Run(limits, steps[..p]) == Some(st)
  }

  /** The loop was left because an error had been flagged, before everything was out. */
  ghost predicate LeftOnError(limits: Limits, steps: seq<Step>) {
    exists p: nat, st :: StreamAt(limits, steps, p, st) && st.stream.Top? && st.error && st.sent < limits.size
  }

  /** A `recv` ran out of time, or found the channel closed before everything was out. */
  ghost predicate LeftWaiting(limits: Limits, steps: seq<Step>) {
    exists p: nat, st ::
      && StreamAt(limits, steps, p, st) && st.stream.Receiving?
      && (steps[p].outcome.TimedOut? || (steps[p].outcome.ChannelClosed? && st.sent != limits.size))
  }

  lemma LeftStays(limits: Limits, steps: seq<Step>, longer: seq<Step>)
    requires steps <= longer
    ensures LeftOnError(limits, steps) ==> LeftOnError(limits, longer)
    ensures LeftWaiting(limits, steps) ==> LeftWaiting(limits, longer)
  {
    hide Run;
    forall p: nat, st | StreamAt(limits, steps, p, st) ensures StreamAt(limits, longer, p, st) {
      assert longer[..p] == steps[..p];
    }
  }

  lemma JustLeft(limits: Limits, steps: seq<Step>, st: State, outcome: Outcome)
    requires Run(limits, steps) == Some(st)
    ensures st.stream.Top? && st.error && st.sent < limits.size ==>
              LeftOnError(limits, steps + [StreamStep(outcome)])
    ensures st.stream.Receiving? && (outcome.TimedOut? || (outcome.ChannelClosed? && st.sent != limits.size)) ==>
              LeftWaiting(limits, steps + [StreamStep(outcome)])
  {
    hide Run;
    var longer := steps + [StreamStep(outcome)];
    assert longer[..|steps|] == steps;
    assert StreamAt(limits, longer, |steps|, st);
  }

  /** What a first reason other than `Complete` says of the run. */
  ghost predicate ReasonHolds(limits: Limits, steps: seq<Step>, reason: Reason) {
    match reason
    case Complete => true
    case ChunkTimeout => LeftWaiting(limits, steps)
    case FileError => LeftOnError(limits, steps)
    case _ => false
  }

  /**
   The stream gives `ChunkTimeout` first only after a `recv` that brought nothing, and `FileError` first only after
   it had left the loop over a flagged error, in both cases before everything was out.
  */
  lemma {:induction false} FirstReasonCause(limits: Limits, steps: seq<Step>, st: State)
    requires Run(limits, steps) == Some(st)
    ensures CauseOk(limits, steps, st)
  {
    hide Apply, Enabled, LeftOnError, LeftWaiting;
    if steps != [] {
      var front, step := steps[..|steps|-1], steps[|steps|-1];
      var before := Run(limits, front).value;
      assert front + [step] == steps;
      FirstReasonCause(limits, front, before);
      LeftStays(limits, front, steps);
      CauseKept(limits, front, before, step);
    }
  }

  /** The first reason is a true one, and so will be the one still to come. */
  ghost predicate CauseOk(limits: Limits, steps: seq<Step>, st: State) {
    && (st.fired != [] ==> ReasonHolds(limits, steps, st.fired[0]))
    && (st.fired == [] && st.stream.AfterLoop? && st.sent < limits.size ==> LeftOnError(limits, steps))
  }

  lemma ReceiveCauseKept(limits: Limits, steps: seq<Step>, before: State, outcome: Outcome)
    requires Run(limits, steps) == Some(before) && Enabled(limits, before, StreamStep(outcome))
    requires before.stream.Receiving? && CauseOk(limits, steps + [StreamStep(outcome)], before)
    ensures CauseOk(limits, steps + [StreamStep(outcome)], StreamNext(limits, before, outcome))
  {
    JustLeft(limits, steps, before, outcome);
    hide Run, LeftOnError, LeftWaiting;
  }

  lemma StreamCauseKept(limits: Limits, steps: seq<Step>, before: State, outcome: Outcome)
    requires Run(limits, steps) == Some(before) && Enabled(limits, before, StreamStep(outcome))
    requires !before.stream.Receiving? && CauseOk(limits, steps + [StreamStep(outcome)], before)
    requires (before.stream.StoreSent? || before.stream.Yielding?) && before.stream.last ==> before.sent == limits.size
    ensures CauseOk(limits, steps + [StreamStep(outcome)], StreamNext(limits, before, outcome))
  {
    JustLeft(limits, steps, before, outcome);
    hide Run, LeftOnError, LeftWaiting;
  }

  lemma CauseKept(limits: Limits, steps: seq<Step>, before: State, step: Step)
    requires Run(limits, steps) == Some(before) && Enabled(limits, before, step)
    requires CauseOk(limits, steps + [step], before)
    ensures CauseOk(limits, steps + [step], Apply(limits, before, step))
  {
    InvHolds(limits, steps, before);
    hide Run, LeftOnError, LeftWaiting, ArrivedOk, PauseEarned, PauseOk, LoadsOk, OutOk, StreamNext, HandlerNext;
    match step
    case Arrive(_) =>
    case HandlerStep => HandlerLeaves(limits, before);
    case RaiseError =>
    case StreamStep(outcome) =>
      if before.stream.Receiving? {
        ReceiveCauseKept(limits, steps, before, outcome);
      } else {
        StreamCauseKept(limits, steps, before, outcome);
      }
  }

  /** A complete download delivers exactly the first `size` bytes the cluster sent. */
  lemma CompleteDelivers(limits: Limits, steps: seq<Step>, st: State)
    requires Run(limits, steps) == Some(st) && limits.size > 0 && st.stream.Done?
    requires st.fired != [] && st.fired[0] == Complete
    ensures |st.arrived| >= limits.size && st.yielded == st.arrived[..limits.size]
  {
    FirstReason(limits, steps, st);
    StreamIsPrefix(limits, steps, st);
  }

  lemma Advance(limits: Limits, steps: seq<Step>, st: State, step: Step) returns (longer: seq<Step>, next: State)
    requires Run(limits, steps) == Some(st) && Enabled(limits, st, step)
    ensures longer == steps + [step] && next == Apply(limits, st, step) && Run(limits, longer) == Some(next)
  {
    longer, next := steps + [step], Apply(limits, st, step);
    assert longer[..|steps|] == steps;
  }

  /** The handler has found the backlog of one chunk too big and is about to pause. */
  lemma DecideToPause(limits: Limits, chunk: Data) returns (steps: seq<Step>, st: State)
    requires |chunk| == limits.maxBuffer + 1
    ensures Run(limits, steps) == Some(st)
    ensures st == State(|chunk|, 0, false, false, [chunk], StorePause, Top, 0, chunk, [], [], [], [])
  {
    hide Run;
    steps, st := [], Init();
    assert Run(limits, steps) == Some(st) by { StartsEmpty(limits); }
    steps, st := Advance(limits, steps, st, Arrive(chunk));
    steps, st := Advance(limits, steps, st, HandlerStep);
    steps, st := Advance(limits, steps, st, HandlerStep);
    steps, st := Advance(limits, steps, st, HandlerStep);
    steps, st := Advance(limits, steps, st, HandlerStep);
  }

  /** Meanwhile the stream takes that chunk; no pause stands, so it resumes nothing. */
  lemma DrainMeanwhile(limits: Limits, chunk: Data) returns (steps: seq<Step>, st: State)
    requires |chunk| == limits.maxBuffer + 1 < limits.size
    ensures Run(limits, steps) == Some(st)
    ensures st == State(|chunk|, |chunk|, false, false, [], StorePause, FireFull(chunk), |chunk|, chunk, chunk,
                        [], [], [])
  {
    hide Run;
    steps, st := DecideToPause(limits, chunk);
    steps, st := Advance(limits, steps, st, StreamStep(Chunk));
    steps, st := Advance(limits, steps, st, StreamStep(Chunk));
    steps, st := Advance(limits, steps, st, StreamStep(Chunk));
    steps, st := Advance(limits, steps, st, StreamStep(Chunk));
    steps, st := Advance(limits, steps, st, StreamStep(Chunk));
  }

  /** A pause stands although everything that arrived has been yielded, and the file is not complete. */
  predicate Stuck(limits: Limits, st: State) {
    && st.paused && st.channel == [] && st.handler.Waiting? && st.stream.Receiving?
    && st.yielded == st.arrived && |st.yielded| < limits.size
  }

  /** While nothing arrives, a stuck download is never resumed and yields nothing more. */
  lemma {:induction false} StuckForGood(limits: Limits, steps: seq<Step>, st: State, more: seq<Step>, later: State)
    requires Run(limits, steps) == Some(st) && Stuck(limits, st) && Run(limits, steps + more) == Some(later)
    requires forall i :: 0 <= i < |more| ==> !more[i].Arrive?
    ensures later.paused && later.decisions == st.decisions && later.yielded == st.yielded
    ensures later.channel == [] && later.handler.Waiting?
    ensures later.stream.Receiving? || later.stream.AfterLoop? || later.stream.Done?
  {
    if more == [] {
      assert steps + more == steps;
    } else {
      var front := more[..|more|-1];
      assert (steps + more)[..|steps + more|-1] == steps + front;
      StuckForGood(limits, steps, st, front, Run(limits, steps + front).value);
      assert !more[|more|-1].Arrive?;
    }
  }

  /** A full drain can fall between the handler's look at the backlog and its pause. */
  lemma PauseCanOutliveBacklog(limits: Limits) returns (steps: seq<Step>, st: State)
    requires limits.maxBuffer + 1 < limits.size
    ensures Run(limits, steps) == Some(st) && Stuck(limits, st)
  {
    hide Run;
    steps, st := DrainMeanwhile(limits, seq(limits.maxBuffer + 1, _ => 0));
    steps, st := Advance(limits, steps, st, StreamStep(Chunk));
    steps, st := Advance(limits, steps, st, StreamStep(Chunk));
    steps, st := Advance(limits, steps, st, StreamStep(Chunk));
    steps, st := Advance(limits, steps, st, HandlerStep);
  }

  /** A pause takes more than the limit, and an incomplete file has less than its size. */
  lemma StuckNeedsRoom(limits: Limits, steps: seq<Step>, st: State)
    requires Run(limits, steps) == Some(st) && Stuck(limits, st)
    ensures limits.maxBuffer + 1 < limits.size
  {
    hide Run;
    InvHolds(limits, steps, st);
  }

  ghost predicate CanGetStuck(limits: Limits) {
    exists steps :: Run(limits, steps).Some? && Stuck(limits, Run(limits, steps).value)
  }

  /**
   What the protocol does not promise, and exactly when it does: some run leaves a pause standing over an
   empty backlog if and only if the file is larger than the pause limit by two bytes or more.
  */
  lemma StuckIffLargerThanLimit(limits: Limits)
    ensures CanGetStuck(limits) <==> limits.maxBuffer + 1 < limits.size
  {
    hide Run, Stuck;
    if limits.maxBuffer + 1 < limits.size {
      var steps, st := PauseCanOutliveBacklog(limits);
      assert Run(limits, steps).Some? && Stuck(limits, Run(limits, steps).value);
    }
    if CanGetStuck(limits) {
      var steps :| Run(limits, steps).Some? && Stuck(limits, Run(limits, steps).value);
      StuckNeedsRoom(limits, steps, Run(limits, steps).value);
    }
  }

  /** What the client has been given, counting a chunk that is just being yielded. */
  function Given(st: State): Data {
    st.yielded + if st.stream.Yielding? then st.stream.chunk else []
  }

  /**
   Wherever the body is dropped in its loop (waiting for a chunk, sending a RESUME, yielding a chunk), the
   stream has left the session untriggered if and only if not everything had been given to the client. The
   error after a timeout is yielded past the loop, behind its own trigger.
  */
  lemma DroppedBodyFires(limits: Limits, steps: seq<Step>, st: State)
    requires Run(limits, steps) == Some(st) && limits.size > 0
    requires !st.stream.AfterLoop? && !st.stream.Done?
    ensures st.fired == [] <==> |Given(st)| < limits.size
  {
    InvHolds(limits, steps, st);
  }

  /** Two chunks have arrived, and the first was large enough for a pause. */
  lemma PausedBehindTwo() returns (steps: seq<Step>, st: State)
    ensures Run(Limits(4, 1, 1), steps) == Some(st)
    ensures st == State(4, 0, true, false, [[0, 0], [0, 0]], Waiting, Top, 0, [0, 0, 0, 0], [], [], [Pause], [])
  {
    hide Run;
    var limits := Limits(4, 1, 1);
    steps, st := [], Init();
    assert Run(limits, steps) == Some(st) by { StartsEmpty(limits); }
    steps, st := Advance(limits, steps, st, Arrive([0, 0]));
    steps, st := Advance(limits, steps, st, HandlerStep);
    steps, st := Advance(limits, steps, st, HandlerStep);
    steps, st := Advance(limits, steps, st, HandlerStep);
    steps, st := Advance(limits, steps, st, HandlerStep);
    steps, st := Advance(limits, steps, st, HandlerStep);
    assert st == State(2, 0, true, false, [[0, 0]], Waiting, Top, 0, [0, 0], [], [], [Pause], []);
    steps, st := Advance(limits, steps, st, Arrive([0, 0]));
    steps, st := Advance(limits, steps, st, HandlerStep);
    steps, st := Advance(limits, steps, st, HandlerStep);
  }

  lemma FirstOfTwoYielded() returns (steps: seq<Step>, st: State)
    ensures Run(Limits(4, 1, 1), steps) == Some(st)
    ensures st == State(4, 2, true, false, [[0, 0]], Waiting, Top, 2, [0, 0, 0, 0], [0, 0], [0, 0], [Pause], [])
  {
    hide Run;
    var limits := Limits(4, 1, 1);
    steps, st := PausedBehindTwo();
    steps, st := Advance(limits, steps, st, StreamStep(Chunk));
    steps, st := Advance(limits, steps, st, StreamStep(Chunk));
    steps, st := Advance(limits, steps, st, StreamStep(Chunk));
    steps, st := Advance(limits, steps, st, StreamStep(Chunk));
    steps, st := Advance(limits, steps, st, StreamStep(Chunk));
    steps, st := Advance(limits, steps, st, StreamStep(Chunk));
    steps, st := Advance(limits, steps, st, StreamStep(Chunk));
  }

  /**
   What the protocol does not promise: a body can be dropped while its last RESUME is being sent. By then
   `sent_bytes` is the declared size, and still nothing has been triggered.
  */
  lemma DroppedWhileResuming() returns (steps: seq<Step>, st: State)
    ensures Run(Limits(4, 1, 1), steps) == Some(st)
    ensures st.stream.FireFull? && st.decisions == [Pause, Resume] && st.fired == []
    ensures st.sentBytes == 4 && |Given(st)| == 2 && |st.yielded + InFlight(st.stream)| == 4
  {
    hide Run;
    var limits := Limits(4, 1, 1);
    steps, st := FirstOfTwoYielded();
    steps, st := Advance(limits, steps, st, StreamStep(Chunk));
    steps, st := Advance(limits, steps, st, StreamStep(Chunk));
    steps, st := Advance(limits, steps, st, StreamStep(Chunk));
    steps, st := Advance(limits, steps, st, StreamStep(Chunk));
    steps, st := Advance(limits, steps, st, StreamStep(Chunk));
    steps, st := Advance(limits, steps, st, StreamStep(Chunk));
  }

  lemma StartsEmpty(limits: Limits)
    ensures Run(limits, []) == Some(Init())
  {
  }
}
