/**
 The upload loop over a cluster's queue: chunks go out at the lowest priority, the completion at
 the highest, and the drain wait between them keeps the completion behind every chunk.
 */
module Upload {
  import opened Wrappers
  import opened Bytes
  import opened PriorityQueue
  import opened Wire
  import opened MessageBuffer
  import opened Scheduler
  import opened SchedulerTheorems
  import opened ClusterQueue

  const FILE_UPLOAD_CHUNK: u32 := 4501
  const FILE_UPLOAD_COMPLETE: u32 := 4503
  const CHUNKS: nat := 2       // chunks are queued at the lowest priority
  const COMPLETION: nat := 0   // the completion at the highest

  function ChunkMessage(uuid: Text, chunk: Blob): Data {
    Build(uuid, FILE_UPLOAD_CHUNK, [FBytes(chunk)])
  }

  /** The bytes a receiver takes out of a chunk message. */
  function ChunkPayload(message: Data): Data {
    PopBytes(message, ParseHeader(message).2).0
  }

  /** Concatenated payloads of a sequence of chunk messages. */
  function Payloads(messages: seq<Data>): Data {
    if messages == [] then []
    else Payloads(messages[..|messages|-1]) + ChunkPayload(messages[|messages|-1])
  }

  lemma ChunkPayloadReads(uuid: Text, chunk: Blob)
    ensures ChunkPayload(ChunkMessage(uuid, chunk)) == chunk
    ensures ParseHeader(ChunkMessage(uuid, chunk)).0 == uuid
    ensures ParseHeader(ChunkMessage(uuid, chunk)).1 == FILE_UPLOAD_CHUNK
    ensures |ChunkMessage(uuid, chunk)| == 20 + |uuid| + |chunk|
  {
    hide ParseHeader, PopBytes;
    var fields := [FBytes(chunk)];
    var message := ChunkMessage(uuid, chunk);
    BuildParseRoundTrip(uuid, FILE_UPLOAD_CHUNK, fields, []);
    assert message + [] == message;
    var (_, _, body) := ParseHeader(message);
    PopOne(KBytes, message, body);
    assert KindsOf(fields) == [KBytes];
    ChunkMessageSize(uuid, chunk);
  }

  lemma PopOne(kind: Kind, data: Data, index: nat)
    requires index <= |data|
    ensures PopAll([kind], data, index).0 == [Pop(kind, data, index).0]
  {
    var (field, next) := Pop(kind, data, index);
    assert [kind][1..] == [];
    assert PopAll([kind][1..], data, next) == ([], next);
  }

  lemma ChunkMessageSize(uuid: Text, chunk: Blob)
    ensures |ChunkMessage(uuid, chunk)| == 20 + |uuid| + |chunk|
  {
    var header, fields := [FString(uuid), FUint(FILE_UPLOAD_CHUNK)], [FBytes(chunk)];
    EncodeAllConcat(header, fields);
    EncodePair(header[0], header[1]);
    assert fields[1..] == [];
    assert EncodeAll(fields) == Encode(fields[0]) + EncodeAll(fields[1..]);
  }

  lemma {:induction false} PayloadsPrefix(messages: seq<Data>, n: nat)
    requires n <= |messages|
    ensures Payloads(messages[..n]) <= Payloads(messages)
  {
    if n < |messages| {
      PayloadsPrefix(messages[..|messages|-1], n);
      assert messages[..|messages|-1][..n] == messages[..n];
    } else {
      assert messages[..n] == messages;
    }
  }

  lemma PayloadsAppend(messages: seq<Data>, message: Data)
    ensures Payloads(messages + [message]) == Payloads(messages) + ChunkPayload(message)
  {
    assert (messages + [message])[..|messages|] == messages;
  }

  /* ---- Reading the queue's history at an earlier moment ---- */

  lemma {:induction false} SentGrows(log: seq<Event>, n: nat, level: nat, source: Source)
    requires n <= |log|
    ensures Sent(log[..n], level, source) <= Sent(log, level, source)
    decreases |log|
  {
    if n < |log| {
      SentGrows(log[..|log|-1], n, level, source);
      assert log[..|log|-1][..n] == log[..n];
    } else {
      assert log[..n] == log;
    }
  }

  /** At every moment of a run, what was dequeued is a prefix of what had been accepted. */
  lemma {:induction false} SentNeverAhead(steps: seq<Step>, p: nat, l: nat, source: Source)
    requires Run(steps).Some? && p <= |Run(steps).value.log| && l < LEVELS
    ensures Sent(Run(steps).value.log[..p], l, source) <= Accepted(Run(steps).value.log[..p], l, source)
  {
    hide Sent, Accepted;
    var log := Run(steps).value.log;
    if p == |log| {
      assert log[..p] == log;
      SourceOrderKept(steps, Run(steps).value, l, source);
    } else {
      EmptyRun();
      LogGrows(steps);
      var front := steps[..|steps|-1];
      assert log[..p] == Run(front).value.log[..p];
      SentNeverAhead(front, p, l, source);
    }
  }

  lemma EmptyRun()
    ensures Run([]) == Some(Init())
  {
  }

  /** Bytes of a source queued on a level, as the history tells it. */
  ghost function Backlog(log: seq<Event>, l: nat, source: Source): int {
    SizeOf(Accepted(log, l, source)) - SizeOf(Sent(log, l, source))
  }

  lemma {:induction false} SizeOfConcat(first: seq<Data>, second: seq<Data>)
    ensures SizeOf(first + second) == SizeOf(first) + SizeOf(second)
  {
    if first == [] {
      assert first + second == second;
    } else {
      SizeOfConcat(first[1..], second);
      assert (first + second)[1..] == first[1..] + second;
    }
  }

  /** In every state of a run, the history's account is the queue itself. */
  lemma QueuedIsBacklog(steps: seq<Step>, s: State, l: nat, source: Source)
    requires Run(steps) == Some(s) && l < LEVELS
    ensures SizeOf(QueueOf(s.levels[l], source)) == Backlog(s.log, l, source)
  {
    SourceOrderKept(steps, s, l, source);
    SizeOfConcat(Sent(s.log, l, source), QueueOf(s.levels[l], source));
  }

  lemma SizeOfPrefix(part: seq<Data>, whole: seq<Data>)
    requires part <= whole
    ensures SizeOf(part) <= SizeOf(whole)
  {
    SizeOfConcat(part, whole[|part|..]);
    assert whole == part + whole[|part|..];
  }

  /** While nothing of the source is accepted, its backlog only falls. */
  lemma BacklogFalls(log: seq<Event>, n: nat, p: nat, l: nat, source: Source)
    requires n <= p <= |log| && Accepted(log, l, source) == Accepted(log[..n], l, source)
    ensures Accepted(log[..p], l, source) == Accepted(log, l, source)
    ensures Backlog(log[..p], l, source) <= Backlog(log[..n], l, source)
  {
    assert log[..p][..n] == log[..n];
    AcceptedGrows(log[..p], n, l, source);
    AcceptedGrows(log, p, l, source);
    SentGrows(log[..p], n, l, source);
    SizeOfPrefix(Sent(log[..n], l, source), Sent(log[..p], l, source));
  }

  /** A queue without bytes holds no message, when every message has some. */
  lemma NoBytesNoMessages(queue: seq<Data>)
    requires SizeOf(queue) <= 0 && forall i | 0 <= i < |queue| :: queue[i] != []
    ensures queue == []
  {
  }

  /* ---- The upload ---- */

  /** Every state since position `base` of the history kept the backlog of chunks within the bound. */
  ghost predicate ChunksBounded(log: seq<Event>, base: nat, uuid: Source, bound: nat) {
    forall p | base <= p <= |log| :: Backlog(log[..p], CHUNKS, uuid) <= bound
  }

  ghost predicate AllNonEmpty(messages: seq<Data>) {
    forall i | 0 <= i < |messages| :: messages[i] != []
  }

  /** A receiver finds each to be a chunk of this upload. */
  ghost predicate AllChunks(messages: seq<Data>, uuid: Source) {
    forall i | 0 <= i < |messages| ::
      ParseHeader(messages[i]).0 == uuid && ParseHeader(messages[i]).1 == FILE_UPLOAD_CHUNK
  }

  function BufferLimit(minBuffer: nat, maxBuffer: nat): nat {
    if minBuffer < maxBuffer then maxBuffer else minBuffer
  }

  /** Up to the moment of the only push, nothing of the source had been accepted since `before`. */
  lemma BeforeThePush(before: seq<Event>, log: seq<Event>, at: nat, data: Data, l: nat, source: Source)
    requires before <= log && |before| <= at < |log| && log[at] == Enqueued(l, source, data)
    requires Accepted(log, l, source) == Accepted(before, l, source) + [data]
    ensures Accepted(log[..at], l, source) == Accepted(before, l, source)
    ensures Accepted(log[..at + 1], l, source) == Accepted(log, l, source)
    ensures Backlog(log[..at + 1], l, source) == Backlog(log[..at], l, source) + |data|
  {
    hide Accepted, Sent;
    assert log[..at][..|before|] == before;
    assert log[..at + 1] == log[..at] + [log[at]];
    AppendEnqueue(log[..at], l, source, data);
    AcceptedGrows(log[..at], |before|, l, source);
    AcceptedGrows(log, at + 1, l, source);
    SizeOfAppend(Accepted(before, l, source), data);
  }

  lemma AppendEnqueue(log: seq<Event>, l: nat, source: Source, data: Data)
    ensures Accepted(log + [Enqueued(l, source, data)], l, source) == Accepted(log, l, source) + [data]
    ensures Sent(log + [Enqueued(l, source, data)], l, source) == Sent(log, l, source)
  {
    AppendEvent(log, Enqueued(l, source, data));
  }

  lemma BacklogAfterPush(before: seq<Event>, log: seq<Event>, at: nat, data: Data, l: nat, source: Source, p: nat)
    requires before <= log && |before| <= at < |log| && log[at] == Enqueued(l, source, data)
    requires Accepted(log, l, source) == Accepted(before, l, source) + [data]
    requires |before| <= p <= |log|
    ensures Backlog(log[..p], l, source) <= Backlog(before, l, source) + |data|
  {
    hide Accepted, Sent, Backlog;
    BeforeThePush(before, log, at, data, l, source);
    assert log[..at][..|before|] == before && log[..at][..at] == log[..at];
    if p <= at {
      assert log[..at][..p] == log[..p];
      BacklogFalls(log[..at], |before|, p, l, source);
    } else {
      BacklogFalls(log[..at], |before|, at, l, source);
      BacklogFalls(log, at + 1, p, l, source);
    }
  }

  /** What one push of the source does to its history and its backlog. */
  lemma OnePush(before: seq<Event>, log: seq<Event>, at: nat, data: Data, l: nat, source: Source)
    requires before <= log && |before| <= at < |log| && log[at] == Enqueued(l, source, data)
    requires Accepted(log, l, source) == Accepted(before, l, source) + [data]
    ensures Accepted(log[..at], l, source) == Accepted(before, l, source)
    ensures forall p | |before| <= p <= |log| ::
              Backlog(log[..p], l, source) <= Backlog(before, l, source) + |data|
  {
    hide Accepted, Sent, Backlog;
    BeforeThePush(before, log, at, data, l, source);
    forall p | |before| <= p <= |log|
      ensures Backlog(log[..p], l, source) <= Backlog(before, l, source) + |data|
    {
      BacklogAfterPush(before, log, at, data, l, source, p);
    }
  }

  ghost predicate NoneInFlight(locks: seq<Lock>, uuid: Source) {
    forall l | 0 <= l < |locks| :: locks[l].Pushed? ==> locks[l].source != uuid
  }

  /** A source nobody has used has nothing in flight. */
  lemma FreshSourceNotInFlight(steps: seq<Step>, s: State, uuid: Source)
    requires Run(steps) == Some(s)
    requires forall l | 0 <= l < LEVELS :: Accepted(s.log, l, uuid) == []
    ensures NoneInFlight(s.locks, uuid)
  {
    CounterInv(steps, s);
    forall l | 0 <= l < LEVELS && s.locks[l].Pushed?
      ensures s.locks[l].source != uuid
    {
      SourceOrderKept(steps, s, l, uuid);
    }
  }

  /** `wait_for_queue_drain` on the upload's own cluster. */
  method AwaitDrain(cluster: Cluster, uuid: Text, waitForEmpty: bool, minBuffer: nat, maxBuffer: nat, wakeUps: nat,
                    ghost base: nat, ghost bound: nat)
    returns (drained: bool, ghost wait: Wait)
    requires cluster.Valid() && NoneInFlight(cluster.locks, uuid)
    requires base <= |cluster.log| && ChunksBounded(cluster.log, base, uuid, bound)
    modifies cluster
    ensures cluster.Valid() && old(cluster.steps) <= cluster.steps && old(cluster.log) <= cluster.log
    ensures NoneInFlight(cluster.locks, uuid)
    ensures ChunksBounded(cluster.log, base, uuid, bound)
    ensures forall l | 0 <= l < LEVELS :: Accepted(cluster.log, l, uuid) == old(Accepted(cluster.log, l, uuid))
    ensures wait.last == |cluster.steps|
    ensures Answered(cluster.steps, |old(cluster.steps)|, wait, if waitForEmpty then 0 else maxBuffer,
                     if waitForEmpty then 0 else minBuffer, wakeUps, drained)
    ensures drained ==>
              Backlog(cluster.log, CHUNKS, uuid) <= if waitForEmpty then 0 else BufferLimit(minBuffer, maxBuffer)
    ensures !drained ==> cluster.queuedMessageSize > if waitForEmpty then 0 else minBuffer
    ensures !drained ==> WaitFailed(cluster.steps, |old(cluster.steps)|, if waitForEmpty then 0 else maxBuffer,
                                    if waitForEmpty then 0 else minBuffer)
  {
    hide RunFrom, Sent, Accepted, Backlog, WaitFailed, Answered;
    drained, wait := cluster.WaitForQueueDrain(waitForEmpty, minBuffer, maxBuffer, wakeUps, Task(false, {}, {uuid}));
    ghost var before, log := old(cluster.log), cluster.log;
    forall p | base <= p <= |log|
      ensures Backlog(log[..p], CHUNKS, uuid) <= bound
    {
      if p <= |before| {
        assert log[..p] == before[..p];
      } else {
        assert log[..|before|] == before == before[..|before|];
        BacklogFalls(log, |before|, p, CHUNKS, uuid);
      }
    }
    if drained {
      CounterBoundsSource(cluster.steps, cluster.Now(), CHUNKS, uuid);
      QueuedIsBacklog(cluster.steps, cluster.Now(), CHUNKS, uuid);
    }
  }

  /** Queue one chunk behind those already accepted. */
  method SendChunk(cluster: Cluster, uuid: Text, chunk: Blob, ghost base: nat, ghost bound: nat)
    requires cluster.Valid() && NoneInFlight(cluster.locks, uuid)
    requires base <= |cluster.log| && ChunksBounded(cluster.log, base, uuid, bound)
    requires Backlog(cluster.log, CHUNKS, uuid) + 20 + |uuid| + |chunk| <= bound
    modifies cluster
    ensures cluster.Valid() && old(cluster.steps) <= cluster.steps && old(cluster.log) <= cluster.log
    ensures NoneInFlight(cluster.locks, uuid)
    ensures ChunksBounded(cluster.log, base, uuid, bound)
    ensures Accepted(cluster.log, CHUNKS, uuid)
         == old(Accepted(cluster.log, CHUNKS, uuid)) + [ChunkMessage(uuid, chunk)]
    ensures Accepted(cluster.log, COMPLETION, uuid) == old(Accepted(cluster.log, COMPLETION, uuid))
  {
    hide RunFrom, Sent, Accepted, Backlog;
    var message := new Message.New(FILE_UPLOAD_CHUNK, Lowest, uuid);
    message.PushBytes(chunk);
    ChunkMessageBuilt(uuid, chunk);
    ChunkPayloadReads(uuid, chunk);
    ghost var at := cluster.QueueMessage(uuid, message.data, Lowest, Task(false, {}, {uuid}));
    ghost var before, log := old(cluster.log), cluster.log;
    OnePush(before, log, at, message.data, CHUNKS, uuid);
    forall p | base <= p <= |log|
      ensures Backlog(log[..p], CHUNKS, uuid) <= bound
    {
      if p <= |before| {
        assert log[..p] == before[..p];
      }
    }
  }

  lemma ChunkMessageBuilt(uuid: Text, chunk: Blob)
    ensures Build(uuid, FILE_UPLOAD_CHUNK, []) + Encode(FBytes(chunk)) == ChunkMessage(uuid, chunk)
  {
    var header, fields := [FString(uuid), FUint(FILE_UPLOAD_CHUNK)], [FBytes(chunk)];
    EncodeAllConcat(header, fields);
    assert header + [] == header;
    assert fields[1..] == [];
    assert EncodeAll([]) == [];
  }

  /** How the sending half ends; `at` is the number of body bytes queued by then. */
  datatype UploadResult = Uploaded | DrainTimedOut(at: nat) | ErrorReported(at: nat)

  /** The only completion was enqueued at `at`, after every accepted chunk had been dequeued. */
  ghost predicate CompletedAt(log: seq<Event>, uuid: Text, at: nat) {
    && at < |log|
    && log[at] == Enqueued(COMPLETION, uuid, Build(uuid, FILE_UPLOAD_COMPLETE, []))
    && Accepted(log[..at], COMPLETION, uuid) == []
    && Accepted(log, COMPLETION, uuid) == [Build(uuid, FILE_UPLOAD_COMPLETE, [])]
    && Sent(log[..at], CHUNKS, uuid) == Accepted(log, CHUNKS, uuid)
  }

  /** A wait behind the first `base` steps failed: for room between two chunks, or for an empty queue at the end. */
  ghost predicate TimedOut(steps: seq<Step>, base: nat, between: bool, minBuffer: nat, maxBuffer: nat) {
    if between then WaitFailed(steps, base, maxBuffer, minBuffer) else WaitFailed(steps, base, 0, 0)
  }

  /** The read that let a wait pass: a first one within `high`, or one within `low` after it. */
  ghost predicate Passed(steps: seq<Step>, first: nat, last: nat, high: nat, low: nat) {
    || (first == last && CounterWithin(steps, first, high))
    || (first <= last && CounterAbove(steps, first, high) && CounterWithin(steps, last, low))
  }

  /** After its first `p` steps the run had accepted `k` chunk messages of this source. */
  ghost predicate ChunksAt(steps: seq<Step>, p: nat, uuid: Source, k: nat) {
    p <= |steps| && Run(steps[..p]).Some? && |Accepted(Run(steps[..p]).value.log, CHUNKS, uuid)| == k
  }

  /** Between chunk `k` and the one before it a wait passed. */
  ghost predicate WaitedForRoom(steps: seq<Step>, base: nat, uuid: Source, k: nat, high: nat, low: nat) {
    exists first: nat, last: nat ::
      && base <= first && Passed(steps, first, last, high, low)
      && ChunksAt(steps, first, uuid, k) && ChunksAt(steps, last, uuid, k)
  }

  /** Every chunk was queued only behind a wait of its own. */
  ghost predicate AllWaited(steps: seq<Step>, base: nat, uuid: Source, chunks: nat, high: nat, low: nat) {
    forall k | 0 <= k < chunks :: WaitedForRoom(steps, base, uuid, k, high, low)
  }

  lemma NoneWaited(steps: seq<Step>, uuid: Source, high: nat, low: nat)
    ensures AllWaited(steps, |steps|, uuid, 0, high, low)
  {
  }

  lemma RoomStays(steps: seq<Step>, base: nat, uuid: Source, k: nat, high: nat, low: nat,
                  longer: seq<Step>, earlier: nat)
    requires WaitedForRoom(steps, base, uuid, k, high, low) && steps <= longer && earlier <= base
    ensures WaitedForRoom(longer, earlier, uuid, k, high, low)
  {
    hide Run, CounterAbove, CounterWithin, Accepted;
    var first: nat, last: nat :|
      && base <= first && Passed(steps, first, last, high, low)
      && ChunksAt(steps, first, uuid, k) && ChunksAt(steps, last, uuid, k);
    CounterStays(steps, longer, first, high);
    CounterStays(steps, longer, last, low);
    assert longer[..first] == steps[..first] && longer[..last] == steps[..last];
    assert Passed(longer, first, last, high, low);
    assert ChunksAt(longer, first, uuid, k) && ChunksAt(longer, last, uuid, k);
  }

  lemma AllWaitedStays(steps: seq<Step>, base: nat, uuid: Source, chunks: nat, high: nat, low: nat, longer: seq<Step>)
    requires AllWaited(steps, base, uuid, chunks, high, low) && steps <= longer
    ensures AllWaited(longer, base, uuid, chunks, high, low)
  {
    hide WaitedForRoom;
    forall k | 0 <= k < chunks ensures WaitedForRoom(longer, base, uuid, k, high, low) {
      RoomStays(steps, base, uuid, k, high, low, longer, base);
    }
  }

  lemma OneMoreWaited(steps: seq<Step>, base: nat, uuid: Source, chunks: nat, high: nat, low: nat,
                      longer: seq<Step>)
    requires AllWaited(steps, base, uuid, chunks, high, low) && steps <= longer && base <= |steps|
    requires WaitedForRoom(longer, |steps|, uuid, chunks, high, low)
    ensures AllWaited(longer, base, uuid, chunks + 1, high, low)
  {
    hide WaitedForRoom;
    AllWaitedStays(steps, base, uuid, chunks, high, low, longer);
    RoomStays(longer, |steps|, uuid, chunks, high, low, longer, base);
  }

  lemma {:induction false} LogOfPrefix(steps: seq<Step>, p: nat)
    requires Run(steps).Some? && p <= |steps|
    ensures Run(steps[..p]).Some? && Run(steps[..p]).value.log <= Run(steps).value.log
    decreases |steps|
  {
    if p == |steps| {
      assert steps[..p] == steps;
    } else {
      var front := steps[..|steps|-1];
      LogGrows(steps);
      LogOfPrefix(front, p);
      assert front[..p] == steps[..p];
    }
  }

  /** While nothing of the source is accepted, its count stays what it was. */
  lemma SameChunks(steps: seq<Step>, base: nat, uuid: Source, p: nat)
    requires Run(steps).Some? && base <= p <= |steps| && Run(steps[..base]).Some?
    requires Accepted(Run(steps).value.log, CHUNKS, uuid) == Accepted(Run(steps[..base]).value.log, CHUNKS, uuid)
    ensures ChunksAt(steps, p, uuid, |Accepted(Run(steps).value.log, CHUNKS, uuid)|)
  {
    hide RunFrom, Accepted;
    LogOfPrefix(steps, p);
    LogOfPrefix(steps[..p], base);
    assert steps[..p][..base] == steps[..base];
    var log, middle := Run(steps).value.log, Run(steps[..p]).value.log;
    var start := Run(steps[..base]).value.log;
    assert log[..|middle|] == middle && middle[..|start|] == start;
    AcceptedGrows(log, |middle|, CHUNKS, uuid);
    AcceptedGrows(middle, |start|, CHUNKS, uuid);
  }

  /** A wait that let the upload go on, with no chunk accepted meanwhile. */
  lemma RoomWaited(steps: seq<Step>, base: nat, wait: Wait, high: nat, low: nat, wakeUps: nat, uuid: Source)
    requires Run(steps).Some? && base <= |steps| && Run(steps[..base]).Some? && wait.last == |steps|
    requires Answered(steps, base, wait, high, low, wakeUps, true)
    requires Accepted(Run(steps).value.log, CHUNKS, uuid) == Accepted(Run(steps[..base]).value.log, CHUNKS, uuid)
    ensures WaitedForRoom(steps, base, uuid, |Accepted(Run(steps).value.log, CHUNKS, uuid)|, high, low)
  {
    hide RunFrom, Accepted, CounterAbove, CounterWithin, AllWentOn;
    SameChunks(steps, base, uuid, wait.first);
    SameChunks(steps, base, uuid, wait.last);
    assert Passed(steps, wait.first, wait.last, high, low);
  }

  lemma TimeoutStays(steps: seq<Step>, base: nat, between: bool, minBuffer: nat, maxBuffer: nat,
                     longer: seq<Step>, earlier: nat)
    requires TimedOut(steps, base, between, minBuffer, maxBuffer) && steps <= longer && earlier <= base
    ensures TimedOut(longer, earlier, between, minBuffer, maxBuffer)
  {
    hide WaitFailed;
    if between {
      WaitStays(steps, base, maxBuffer, minBuffer, longer, earlier);
    } else {
      WaitStays(steps, base, 0, 0, longer, earlier);
    }
  }

  /** `check_upload_error` came before every chunk below `at`, and found nothing. */
  ghost predicate ChecksPassed(errors: nat -> bool, chunkSize: nat, at: nat)
    requires chunkSize > 0
  {
    forall n | 0 <= n < at && n % chunkSize == 0 :: !errors(n)
  }

  /** What each end of the sending half means. */
  ghost predicate EndsAs(result: UploadResult, errors: nat -> bool, accepted: Data, body: Data, chunkSize: nat)
    requires chunkSize > 0
  {
    match result
    case Uploaded => accepted == body && ChecksPassed(errors, chunkSize, |body|) && !errors(|body|)
    case DrainTimedOut(at) => at <= |body| && accepted == body[..at] && ChecksPassed(errors, chunkSize, at)
    case ErrorReported(at) =>
      at <= |body| && accepted == body[..at] && ChecksPassed(errors, chunkSize, at) && errors(at)
  }

  /**
   The sending half of `upload_file`; `errors` is what `check_upload_error` reads with so many bytes queued.
   Whatever other tasks do meanwhile: the chunk payloads accepted are the queued part of the body; the backlog
   of chunks stays within the buffer limit plus one chunk; a failed upload has enqueued no completion, and found
   the queue above its threshold and at the deadline still above its target, or the first error there was; a
   successful one enqueued its one completion only once every chunk had been dequeued.
  */
  method UploadBody(cluster: Cluster, uuid: Text, body: Blob, errors: nat -> bool, chunkSetting: nat,
                    minBuffer: nat, maxBuffer: nat, wakeUps: nat)
    returns (result: UploadResult, ghost completedAt: nat)
    requires cluster.Valid()
    requires forall l | 0 <= l < LEVELS :: Accepted(cluster.log, l, uuid) == []   // the uuid is fresh
    modifies cluster
    ensures cluster.Valid() && old(cluster.steps) <= cluster.steps && old(cluster.log) <= cluster.log
    ensures EndsAs(result, errors, Payloads(Accepted(cluster.log, CHUNKS, uuid)), body, ChunkSize(chunkSetting))
    ensures result.DrainTimedOut? ==> cluster.queuedMessageSize > if result.at < |body| then minBuffer else 0
    ensures AllWaited(cluster.steps, |old(cluster.steps)|, uuid, |Accepted(cluster.log, CHUNKS, uuid)|,
                      maxBuffer, minBuffer)
    ensures AllChunks(Accepted(cluster.log, CHUNKS, uuid), uuid)
    ensures result.DrainTimedOut? ==>
              TimedOut(cluster.steps, |old(cluster.steps)|, result.at < |body|, minBuffer, maxBuffer)
    ensures !result.Uploaded? ==> Accepted(cluster.log, COMPLETION, uuid) == []
    ensures ChunksBounded(cluster.log, |old(cluster.log)|, uuid,
                          BufferLimit(minBuffer, maxBuffer) + 20 + |uuid| + ChunkSize(chunkSetting))
    ensures result.Uploaded? ==> CompletedAt(cluster.log, uuid, completedAt)
  {
    hide RunFrom, Sent, Accepted, Backlog, Payloads, Uploading, ChecksPassed, CompletedAt, WaitFailed, AllWaited,
      WaitedForRoom, AllChunks;
    ghost var base := |cluster.log|;
    var chunkSize := ChunkSize(chunkSetting);
    ghost var bound := BufferLimit(minBuffer, maxBuffer) + 20 + |uuid| + chunkSize;
    FreshUpload(cluster.steps, cluster.Now(), uuid, body, bound);
    NoCheckYet(errors, chunkSize);
    NoneWaited(cluster.steps, uuid, maxBuffer, minBuffer);
    var totalRead := 0;
    while totalRead < |body|
      invariant totalRead <= |body| && (totalRead < |body| ==> totalRead % chunkSize == 0)
      invariant cluster.Valid() && old(cluster.steps) <= cluster.steps && old(cluster.log) <= cluster.log
      invariant Uploading(cluster.log, cluster.locks, uuid, body, totalRead, base, bound)
      invariant ChecksPassed(errors, chunkSize, totalRead)
      invariant AllWaited(cluster.steps, |old(cluster.steps)|, uuid, |Accepted(cluster.log, CHUNKS, uuid)|,
                          maxBuffer, minBuffer)
    {
      ghost var start, sofar, chunks := totalRead, cluster.steps, |Accepted(cluster.log, CHUNKS, uuid)|;
      totalRead, result := SendNext(cluster, uuid, body, errors, totalRead, chunkSize,
                                    minBuffer, maxBuffer, wakeUps, base, bound);
      if !result.Uploaded? {
        UploadedPart(cluster.log, cluster.locks, uuid, body, totalRead, base, bound);
        AllWaitedStays(sofar, |old(cluster.steps)|, uuid, chunks, maxBuffer, minBuffer, cluster.steps);
        if result.DrainTimedOut? {
          TimeoutStays(cluster.steps, |sofar|, true, minBuffer, maxBuffer, cluster.steps, |old(cluster.steps)|);
        }
        return result, 0;
      }
      CheckPassed(errors, chunkSize, start, totalRead);
      OneMoreWaited(sofar, |old(cluster.steps)|, uuid, chunks, maxBuffer, minBuffer, cluster.steps);
    }
    ghost var sofar, chunks := cluster.steps, |Accepted(cluster.log, CHUNKS, uuid)|;
    result, completedAt := Complete(cluster, uuid, body, errors, minBuffer, maxBuffer, wakeUps, base, bound);
    AllWaitedStays(sofar, |old(cluster.steps)|, uuid, chunks, maxBuffer, minBuffer, cluster.steps);
    if result.DrainTimedOut? {
      TimeoutStays(cluster.steps, |sofar|, false, minBuffer, maxBuffer, cluster.steps, |old(cluster.steps)|);
    }
  }

  lemma NoCheckYet(errors: nat -> bool, chunkSize: nat)
    requires chunkSize > 0
    ensures ChecksPassed(errors, chunkSize, 0) && 0 % chunkSize == 0
  {
  }

  /** One chunk holds one check: at its start. */
  lemma CheckPassed(errors: nat -> bool, chunkSize: nat, start: nat, end: nat)
    requires chunkSize > 0 && start % chunkSize == 0 && start < end <= start + chunkSize
    requires ChecksPassed(errors, chunkSize, start) && !errors(start)
    ensures ChecksPassed(errors, chunkSize, end)
    ensures end == start + chunkSize ==> end % chunkSize == 0
  {
    var k := start / chunkSize;
    assert start == k * chunkSize;
    if end == start + chunkSize {
      MultipleOf(k + 1, chunkSize, end);
    }
    forall n | start < n < end && n % chunkSize == 0 ensures false {
      BetweenMultiples(k, n / chunkSize, chunkSize);
    }
  }

  lemma MultipleOf(k: nat, size: nat, n: nat)
    requires size > 0 && n == k * size
    ensures n % size == 0
  {
    var q, r := n / size, n % size;
    assert n == q * size + r;
    if q < k {
      BetweenMultiples(q, k, size);
    }
    if k < q {
      BetweenMultiples(k, q, size);
    }
  }

  lemma BetweenMultiples(j: int, k: int, size: nat)
    ensures j < k ==> k * size >= j * size + size
    ensures j >= k ==> j * size >= k * size
  {
    if j < k {
      ScaledInOrder(j + 1, k, size);
      assert (j + 1) * size == j * size + size;
    } else {
      ScaledInOrder(k, j, size);
    }
  }

  lemma ScaledInOrder(j: int, k: int, size: nat)
    requires j <= k
    ensures j * size <= k * size
  {
    assert (k - j) * size >= 0;
  }

  /** What holds between two chunks, with `n` bytes of the body queued so far. */
  ghost predicate Uploading(log: seq<Event>, locks: seq<Lock>, uuid: Source, body: Data, n: nat,
                            base: nat, bound: nat)
  {
    && base <= |log| && n <= |body| && NoneInFlight(locks, uuid) && ChunksBounded(log, base, uuid, bound)
    && Payloads(Accepted(log, CHUNKS, uuid)) == body[..n]
    && AllNonEmpty(Accepted(log, CHUNKS, uuid)) && AllChunks(Accepted(log, CHUNKS, uuid), uuid)
    && Accepted(log, COMPLETION, uuid) == []
  }

  lemma UploadedPart(log: seq<Event>, locks: seq<Lock>, uuid: Source, body: Data, n: nat, base: nat, bound: nat)
    requires Uploading(log, locks, uuid, body, n, base, bound)
    ensures n <= |body| && Payloads(Accepted(log, CHUNKS, uuid)) == body[..n] && ChunksBounded(log, base, uuid, bound)
    ensures Accepted(log, COMPLETION, uuid) == [] && AllChunks(Accepted(log, CHUNKS, uuid), uuid)
  {
  }

  /** The body of the upload loop: wait for room, check for an error, queue the next chunk. */
  method SendNext(cluster: Cluster, uuid: Text, body: Blob, errors: nat -> bool, totalRead: nat, chunkSize: nat,
                  minBuffer: nat, maxBuffer: nat, wakeUps: nat, ghost base: nat, ghost bound: nat)
    returns (end: nat, result: UploadResult)
    requires cluster.Valid() && totalRead < |body| && chunkSize > 0
    requires Uploading(cluster.log, cluster.locks, uuid, body, totalRead, base, bound)
    requires bound == BufferLimit(minBuffer, maxBuffer) + 20 + |uuid| + chunkSize
    modifies cluster
    ensures cluster.Valid() && old(cluster.steps) <= cluster.steps && old(cluster.log) <= cluster.log
    ensures Uploading(cluster.log, cluster.locks, uuid, body, end, base, bound)
    ensures match result
            case Uploaded =>
              && !errors(totalRead)
              && |Accepted(cluster.log, CHUNKS, uuid)| == |old(Accepted(cluster.log, CHUNKS, uuid))| + 1
              && WaitedForRoom(cluster.steps, |old(cluster.steps)|, uuid, |old(Accepted(cluster.log, CHUNKS, uuid))|,
                               maxBuffer, minBuffer)
              && end == if totalRead + chunkSize < |body| then totalRead + chunkSize else |body|
            case DrainTimedOut(at) =>
              && at == end == totalRead && cluster.queuedMessageSize > minBuffer
              && TimedOut(cluster.steps, |old(cluster.steps)|, true, minBuffer, maxBuffer)
            case ErrorReported(at) => at == end == totalRead && errors(at)
    ensures !result.Uploaded? ==> Accepted(cluster.log, CHUNKS, uuid) == old(Accepted(cluster.log, CHUNKS, uuid))
  {
    hide RunFrom, Sent, Accepted, Backlog, Payloads, WaitFailed, WaitedForRoom, Answered;
    var drained;
    ghost var wait;
    drained, wait := AwaitDrain(cluster, uuid, false, minBuffer, maxBuffer, wakeUps, base, bound);
    if !drained {
      return totalRead, DrainTimedOut(totalRead);
    }
    if errors(totalRead) {
      return totalRead, ErrorReported(totalRead);
    }
    ghost var before, waited := |old(cluster.steps)|, cluster.steps;
    assert waited[..before] == old(cluster.steps);
    RoomWaited(waited, before, wait, maxBuffer, minBuffer, wakeUps, uuid);
    var remaining := |body| - totalRead;
    end := totalRead + if remaining < chunkSize then remaining else chunkSize;
    var chunk := body[totalRead..end];
    ghost var accepted := Accepted(cluster.log, CHUNKS, uuid);
    SendChunk(cluster, uuid, chunk, base, bound);
    RoomStays(waited, before, uuid, |accepted|, maxBuffer, minBuffer, cluster.steps, before);
    ChunkPayloadReads(uuid, chunk);
    PayloadsAppend(accepted, ChunkMessage(uuid, chunk));
    assert body[..totalRead] + chunk == body[..end];
    result := Uploaded;
  }

  /** The end of the upload: wait until the queue is empty, check for an error, queue the completion. */
  method Complete(cluster: Cluster, uuid: Text, body: Blob, errors: nat -> bool, minBuffer: nat, maxBuffer: nat,
                  wakeUps: nat, ghost base: nat, ghost bound: nat)
    returns (result: UploadResult, ghost completedAt: nat)
    requires cluster.Valid() && Uploading(cluster.log, cluster.locks, uuid, body, |body|, base, bound)
    modifies cluster
    ensures cluster.Valid() && old(cluster.steps) <= cluster.steps && old(cluster.log) <= cluster.log
    ensures Payloads(Accepted(cluster.log, CHUNKS, uuid)) == body && ChunksBounded(cluster.log, base, uuid, bound)
    ensures Accepted(cluster.log, CHUNKS, uuid) == old(Accepted(cluster.log, CHUNKS, uuid))
    ensures AllChunks(Accepted(cluster.log, CHUNKS, uuid), uuid)
    ensures match result
            case Uploaded => !errors(|body|)
            case DrainTimedOut(at) =>
              && at == |body| && cluster.queuedMessageSize > 0
              && TimedOut(cluster.steps, |old(cluster.steps)|, false, minBuffer, maxBuffer)
            case ErrorReported(at) => at == |body| && errors(at)
    ensures if result.Uploaded? then CompletedAt(cluster.log, uuid, completedAt)
            else Accepted(cluster.log, COMPLETION, uuid) == []
  {
    hide RunFrom, Sent, Accepted, Backlog, Payloads, WaitFailed;
    assert body[..|body|] == body;
    var drained;
    ghost var wait;
    drained, wait := AwaitDrain(cluster, uuid, true, minBuffer, maxBuffer, wakeUps, base, bound);
    if !drained {
      return DrainTimedOut(|body|), 0;
    }
    if errors(|body|) {
      return ErrorReported(|body|), 0;
    }
    EmptyBacklogMeansSent(cluster.steps, cluster.Now(), uuid);
    completedAt := SendCompletion(cluster, uuid, base, bound);
    result := Uploaded;
  }

  /** `FILE_CHUNK_SIZE`, at least one byte. */
  function ChunkSize(setting: nat): nat {
    if setting < 1 then 1 else setting
  }

  lemma FreshUpload(steps: seq<Step>, s: State, uuid: Source, body: Data, bound: nat)
    requires Run(steps) == Some(s)
    requires forall l | 0 <= l < LEVELS :: Accepted(s.log, l, uuid) == []
    ensures Uploading(s.log, s.locks, uuid, body, 0, |s.log|, bound)
  {
    FreshSourceNotInFlight(steps, s, uuid);
    assert s.log[..|s.log|] == s.log;
    SourceOrderKept(steps, s, CHUNKS, uuid);
  }

  lemma EmptyBacklogMeansSent(steps: seq<Step>, s: State, uuid: Source)
    requires Run(steps) == Some(s) && Backlog(s.log, CHUNKS, uuid) <= 0
    requires AllNonEmpty(Accepted(s.log, CHUNKS, uuid))
    ensures Sent(s.log, CHUNKS, uuid) == Accepted(s.log, CHUNKS, uuid)
  {
    var queue, sent := QueueOf(s.levels[CHUNKS], uuid), Sent(s.log, CHUNKS, uuid);
    SourceOrderKept(steps, s, CHUNKS, uuid);
    QueuedIsBacklog(steps, s, CHUNKS, uuid);
    forall i | 0 <= i < |queue| ensures queue[i] != [] {
      assert queue[i] == Accepted(s.log, CHUNKS, uuid)[|sent| + i];
    }
    NoBytesNoMessages(queue);
  }

  /** Queue the completion; every chunk is out by now. */
  method SendCompletion(cluster: Cluster, uuid: Text, ghost base: nat, ghost bound: nat) returns (ghost at: nat)
    requires cluster.Valid() && NoneInFlight(cluster.locks, uuid)
    requires base <= |cluster.log| && ChunksBounded(cluster.log, base, uuid, bound)
    requires Accepted(cluster.log, COMPLETION, uuid) == []
    requires Sent(cluster.log, CHUNKS, uuid) == Accepted(cluster.log, CHUNKS, uuid)
    modifies cluster
    ensures cluster.Valid() && old(cluster.steps) <= cluster.steps && old(cluster.log) <= cluster.log
    ensures ChunksBounded(cluster.log, base, uuid, bound)
    ensures Accepted(cluster.log, CHUNKS, uuid) == old(Accepted(cluster.log, CHUNKS, uuid))
    ensures CompletedAt(cluster.log, uuid, at)
  {
    hide RunFrom, Sent, Accepted, Backlog;
    var message := new Message.New(FILE_UPLOAD_COMPLETE, Highest, uuid);
    at := cluster.QueueMessage(uuid, message.data, Highest, Task(false, {}, {uuid}));
    ghost var before, log := old(cluster.log), cluster.log;
    OnePush(before, log, at, message.data, COMPLETION, uuid);
    forall p | base <= p <= |log|
      ensures Backlog(log[..p], CHUNKS, uuid) <= bound
    {
      if p <= |before| {
        assert log[..p] == before[..p];
      } else {
        assert log[..|before|] == before == before[..|before|];
        BacklogFalls(log, |before|, p, CHUNKS, uuid);
      }
    }
    // Nothing more of the chunks can go out than had been accepted.
    SentNeverAhead(cluster.steps, at, CHUNKS, uuid);
    assert log[..at][..|before|] == before && log[..|before|] == before;
    SentGrows(log[..at], |before|, CHUNKS, uuid);
    BacklogFalls(log, |before|, at, CHUNKS, uuid);
  }

  /** A message cannot be dequeued from a queue that has accepted none. */
  lemma NotDequeuedBefore(steps: seq<Step>, s: State, l: nat, source: Source, n: nat, j: nat)
    requires Run(steps) == Some(s) && l < LEVELS && j < n <= |s.log|
    requires Accepted(s.log[..n], l, source) == []
    ensures !(s.log[j].Dequeued? && s.log[j].level == l && s.log[j].source == source)
  {
    hide RunFrom;
    SentNeverAhead(steps, j + 1, l, source);
    assert s.log[..j + 1] == s.log[..j] + [s.log[j]];
    AppendEvent(s.log[..j], s.log[j]);
    assert s.log[..n][..j + 1] == s.log[..j + 1];
    AcceptedGrows(s.log[..n], j + 1, l, source);
  }

  /** Whatever of an upload's chunks has been dequeued is in body order, also while it is under way or has failed. */
  lemma DequeuedIsPrefix(steps: seq<Step>, s: State, uuid: Source, body: Data, j: nat)
    requires Run(steps) == Some(s) && j <= |s.log|
    requires Payloads(Accepted(s.log, CHUNKS, uuid)) <= body
    ensures Payloads(Sent(s.log[..j], CHUNKS, uuid)) <= body
  {
    hide RunFrom, Accepted, Sent, Payloads;
    SentNeverAhead(steps, j, CHUNKS, uuid);
    AcceptedGrows(s.log, j, CHUNKS, uuid);
    var sent, accepted := Sent(s.log[..j], CHUNKS, uuid), Accepted(s.log, CHUNKS, uuid);
    assert accepted[..|sent|] == sent;
    PayloadsPrefix(accepted, |sent|);
  }

  /** The event after position `j` is the dequeue of the upload's completion. */
  predicate CompletionAt(log: seq<Event>, j: nat, uuid: Source) {
    j < |log| && log[j].Dequeued? && log[j].level == COMPLETION && log[j].source == uuid
  }

  /**
   Upload end to end, for any continuation of the run in which nobody else uses the uuid: payloads
   come out in body order, and once the completion is dequeued, the whole body has been.
   */
  lemma CompletionComesLast(steps: seq<Step>, s: State, uuid: Text, body: Data, completedAt: nat, j: nat)
    requires Run(steps) == Some(s) && j <= |s.log|
    requires CompletedAt(s.log, uuid, completedAt)
    requires Payloads(Accepted(s.log, CHUNKS, uuid)) == body
    ensures Payloads(Sent(s.log[..j], CHUNKS, uuid)) <= body
    ensures CompletionAt(s.log, j, uuid) ==> Payloads(Sent(s.log[..j], CHUNKS, uuid)) == body
  {
    hide RunFrom, Accepted, Sent, Payloads;
    DequeuedIsPrefix(steps, s, uuid, body, j);
    SentNeverAhead(steps, j, CHUNKS, uuid);
    AcceptedGrows(s.log, j, CHUNKS, uuid);
    var sent, accepted := Sent(s.log[..j], CHUNKS, uuid), Accepted(s.log, CHUNKS, uuid);
    if j < completedAt {
      NotDequeuedBefore(steps, s, COMPLETION, uuid, completedAt, j);
    } else {
      assert s.log[..j][..completedAt] == s.log[..completedAt];
      SentGrows(s.log[..j], completedAt, CHUNKS, uuid);
      assert sent == accepted;
    }
  }

  /** Of a failed upload no completion is ever dequeued. */
  lemma NoCompletion(steps: seq<Step>, s: State, uuid: Source, j: nat)
    requires Run(steps) == Some(s) && Accepted(s.log, COMPLETION, uuid) == []
    ensures !CompletionAt(s.log, j, uuid)
  {
    hide RunFrom, Accepted, Sent;
    if j < |s.log| {
      assert s.log[..|s.log|] == s.log;
      NotDequeuedBefore(steps, s, COMPLETION, uuid, |s.log|, j);
    }
  }

  /** Whatever has been dequeued is in body order, and all of the body once the completion is out. */
  ghost predicate DeliveredInOrder(log: seq<Event>, uuid: Source, body: Data) {
    forall j | 0 <= j <= |log| ::
      && Payloads(Sent(log[..j], CHUNKS, uuid)) <= body
      && (CompletionAt(log, j, uuid) ==> Payloads(Sent(log[..j], CHUNKS, uuid)) == body)
  }

  /**
   An upload from its first chunk until any later moment: after the sending half, every other task goes on for as
   long as it likes. However it ends, chunk payloads are dequeued in body order. Of a successful upload the
   completion is dequeued only after all of them, although it outranks every one; of a failed one, never.
  */
  method UploadAndWatch(cluster: Cluster, uuid: Text, body: Blob, errors: nat -> bool, chunkSetting: nat,
                        minBuffer: nat, maxBuffer: nat, wakeUps: nat)
    returns (result: UploadResult)
    requires cluster.Valid()
    requires forall l | 0 <= l < LEVELS :: Accepted(cluster.log, l, uuid) == []   // the uuid is fresh
    modifies cluster
    ensures cluster.Valid() && old(cluster.steps) <= cluster.steps && old(cluster.log) <= cluster.log
    ensures EndsAs(result, errors, Payloads(Accepted(cluster.log, CHUNKS, uuid)), body, ChunkSize(chunkSetting))
    ensures result.DrainTimedOut? ==>
              TimedOut(cluster.steps, |old(cluster.steps)|, result.at < |body|, minBuffer, maxBuffer)
    ensures AllWaited(cluster.steps, |old(cluster.steps)|, uuid, |Accepted(cluster.log, CHUNKS, uuid)|,
                      maxBuffer, minBuffer)
    ensures AllChunks(Accepted(cluster.log, CHUNKS, uuid), uuid)
    ensures DeliveredInOrder(cluster.log, uuid, body)
    ensures !result.Uploaded? ==> forall j | 0 <= j < |cluster.log| :: !CompletionAt(cluster.log, j, uuid)
  {
    hide RunFrom, Accepted, Sent, Payloads, ChecksPassed, CompletionAt, WaitFailed, AllWaited, AllChunks;
    ghost var completedAt;
    result, completedAt := UploadBody(cluster, uuid, body, errors, chunkSetting, minBuffer, maxBuffer, wakeUps);
    ghost var sentHalf, sofar := cluster.log, cluster.steps;
    ghost var chunks := |Accepted(cluster.log, CHUNKS, uuid)|;
    var others := cluster.Interfere(Task(false, {}, {uuid}));
    AllWaitedStays(sofar, |old(cluster.steps)|, uuid, chunks, maxBuffer, minBuffer, cluster.steps);
    if result.DrainTimedOut? {
      TimeoutStays(sofar, |old(cluster.steps)|, result.at < |body|, minBuffer, maxBuffer, cluster.steps,
                   |old(cluster.steps)|);
    }
    if result.Uploaded? {
      assert cluster.log[..completedAt] == sentHalf[..completedAt];
    }
    forall j | 0 <= j <= |cluster.log|
      ensures Payloads(Sent(cluster.log[..j], CHUNKS, uuid)) <= body
      ensures CompletionAt(cluster.log, j, uuid) ==> Payloads(Sent(cluster.log[..j], CHUNKS, uuid)) == body
      ensures !result.Uploaded? ==> !CompletionAt(cluster.log, j, uuid)
    {
      if result.Uploaded? {
        CompletionComesLast(cluster.steps, cluster.Now(), uuid, body, completedAt, j);
      } else {
        DequeuedIsPrefix(cluster.steps, cluster.Now(), uuid, body, j);
        NoCompletion(cluster.steps, cluster.Now(), uuid, j);
      }
    }
  }
}
