# Job controller: a verified model

The controller keeps one WebSocket per cluster and multiplexes everything over it: job messages, file lists,
uploads and downloads. This project models four connected parts of it in Dafny and proves what they promise
over every run.

1. **The outbound queue and the upload that relies on it.** `Scheduler.dfy` is a machine with one step per lock
   acquisition, atomic update or notification; a run is any sequence of enabled steps, so producers, pruners,
   drain waiters and the scheduler task interleave freely. `SchedulerTheorems.dfy` holds what every run
   guarantees, `SchedulerProgress.dfy` how soon it drains. `ClusterQueue.dfy` is the cluster itself, a class
   whose methods update the queues in place. `Upload.dfy` is the upload loop on top of it.
2. **The download session protocol.** `DownloadSession.dfy` is the lifecycle, `DownloadProtocol.dfy` the machine
   of everything that races on it (admission with its two re-checks, triggers, the cleanup worker, the cleanup
   of a connection's own exit, the exit's completion), `DownloadTheorems.dfy` its invariant and theorems,
   `DownloadProgress.dfy` how soon it settles and what it may leave behind, `DownloadReasons.dfy` who ended a
   session and why, `DownloadTasks.dfy` what each task may rely on, `DownloadManager.dfy` the manager
   and handler as methods over the shared maps, `DownloadResponse.dfy` the HTTP handler up to its response.
   `DownloadStream.dfy` and `DownloadTransfer.dfy` treat the byte stream and its backpressure in the same two
   ways.
3. **The binary wire codec.** `Wire.dfy` (bytes and cursor), `MessageBuffer.dfy` (the buffer, in place),
   `Records.dfy` (the three records, multi-row responses, id lists), `CutRecords.dfy` and `CutReads.dfy` (cut-off
   records), `FileList.dfy` (the decoder that tolerates cut-off input). Text is bytes that satisfy section 4 of RFC 3629.
4. **Connection health, reconnect timing and path filtering.** `ConnectionHealth.dfy`, `Reconnect.dfy`, `Paths.dfy`,
   `PathTheorems.dfy`, `PathFilter.dfy`.

## How to read it

The classes `ClusterQueue.Cluster`, `DownloadManager.ClusterManager` and `DownloadTransfer.Transfer` carry a
ghost list of the steps taken so far; `Valid()` says that this list is a run of the machine ending in the
object's present state. Before each access a method lets every other task run any number of steps
(`LetOthersRun`, of which callers know only the contract), except steps that are its own control flow, under
locks it holds, or of a source it owns. So the theorems about runs hold of the methods under every interleaving.
The manager also lists where in the run a method has itself triggered a session (`shots`).

The order in which a hash map yields its keys, what a timed receive returns, clock readings, what the upload's
error checks read, where a client leaves and whether a weak reference can still be upgraded are parameters or
free choices.

`dafny verify dfyconfig.toml` checks the whole project.

## Where the code and its comments differ

- The comments at `src/src/http/file.rs:577-579` say that the exchange prevents races with the pausing side. It
  keeps the decisions alternating (`DecisionsAlternate`), but the pausing side looks and stores in two accesses,
  and the whole backlog can drain in between. That leaves a pause standing exactly for files larger than the
  pause limit by two bytes or more (`StuckIffLargerThanLimit`).
- The comment at `src/src/http/file.rs:429-433` speaks of a guard that covers the body's lifetime. There is none:
  a body dropped in its loop triggers nothing unless everything had been given to the client
  (`DroppedBodyFires`); the last RESUME is sent before that (`DroppedWhileResuming`).
- A row count above `u32::MAX` is clamped while all rows are still sent. A client recovers all rows exactly when
  the count fits (`RowsResponseRoundTrip`).

## Model

| member | source | states |
|---|---|---|
| SchedulerTheorems.PriorityInversionBounded | src/src/cluster/cluster.rs:360-454 | in every interleaving of enqueues, prunes and scheduler steps, at every moment while a message waits, at most one message of strictly lower priority has been dequeued since it was enqueued |
| SchedulerTheorems.OneInversionHappens | src/src/cluster/cluster.rs:441-454 | the bound is met: a concrete run in which one lower-priority message overtakes, because the levels are read one at a time and the lock is taken back without another look |
| SchedulerTheorems.NoStrandedMessage | src/src/cluster/cluster.rs:337-361 | whenever the scheduler sleeps, or its next step puts it to sleep, while a level is non-empty, a wake-up permit is stored or the holder of that level's lock is about to store one |
| SchedulerTheorems.IdleMeansDrained | src/src/cluster/cluster.rs:1323-1336 | a task asleep without a permit has sent everything accepted on every level nobody is enqueuing to |
| SchedulerTheorems.SourceOrderKept | src/src/cluster/cluster.rs:361-423 | per priority and source: what was dequeued, then what is queued, is what was enqueued, across restarts and pruning |
| SchedulerTheorems.FallWakesWaiter | src/src/cluster/cluster.rs:369-376 | whenever the counter has fallen a drain waiter finds a permit, until one of them takes it |
| SchedulerTheorems.CounterNeverUnderflows | src/src/cluster/cluster.rs:369-375 | the queued byte counter is never below what the scheduler is about to subtract |
| SchedulerTheorems.CounterExactWhenUnlocked | src/src/cluster/cluster.rs:1323-1328 | with no level locked the counter is the total length of the queued messages |
| SchedulerTheorems.CounterBoundsSource | src/src/cluster/cluster.rs:1346-1377 | a lock-free read of the counter bounds what one source has queued, unless a push of that very source is still uncounted |
| SchedulerTheorems.BackloggedServedPerRound | src/src/cluster/cluster.rs:363-423 | in an unpreempted pass a continuously backlogged source has been served once per round, less one while its turn is to come |
| SchedulerTheorems.BackloggedSourcesServedEvenly | src/src/cluster/cluster.rs:363-423 | two continuously backlogged sources never differ by more than one message served since the pass began |
| SchedulerTheorems.RoundServesEachOnce | src/src/cluster/cluster.rs:365-423 | a completed round dequeues exactly one message of every source non-empty at the key snapshot and at most one of any other |
| Scheduler.InvPreserved | src/src/cluster/cluster.rs:329-454 | every step of producers, pruners and the scheduler keeps the invariant behind the results above |
| PriorityQueue.PruneKeepsQueues | src/src/cluster/cluster.rs:473-478 | pruning a level changes no source's queue |
| PriorityQueue.PruneKeepsBytes | src/src/cluster/cluster.rs:473-478 | pruning a level changes no byte total |
| ClusterQueue.Cluster.QueueMessage | src/src/cluster/cluster.rs:1313-1344 | enqueues exactly this message in order for its source, whatever others do at the same time, and leaves a wake-up permit |
| ClusterQueue.Cluster.PruneOnce | src/src/cluster/cluster.rs:473-478 | prunes each level once, from the first to the last, at steps it names: right after each no source of that level is left empty and every queue there is what it was; the caller's own sources are untouched throughout |
| ClusterQueue.Cluster.HasHigherPriorityData | src/src/cluster/cluster.rs:441-454 | reads the levels above one at a time, each under its lock, at steps it names: true means the last one read was non-empty and those before it empty, false that every one was read empty |
| ClusterQueue.Cluster.RunScheduler | src/src/cluster/cluster.rs:329-439 | the scheduler's loops take only machine steps; asleep without a permit it has drained every unlocked level, otherwise it has begun as many rounds as it was given |
| ClusterQueue.Cluster.DrainRound | src/src/cluster/cluster.rs:361-428 | one round over a key snapshot: cut short only by a read that found a higher level non-empty; otherwise it popped a message, or the level was empty when it closed; the step that tells is named |
| ClusterQueue.Cluster.DrainQueues | src/src/cluster/cluster.rs:361-430 | one wake-up: pass over the levels, from the highest again after each preemption; when it goes back to sleep its last pass found every level empty, one after the other, at steps it names |
| ClusterQueue.Cluster.WaitForQueueDrain | src/src/cluster/cluster.rs:1346-1377 | names its reads of the counter: a first one within the early-return threshold is the answer; otherwise every wake-up but the last found the counter above the target, or no permit, and the answer is whether the last read is within the target, negative only after all wake-ups; nothing of the caller's own source is enqueued meanwhile |
| SchedulerProgress.DrainIsBounded | src/src/cluster/cluster.rs:361-430 | from any reachable state, however prunes, waits and unfinished enqueues interleave, a run without a new push has at most so many scheduler steps, fixed by the messages queued and the keys listed |
| SchedulerProgress.StepUnlessDrained | src/src/cluster/cluster.rs:337-430 | while nobody is enqueuing the scheduler can always make a step, unless it sleeps without a permit on empty levels |
| SchedulerProgress.DrainsAlone | src/src/cluster/cluster.rs:329-439 | from any reachable state without an unfinished enqueue the scheduler alone drains every level and goes to sleep, within its bound |
| SchedulerProgress.EndsDrained | src/src/cluster/cluster.rs:329-439 | a run on which the scheduler can go no further has sent everything accepted |
| SchedulerProgress.WorkOfStep | src/src/cluster/cluster.rs:361-430 | without a push no step adds work and every scheduler step takes some away |
| Upload.UploadBody | src/src/http/file.rs:863-913 | the chunk payloads accepted are exactly the part of the body reported as queued, each in a chunk message of this upload; every chunk was queued behind a wait of its own, whose first read was within the maximum or whose last was within the minimum; queued chunk bytes never exceed the larger buffer limit plus one chunk message; every check before that part passed; a failure is the first error a check read, or a wait that found the queue above its threshold and at the deadline still above its target, and has enqueued no completion; a success has enqueued all of the body, and its one completion only once every chunk was dequeued |
| Upload.SendNext | src/src/http/file.rs:863-892 | one turn of the loop: it stops only on a wait that found the queue above its threshold and at the deadline still above its target, or on a reported error, with nothing more queued; otherwise exactly the next chunk of the body is, behind a wait that passed |
| Upload.Complete | src/src/http/file.rs:894-913 | exactly one completion is enqueued, behind an empty queue and a passed check: every chunk accepted has been dequeued by then; none is when that wait failed or an error was reported |
| Upload.CompletionComesLast | src/src/http/file.rs:885-913 | at every position of the history, the end included: dequeued chunk payloads are a prefix of the body, and all of it once the completion is dequeued |
| Upload.UploadAndWatch | src/src/http/file.rs:863-913 | end to end, with every other task running on for as long as it likes: however the upload ends, the dequeued chunk payloads are always a prefix of the body, up to the present moment; of a successful one the completion is dequeued only behind the whole body, although it outranks it, and of a failed one, which has the cause of the sending half, never |
| Upload.ChunkPayloadReads | src/src/http/file.rs:885-887 | a receiver reads back upload, message id and chunk from the message, whose size is the chunk plus a fixed header |
| Upload.QueuedIsBacklog | src/src/cluster/cluster.rs:1346-1377 | what the history says is outstanding for a source is the size of its queue |
| DownloadSession.Session.BindConnection | src/src/cluster/file_download.rs:162-171 | binds exactly a pending session; any other state is left alone |
| DownloadSession.Session.Complete | src/src/cluster/file_download.rs:177-192 | closes exactly a closing session bound to this connection; the recorded reason stays |
| DownloadSession.Session.Trigger | src/src/cluster/file_download.rs:201-233 | the first trigger wins: it records reason and connection and emits the one request; later ones change nothing |
| DownloadTheorems.NoLeak | src/src/cluster/manager.rs:204-245 | when no creation, admission, request or cleanup of a session is outstanding: `connection_map` holds it only under the connection it is `Connected` to, its cluster has a sender only then, and both download maps hold it exactly while it has not left `Connected` |
| DownloadTheorems.OneRequest | src/src/cluster/file_download.rs:201-233 | a session has emitted exactly one cleanup request if it has left `Pending` and `Connected`, none otherwise, and it carries the recorded connection and reason |
| DownloadTheorems.OneTeardown | src/src/cluster/manager.rs:212-245 | the teardown past the removal gate runs at most once although worker and exit both attempt it, and has run exactly once for a session that is closing with nothing outstanding |
| DownloadTheorems.LifecycleForward | src/src/cluster/file_download.rs:155-233 | over every run, a session's state only moves forward, and the connection and reason once recorded never change |
| DownloadTheorems.HandlerLeavesClosed | src/src/websocket/server.rs:253-267 | a handler that retained its session and finished leaves it `Closed` with its own connection and the reason first recorded, whichever trigger or cleanup won |
| DownloadTheorems.ClosedIffRetained | src/src/websocket/server.rs:253-267 | once nothing is under way and the bound socket has ended, a session that has left is `Closed` if and only if it never connected or its handler retained it |
| DownloadReasons.FirstCause | src/src/cluster/file_download.rs:201-233 | over every run: reason and connection of a session that has left are those of one step that found it open: the reason its trigger was fired with, `ClusterOffline` at a socket that found no cluster, or what the read loop of the exiting socket had ended with; and the connection it was bound to then |
| DownloadReasons.ExitCleansUp | src/src/cluster/manager.rs:944-983 | a socket whose exit ended its session is not finished before that session is out of the map, whoever took it out |
| DownloadReasons.OwnEnding | src/src/cluster/manager.rs:944-983 | a session ended by a socket's own access: rejected with `ClusterOffline`, or with the one reason its read loop ended with |
| DownloadProgress.ClosingIsLeftBehind | src/src/cluster/manager.rs:780-827 | what does not hold: a run after which nothing is under way for a session, its socket is rejected, and it is still `Closing`, because it was cleaned up between the binding and the look at its cluster |
| DownloadProgress.SettlingIsBounded | src/src/cluster/manager.rs:204-245 | from any reachable state, without a new download, socket, trigger or end of a read loop, every run has at most so many steps, fixed by what is under way |
| DownloadProgress.StepUnlessQuiet | src/src/cluster/manager.rs:204-245 | unless nothing is under way for a session, some task can make a step of its own |
| DownloadProgress.Settles | src/src/cluster/manager.rs:204-245 | from any reachable state the protocol alone comes to one where nothing is under way for any session, within that bound |
| DownloadProgress.StepCost | src/src/cluster/manager.rs:204-245 | every step that does not come from outside leaves less to do |
| DownloadTheorems.AdmittedIsReachable | src/src/cluster/manager.rs:780-827 | from admission to exit, a `Connected` session has its handler in `connection_map` and its sender installed |
| DownloadTheorems.StepKeeps | src/src/cluster/manager.rs:780-827 | every access of admission, triggers, both cleanups and exit keeps the invariant behind the results above |
| DownloadTheorems.GateKeeps | src/src/cluster/manager.rs:176-190 | passing the removal gate keeps it: the winner alone is responsible for what is left |
| DownloadTheorems.TriggerKeeps | src/src/cluster/file_download.rs:201-233 | a trigger always finds an open session still published, so its request is outstanding from then on |
| DownloadTheorems.StepAdvances | src/src/cluster/file_download.rs:155-233 | no access moves any session backwards |
| DownloadManager.ClusterManager.CreateFileDownload | src/src/cluster/manager.rs:1076-1083 | cluster first, session second: afterwards both maps hold the fresh pending session, though others ran in between |
| DownloadManager.ClusterManager.HandleNewConnection | src/src/cluster/manager.rs:780-827 | binding, sender, re-check, insertion, re-check under interference: admitted with the session bound to this connection and, unless it has left `Connected`, its sender and map entry in place; or rejected at an access it names, which found no session under the token, one no longer pending, no cluster of a session that had left, or a session that had left |
| DownloadManager.ClusterManager.RejectOffline | src/src/cluster/manager.rs:798-805 | without a cluster the session ends up closing, with `ClusterOffline` if this socket ended it, and otherwise by an earlier trigger |
| DownloadManager.ClusterManager.UndoInsertion | src/src/cluster/manager.rs:813-818 | afterwards `connection_map` does not hold this session under this connection |
| DownloadManager.ClusterManager.UndoInstallation | src/src/cluster/manager.rs:807-811 | clears the sender of a session that has left `Connected` |
| DownloadManager.ClusterManager.RetainSession | src/src/websocket/server.rs:253-267 | a retained session is bound to this handler and not yet closed; one that is not retained had left `Connected` at the access named |
| DownloadManager.ClusterManager.CleanupFileDownload | src/src/cluster/manager.rs:204-245 | when a cleanup returns, its session is closing or closed and out of the map, whoever took it out |
| DownloadManager.ClusterManager.PassGate | src/src/cluster/manager.rs:176-190 | afterwards the session is out of the map; only the cleanup that took it out goes on to the teardown, and it is then the last one on record |
| DownloadManager.ClusterManager.DropConnection | src/src/cluster/manager.rs:192-202 | afterwards `connection_map` no longer holds the session under the connection of the request |
| DownloadManager.ClusterManager.ClearConnection | src/src/cluster/manager.rs:232-243 | afterwards the session's cluster has no sender |
| DownloadManager.ClusterManager.CompleteUnconnected | src/src/cluster/manager.rs:240-244 | a session that never connected ends up `Closed` |
| DownloadManager.ClusterManager.RemoveConnection | src/src/cluster/manager.rs:944-983 | under interference: when it returns the session has left `Connected`; if this exit's own trigger ended it, with the exit's reason, and it is out of the map |
| DownloadManager.ClusterManager.HandleSocket | src/src/websocket/server.rs:511-550 | a socket from upgrade to handler end under interference: a retained session is left `Closed` with this connection; any other socket was turned away at an access it names; a session the socket itself has ended is recorded with `ClusterOffline` if it was rejected, with the reason of its close otherwise, and is then out of the map |
| DownloadManager.ClusterManager.Trigger | src/src/cluster/file_download.rs:201-233 | under interference: the session has left `Connected` afterwards, and a winning trigger's reason, connection and request are on record |
| DownloadManager.ClusterManager.HandleRequest | src/src/cluster/manager.rs:161-174 | the worker's next request is the oldest in the channel at the step that takes it, and its session is gone from the map when this returns; there is none only if the channel was empty at the access named |
| DownloadManager.ClusterManager.RunCleanupWorker | src/src/cluster/manager.rs:161-174 | over any number of wake-ups: each takes the oldest request at a step it names, or found the channel empty then; every session handled stays gone for the rest of the run |
| DownloadResponse.RespondToDownload | src/src/http/file.rs:420-644 | with every other task and the socket running between its accesses, and the client free to leave at any await; the handler's own triggers are all accounted for: a refusal or a dropped handler leaves the session ended, with the handler's own reason exactly if its trigger found the session open; not found means it is no longer mapped, failed that the socket has flagged an error or the wait ran out, gone that no data came; an answer in time without an error, with data, for a mapped session and a client that stays is streamed; an empty file is complete at once; a stream has a size the cluster announced, no error was flagged by the end of the wait, and for a non-empty file it is handed out without the handler having taken a trigger step, and holds the trigger unless the session has gone |
| DownloadResponse.PreResponseGuard.Fire | src/src/http/file.rs:293-299 | under interference: makes exactly one trigger step, for the session it holds, which has left afterwards, won exactly if it found the session open, and disarms; a disarmed guard does nothing |
| DownloadResponse.PreResponseGuard.IntoTrigger | src/src/http/file.rs:311-315 | disarms the guard without firing |
| DownloadResponse.PreResponseGuard.Drop | src/src/http/file.rs:318-324 | likewise with the fallback reason, unless fired or disarmed before |
| DownloadStream.BackpressureExact | src/src/http/file.rs:580-594 | `received_bytes` is consumed bytes plus those in the channel or in hand; `sent_bytes` never exceeds it; the saturating subtractions of both sides are exact |
| DownloadStream.DecisionsAlternate | src/src/cluster/cluster.rs:868-901 | pause and resume are decided in strict alternation, a pause first, in every interleaving of handler and stream |
| DownloadStream.StreamIsPrefix | src/src/http/file.rs:551-629 | the bytes yielded are a prefix of those that arrived and never exceed the declared size; `sent_bytes` is what was yielded or is about to be |
| DownloadStream.FirstReason | src/src/http/file.rs:551-629 | for a non-empty file the stream's first terminal reason is `Complete` exactly when the full size was delivered |
| DownloadStream.FirstReasonCause | src/src/http/file.rs:551-629 | a first `ChunkTimeout` follows a `recv` that brought nothing, a first `FileError` an exit from the loop over a flagged error, both before everything was out; no other reason but `Complete` is ever first |
| DownloadStream.CompleteDelivers | src/src/http/file.rs:551-629 | a stream that ended with `Complete` first delivered exactly the first bytes that arrived, as many as declared |
| DownloadStream.StuckIffLargerThanLimit | src/src/cluster/cluster.rs:887-901 | what does not hold, and exactly when it does: some run leaves a pause standing over a drained, incomplete download if and only if the file is larger than the pause limit by two bytes or more |
| DownloadStream.StuckForGood | src/src/http/file.rs:585-603 | such a download is never resumed and yields nothing more while nothing arrives |
| DownloadStream.DroppedBodyFires | src/src/http/file.rs:551-644 | wherever the body is dropped in its loop (waiting for a chunk, sending a RESUME, yielding a chunk), the stream has left the session untriggered if and only if not everything had been given to the client |
| DownloadStream.DroppedWhileResuming | src/src/http/file.rs:585-603 | what does not hold: a run whose body can be dropped, while its last RESUME is being sent, with every byte counted as sent and nothing triggered |
| DownloadStream.StepKeeps | src/src/cluster/cluster.rs:868-901 | every access of chunk handler and stream keeps the byte account, the alternation and the account of reasons |
| DownloadTransfer.Transfer.HandleFileChunk | src/src/cluster/cluster.rs:837-907 | a chunk whose length prefix claims more than is left records an error and forwards nothing; any other is counted and forwarded, and answered with a pause if and only if the accesses named found none standing and the two counts further apart than the limit, whatever the stream does meanwhile |
| DownloadTransfer.Transfer.AcceptChunk | src/src/cluster/cluster.rs:868-901 | exactly this chunk is added to what arrived; a pause is stored and on record if and only if that is what the accesses named call for |
| DownloadTransfer.Transfer.BacklogTooBig | src/src/cluster/cluster.rs:889-893 | a pause is decided if and only if none stood and received minus sent, each read at the access named, is above the limit |
| DownloadTransfer.Transfer.MaybeResume | src/src/http/file.rs:585-603 | resumes if and only if the accesses named found a pause, less than the minimum left, and at the exchange the pause still standing |
| DownloadTransfer.Transfer.StreamBody | src/src/http/file.rs:551-629 | the loop over any outcomes of its timed receives: a prefix of what arrived, within the declared size; each turn named went on from a condition that held, with a chunk and a decision on resuming; it ends with the first turn that finds an error or everything out, brings no chunk or too much; for a non-empty file the first reason is `Complete` exactly if complete, and else has its cause in the run |
| Wire.LittleEndianRoundTrip | src/src/protocol/message.rs:186-214 | reading back a little-endian integer of any width that fits |
| Wire.LittleEndianOnto | src/src/protocol/message.rs:140-148 | any bytes are the little-endian form of what they read as |
| Wire.TryPopBytes | src/src/protocol/message.rs:276-286 | on arbitrary bytes the cursor stays in bounds and never goes back; `None` leaves it where it was |
| Wire.TryPopString | src/src/protocol/message.rs:237-247 | likewise for strings |
| Wire.Pop | src/src/protocol/message.rs:140-286 | on arbitrary bytes every typed pop keeps the cursor in bounds and moves it only forward |
| Wire.PopAll | src/src/protocol/message.rs:140-286 | so does any sequence of pops, and it returns fields of the kinds asked for |
| Wire.PopReads | src/src/protocol/message.rs:151-286 | a field lying at the cursor is read back and the cursor lands behind it |
| Wire.TruncatedReads | src/src/protocol/message.rs:224-286 | a length prefix that claims more than is left: absent without a move for the strict readers, empty behind the prefix for the others |
| Wire.PopAllReads | src/src/protocol/message.rs:151-286 | so is any list of fields |
| Wire.BuildParseRoundTrip | src/src/protocol/message.rs:53-81 | for every source, id, list of typed fields and suffix: parsing what was built recovers all of them and leaves exactly the suffix |
| Wire.HeaderReads | src/src/protocol/message.rs:70-81 | the header is read back whatever follows it |
| MessageBuffer.Message.New | src/src/protocol/message.rs:53-66 | a new message holds source and id and the given priority |
| MessageBuffer.Message.FromBytes | src/src/protocol/message.rs:70-81 | parses the header of arbitrary bytes and leaves the cursor behind it, at the lowest priority |
| MessageBuffer.Message.PushString | src/src/protocol/message.rs:216-222 | appends exactly the encoded string |
| MessageBuffer.Message.PushBytes | src/src/protocol/message.rs:251-257 | appends exactly the encoded bytes |
| MessageBuffer.Message.PopFixed | src/src/protocol/message.rs:140-148 | reads a fixed-size integer in place, or zero without moving |
| MessageBuffer.Message.PopBytes | src/src/protocol/message.rs:260-272 | reads bytes in place as the byte-level decoder says, truncated lengths included |
| MessageBuffer.Message.TryPopBytes | src/src/protocol/message.rs:276-286 | reads bytes in place, or leaves the cursor alone |
| MessageBuffer.Message.TryPopString | src/src/protocol/message.rs:237-247 | reads a string in place, or leaves the cursor alone |
| Records.RecordRoundTrip | src/src/db/models.rs:37-137 | each of the three records, signed casts included, is read back from what was written, wherever it lies |
| CutRecords.CutRecordRejected | src/src/db/models.rs:55-137 | for every record and cut point: the cut encoding is rejected if and only if the cut lies behind a string's length prefix and before that string's end; any other cut is read |
| CutReads.CutRecordReads | src/src/db/models.rs:55-137 | for every record and every cut not rejected, exactly what is read: the fields wholly before the cut, then for each missing field what the bytes of the cut one make of it, zero or empty where they do not suffice |
| CutReads.CutIdReadAsState | src/src/db/models.rs:79-110 | what does not hold: that a missing field reads as zero; a status cut inside its id is read with bytes of that id as its state |
| CutReads.ParsedFields | src/src/db/models.rs:55-137 | from any bytes, a record that is read is the one whose fields are popped one after the other |
| CutRecords.ParseRejected | src/src/db/models.rs:55-137 | on arbitrary bytes a record is rejected exactly when one of its strings is truncated |
| Records.ToMessage | src/src/db/models.rs:37-131 | writing a record in place appends exactly its encoding |
| Records.FromMessage | src/src/db/models.rs:55-137 | reading one in place is the byte-level decoder, `None` included |
| Records.RecordsRoundTrip | src/src/db/cluster_db.rs:162-174 | a list of records is read back by its count |
| Records.RowsResponseRoundTrip | src/src/db/cluster_db.rs:162-174 | a client recovers request id and the first `u32::MAX` rows, so all rows if and only if their number fits |
| Records.SendRowsResponse | src/src/db/cluster_db.rs:162-174 | the loop builds exactly that response, at the highest priority |
| Records.CutIdListRoundTrip | src/src/db/cluster_db.rs:576-586 | however an id list was cut, the loop takes exactly the ids that arrived whole, as many as announced |
| Records.DeleteByIdList | src/src/db/cluster_db.rs:559-592 | in place: a request too short is dropped untouched, any other deletes the ids present |
| FileList.DecodeEntries | src/src/cluster/cluster.rs:738-777 | on arbitrary bytes at most the announced number of entries and at most one per 17 remaining bytes |
| FileList.CutListRoundTrip | src/src/cluster/cluster.rs:738-777 | for every list of entries and every cut point the decoder returns exactly the entries lying wholly before the cut |
| FileList.EntryReads | src/src/cluster/cluster.rs:738-777 | an entry that lies at the cursor is read back |
| FileList.CutEntryIsDropped | src/src/cluster/cluster.rs:738-777 | an entry cut anywhere inside yields nothing |
| FileList.DecodeLoop | src/src/cluster/cluster.rs:738-777 | the loop on the message buffer is that decoder |
| FileList.PopEntry | src/src/cluster/cluster.rs:744-771 | one entry read in place, or nothing when it did not arrive whole |
| FileList.HandleFileListResponse | src/src/cluster/cluster.rs:704-780 | unknown or cut uuid: no request is touched; missing count: an error; otherwise the whole entries are made available, and no other request changes |
| ConnectionHealth.Health.CheckPings | src/src/cluster/manager.rs:651-700 | exactly the connections without a pong that have a miss on record are evicted, all of them masters with two earlier checks without a word; one found online at every check since its last pong or its registration exactly at the third check after it; exactly the clusters of the evicted go offline, and every other online master connection is pinged |
| ConnectionHealth.Health.CountMisses | src/src/cluster/manager.rs:652-670 | each silent connection is counted once; the dead are those now at two |
| ConnectionHealth.Health.Evict | src/src/cluster/manager.rs:673-687 | eviction takes a connection out of every map and its cluster offline |
| ConnectionHealth.Health.PingAll | src/src/cluster/manager.rs:689-699 | pings exactly the online master connections and forgets their pongs |
| ConnectionHealth.Health.HandlePong | src/src/cluster/manager.rs:1009-1020 | a pong counts only for a connection still present, so no tracking entry outlives its connection |
| ConnectionHealth.Health.Register | src/src/cluster/manager.rs:702-717 | a registration inserts the connection with a pong, brings its cluster online and touches nothing else |
| ConnectionHealth.Health.Attach | src/src/cluster/manager.rs:807-850 | a dedicated connection enters the map without tracking entries, and its cluster goes online |
| ConnectionHealth.Health.RemoveConnection | src/src/cluster/manager.rs:944-1007 | a download leaves the map exactly if its session was still `Connected` to it, which is then `Closing` with the reason the exit calls for; any other connection always leaves; no tracking entry is left behind in either case |
| ConnectionHealth.SilentSince | src/src/cluster/manager.rs:651-700 | the count of silent checks is exactly the number of checks since the last pong or registration |
| Reconnect.AttemptsBackOff | src/src/cluster/manager.rs:461-491 | the (k+1)-th attempt of an offline period comes at least base * (2^k - 1) seconds after the first, until the arithmetic caps |
| Reconnect.CappedBackOff | src/src/cluster/manager.rs:466-468 | once it caps, attempts are the largest 64-bit number of seconds apart |
| Reconnect.BackoffValue | src/src/cluster/manager.rs:466-468 | the saturating product is the doubled base until it exceeds 64 bits, and the maximum from then on |
| Reconnect.Reconnector.OfflinePeriodBacksOff | src/src/cluster/manager.rs:461-491 | the bound holds of the attempts recorded in every reachable state |
| Reconnect.Reconnector.TryReconnect | src/src/cluster/manager.rs:434-491 | tries exactly an offline cluster without a key of its own that has no attempt yet or whose backoff, in seconds, has passed since the last, and records that attempt |
| Reconnect.Reconnector.ReconnectClusters | src/src/cluster/manager.rs:426-575 | one pass tries exactly the clusters that are due and records one attempt each |
| Reconnect.Reconnector.Registered | src/src/cluster/manager.rs:702-716 | a registration restarts that cluster's sequence and no other |
| Paths.WeakCanonical | src/src/http/utils.rs:153-185 | the loop computes the canonical form of the components it reads |
| Paths.BodyOfJoined | src/src/http/utils.rs:153-185 | components written out are read back, with or without a trailing separator |
| PathTheorems.Idempotent | src/src/http/utils.rs:153-185 | canonicalising twice changes nothing |
| PathTheorems.Compositional | src/src/http/utils.rs:153-185 | canonicalising a prefix first changes nothing, for every path and every relative rest |
| PathTheorems.CanonicalShape | src/src/http/utils.rs:156-182 | absolute results contain no `..`, relative ones only as a leading run |
| PathTheorems.SamePlace | src/src/http/utils.rs:152-185 | the canonical path leads where the path does, from every directory |
| PathTheorems.SameResultIffSamePlaces | src/src/http/utils.rs:152-185 | two paths get the same result if and only if they lead to the same place from every directory |
| PathTheorems.RenderReads | src/src/http/utils.rs:184-184 | a canonical result reads back as its components |
| PathFilter.FilterFiles | src/src/http/utils.rs:208-270 | for canonical names: recursively exactly the entries whose components extend the target's, otherwise the target and its direct children, in order; for any names, exactly those meeting the comparison |
| PathFilter.IsWithin | src/src/http/utils.rs:190-203 | component-wise prefix, both ways |
| PathFilter.MatchesBelongs | src/src/http/utils.rs:236-266 | for a canonical name the string comparisons decide exactly where the entry lies, the root included |
| PathFilter.ParentOfRooted | src/src/http/utils.rs:237-261 | the parent of a canonical path is all but its last component, and the root has none |

## Left out

Scheduler and upload
- Shutdown of the scheduler, pruner and resend tasks (`running`, `stop`), and the resend of jobs.
- What becomes of a dequeued message: a closed connection discards it, a failed send is logged.
- Overflow of the queued byte counter and of `received_bytes` at 64 bits; both are unbounded here.
- Deadlines as real time: a drain wait ends after any number of wake-ups.
- The rest of `upload_file` (session, length check, confirmation wait) and the contents of its error replies.
- Atomics are sequentially consistent, and an atomic update and the notification after it are one step where nothing reads in between.

Downloads
- Task cancellation in the middle of a cleanup or of a socket's handler: only the normal exit sequence is modelled, with the guard's completion at its end.
- The ping and pong entries that a download's cleanup drops (they are in `ConnectionHealth.dfy`), `terminate_download_tasks`, and the close frame.
- The shutdown flag: rejection at admission is a free choice of the protocol (`Refuse`), triggers of `ApplicationShutdown` are like any other, and the HTTP handler's lookups do not consult it.
- Upload, key and UUID connections of `handle_new_connection`.
- That every session reaches `Closed`, or that dropping the body always triggers cleanup: neither holds of the code. `ClosingIsLeftBehind` and `DroppedWhileResuming` are the inputs, `ClosedIffRetained` and `DroppedBodyFires` say when.
- The closed event of the exit guard, which is only logged.
- The failing send of a chunk: the receiver lives in the same shared state as the sender.
- The pause lock shared by the downloads of one cluster: it orders handlers only, and a download has one.
- The order on the wire of PAUSE and RESUME, which travel under different sources.
- DownloadStream.BackpressureExact: says nothing of how much is buffered, because chunks in flight after a pause are the cluster's choice.

Codec
- That every truncated message is rejected, or that what is missing reads as zero: neither holds. `CutRecordRejected` says when a cut record is rejected, `CutRecordReads` what it is read as otherwise, `CutIdReadAsState` gives an input; other messages are not treated.
- The floating-point and 16-bit integer readers (no record uses them), and allocation capacity.
- Database effects of the record handlers; a deletion is only the id it is made for.

Health and paths
- In this part calls of the manager are atomic steps, the session an exit looks up is a parameter (its races are the download protocol's), and the two tables of reconnect attempts are only cleared together.
- That a master cluster has at most one connection, which the key path does not ensure.
- Connection attempts themselves (SSH, Kerberos), the tokens they use, and the 32-bit limit of the attempt counter.
- Paths that are not text, and prefixes of other platforms.
- PathFilter.FilterFiles: for names that are not canonical only the comparison the code makes is stated, because the code promises nothing more for them.

Everything else
- HTTP routing, authentication, migrations, configuration, logging, and the SQL handlers' tables: branch by branch checks or library calls that would only add easy members.
