/**
 The HTTP handler of a download, from the creation of its session to its response, under the pre-response
 guard. Between any two of its accesses every other task may run, and the socket may update the transfer.
*/
module DownloadResponse {
  import opened Wrappers
  import opened DownloadSession
  import opened DownloadProtocol
  import opened DownloadTheorems
  import opened DownloadTasks
  import opened DownloadManager

  /** Where the handler can be dropped: sending the request, waiting for an answer, and two uses of a lock. */
  datatype AwaitPoint = Requesting | Waiting | NotingTimeout | ReadingError

  /** The transfer after the socket has run, during an await of the handler or between two of its accesses. */
  datatype Look = Look(during: Option<AwaitPoint>, error: bool)

  /** What the handler reads of the transfer. */
  class TransferFlags {
    var error: bool
    var receivedData: bool
    var fileSize: nat
    ghost var announced: seq<nat>   // the sizes of FILE_DETAILS messages so far
    ghost var flagged: bool         // a message of the socket has flagged an error
    ghost var seen: seq<Look>

    /** The size is stored before `received_data` is raised. */
    ghost predicate Valid()
      reads this
    {
      && (receivedData ==> announced != []) && (flagged ==> error)
      && fileSize == (if announced == [] then 0 else announced[|announced|-1])
    }

    constructor ()
      ensures Valid() && announced == [] && seen == [] && !error && !flagged && !receivedData
    {
      error, receivedData, fileSize, announced, flagged, seen := false, false, 0, [], false, [];
    }

    /** Any messages of the socket. The body handles none; callers may assume no more than the contract. */
    method SocketRuns(ghost during: Option<AwaitPoint>)
      requires Valid()
      modifies this
      ensures Valid() && old(announced) <= announced
      ensures (old(flagged) ==> flagged) && error == (old(error) || flagged)
      ensures old(receivedData) ==> receivedData
      ensures seen == old(seen) + [Look(during, error)]
    {
      seen := seen + [Look(during, error)];
    }
  }

  /** Fires its reason when dropped, unless it was fired or disarmed before. */
  class PreResponseGuard {
    var trigger: Option<SessionId>
    const reason: Reason

    constructor (trigger: Option<SessionId>, reason: Reason)
      ensures this.trigger == trigger && this.reason == reason
    {
      this.trigger, this.reason := trigger, reason;
    }

    /** `trigger`, which consumes the guard. */
    method Fire(manager: ClusterManager, reason: Reason) returns (won: bool, ghost fired: seq<nat>)
      requires manager.Valid()
      requires trigger.Some? ==> trigger.value in manager.sessions && trigger.value !in manager.creating
      modifies this, manager
      ensures manager.Valid() && old(manager.steps) <= manager.steps && trigger == None
      ensures manager.shots == old(manager.shots) + fired
      ensures old(trigger).None? ==> !won && fired == []
      ensures !won ==> manager.Now() == old(manager.Now())
      ensures old(trigger).Some? ==> Ended(manager, old(trigger).value, reason, won, fired)
      ensures old(trigger).Some? ==> won == !Left(old(manager.sessions)[old(trigger).value].state)
    {
      won, fired := false, [];
      if trigger.Some? {
        ghost var sofar := manager.steps;
        ghost var at;
        won, at := manager.Trigger(trigger.value, reason);
        assert manager.steps[..at] == sofar;
        fired := [at];
        trigger := None;
      }
    }

    /** `into_trigger`: someone else is responsible from now on. */
    method IntoTrigger() returns (session: Option<SessionId>)
      modifies this
      ensures trigger == None && session == old(trigger)
    {
      session := trigger;
      trigger := None;
    }

    /** The fallback, at the end of the guard's scope. */
    method Drop(manager: ClusterManager) returns (won: bool, ghost fired: seq<nat>)
      requires manager.Valid()
      requires trigger.Some? ==> trigger.value in manager.sessions && trigger.value !in manager.creating
      modifies this, manager
      ensures manager.Valid() && old(manager.steps) <= manager.steps && trigger == None
      ensures manager.shots == old(manager.shots) + fired
      ensures old(trigger).None? ==> !won && fired == []
      ensures !won ==> manager.Now() == old(manager.Now())
      ensures old(trigger).Some? ==> Ended(manager, old(trigger).value, reason, won, fired)
    {
      won, fired := Fire(manager, reason);
    }
  }

  /**
   The session has left, by this task's one `Fire` step or an earlier one. It won if and only if that step found
   the session open, and then its reason is on record.
  */
  ghost predicate Ended(manager: ClusterManager, s: SessionId, reason: Reason, won: bool, fired: seq<nat>)
    reads manager
  {
    && s in manager.sessions && Left(manager.sessions[s].state)
    && (won ==> manager.sessions[s].state.reason == reason)
    && |fired| == 1 && fired[0] < |manager.steps| && manager.steps[fired[0]] == Fire(s, reason)
    && won == FoundOpen(manager.steps, fired[0], s)
  }

  /** Before its step at `p`, the run knew the session, still open. */
  ghost predicate FoundOpen(steps: seq<Step>, p: nat, s: SessionId)
    requires p <= |steps|
  {
    var before := Run(steps[..p]);
    before.Some? && s in before.value.sessions && !Left(before.value.sessions[s].state)
  }

  datatype Response =
    | InvalidJobId | SessionNotFound   // 400, before anything was read of the transfer
    | TransferFailed                   // 400, an error or no answer in time
    | ClusterGone                      // 503
    | Cancelled(at: AwaitPoint)        // none: the client left, and the handler was dropped there
    | Streaming(size: nat)

  /** The handler's session is created and is the one it created. */
  ghost predicate Live(manager: ClusterManager, transfer: TransferFlags, s: SessionId, uuid: Uuid)
    reads manager, transfer
  {
    && manager.Valid() && transfer.Valid()
    && s in manager.sessions && s !in manager.creating && manager.sessions[s].uuid == uuid
  }

  /** The guard holds the session, or came too late for it. */
  ghost predicate Guarded(manager: ClusterManager, guard: PreResponseGuard, s: SessionId)
    reads manager, guard
  {
    && guard.reason == ResponseError
    && (guard.trigger == Some(s)
        || (guard.trigger == None && s in manager.sessions && Left(manager.sessions[s].state)))
  }

  /** As `Ended`, but a session that was gone before the guard was made leaves nothing to fire. */
  ghost predicate Refused(manager: ClusterManager, s: SessionId, reason: Reason, won: bool, fired: seq<nat>)
    reads manager
  {
    Ended(manager, s, reason, won, fired)
    || (!won && fired == [] && s in manager.sessions && Left(manager.sessions[s].state))
  }

  /** Everyone else runs; the session stays known, created and itself. */
  method OthersRun(manager: ClusterManager, transfer: TransferFlags, guard: PreResponseGuard,
                   s: SessionId, uuid: Uuid, ghost during: Option<AwaitPoint>)
    requires Live(manager, transfer, s, uuid) && Guarded(manager, guard, s)
    modifies manager, transfer
    ensures Live(manager, transfer, s, uuid) && Guarded(manager, guard, s)
    ensures old(manager.steps) <= manager.steps && manager.shots == old(manager.shots)
    ensures uuid !in manager.fileDownloadMap ==> Left(manager.sessions[s].state)
    ensures uuid in manager.fileDownloadMap ==> manager.fileDownloadMap[uuid] == s
    ensures Heard(transfer, old(transfer.error), old(transfer.flagged), old(transfer.seen), during)
    ensures old(transfer.announced) <= transfer.announced && (old(transfer.receivedData) ==> transfer.receivedData)
  {
    hide Run, Inv;
    manager.Interfere(Task(Caller, {}));
    UnpublishedLeft(manager.Now(), s);
    transfer.SocketRuns(during);
  }

  /** Since then the socket has run once; an error that is new is one it has flagged. */
  ghost predicate Heard(transfer: TransferFlags, error: bool, flagged: bool, seen: seq<Look>,
                        during: Option<AwaitPoint>)
    reads transfer
  {
    && (flagged ==> transfer.flagged) && transfer.error == (error || transfer.flagged)
    && transfer.seen == seen + [Look(during, transfer.error)]
  }

  /** An await of the handler. A client that leaves there drops the handler, and with it the guard. */
  method Await(manager: ClusterManager, transfer: TransferFlags, guard: PreResponseGuard, s: SessionId, uuid: Uuid,
               point: AwaitPoint, leaves: AwaitPoint -> bool)
    returns (won: bool, ghost fired: seq<nat>)
    requires Live(manager, transfer, s, uuid) && Guarded(manager, guard, s)
    modifies manager, transfer, guard
    ensures manager.Valid() && transfer.Valid() && old(manager.steps) <= manager.steps
    ensures manager.shots == old(manager.shots) + fired
    ensures if leaves(point) then Refused(manager, s, ResponseError, won, fired)
            else Live(manager, transfer, s, uuid) && Guarded(manager, guard, s) && !won && fired == []
    ensures !leaves(point) && uuid !in manager.fileDownloadMap ==> Left(manager.sessions[s].state)
    ensures !leaves(point) && uuid in manager.fileDownloadMap ==> manager.fileDownloadMap[uuid] == s
    ensures Heard(transfer, old(transfer.error), old(transfer.flagged), old(transfer.seen), Some(point))
    ensures old(transfer.announced) <= transfer.announced && (old(transfer.receivedData) ==> transfer.receivedData)
  {
    hide Run, Inv;
    OthersRun(manager, transfer, guard, s, uuid, Some(point));
    won, fired := false, [];
    if leaves(point) {
      won, fired := guard.Drop(manager);
    }
  }

  /** A refusal, with the guard's trigger if there was one to hold. */
  method Refuse(manager: ClusterManager, guard: PreResponseGuard, reason: Reason, s: SessionId)
    returns (won: bool, ghost fired: seq<nat>)
    requires manager.Valid() && s in manager.sessions && s !in manager.creating && Guarded(manager, guard, s)
    modifies manager, guard
    ensures manager.Valid() && old(manager.steps) <= manager.steps && guard.trigger == None
    ensures manager.shots == old(manager.shots) + fired
    ensures Refused(manager, s, reason, won, fired)
    ensures won == (old(guard.trigger).Some? && !Left(old(manager.sessions)[s].state))
    ensures !won ==> manager.Now() == old(manager.Now())
  {
    won, fired := guard.Fire(manager, reason);
  }

  /** What each answer means: how the session ended, and what the handler found. */
  ghost predicate Answers(manager: ClusterManager, transfer: TransferFlags, s: SessionId, uuid: Uuid, inTime: bool,
                          leaves: AwaitPoint -> bool, response: Response, won: bool, fired: seq<nat>)
    reads manager, transfer
  {
    match response
    case InvalidJobId => Refused(manager, s, ResponseError, won, fired)
    case SessionNotFound =>
      Refused(manager, s, ResponseError, won, fired) && !won && uuid !in manager.fileDownloadMap
    case TransferFailed =>
      Refused(manager, s, FileError, won, fired) && transfer.error && (inTime ==> transfer.flagged)
    case ClusterGone =>
      && Refused(manager, s, ClusterOffline, won, fired)
      && inTime && !transfer.receivedData && NoErrorByTheAnswer(transfer)
    case Cancelled(at) => Refused(manager, s, ResponseError, won, fired) && leaves(at)
    case Streaming(size) =>
      && inTime && transfer.receivedData && size in transfer.announced && NoErrorByTheAnswer(transfer)
      && !leaves(Requesting) && !leaves(Waiting)
  }

  /** No error had been flagged when the wait for an answer ended. */
  ghost predicate NoErrorByTheAnswer(transfer: TransferFlags)
    reads transfer
  {
    Look(Some(Waiting), false) in transfer.seen
  }

  /** The details must have come; the size is read once they have. */
  method ReadDetails(manager: ClusterManager, transfer: TransferFlags, guard: PreResponseGuard,
                     s: SessionId, uuid: Uuid)
    returns (response: Response, won: bool, ghost fired: seq<nat>)
    requires Live(manager, transfer, s, uuid) && Guarded(manager, guard, s)
    modifies manager, transfer, guard
    ensures manager.Valid() && transfer.Valid() && old(manager.steps) <= manager.steps
    ensures manager.shots == old(manager.shots) + fired
    ensures old(transfer.seen) <= transfer.seen && (old(transfer.flagged) ==> transfer.flagged)
    ensures response.ClusterGone? || response.Streaming?
    ensures response.ClusterGone? ==> Refused(manager, s, ClusterOffline, won, fired) && !transfer.receivedData
    ensures response.Streaming? ==> Handed(manager, transfer, guard, s, uuid, response.size) && !won && fired == []
  {
    hide Refused, Run, Guarded;
    OthersRun(manager, transfer, guard, s, uuid, None);
    if !transfer.receivedData {
      won, fired := Refuse(manager, guard, ClusterOffline, s);
      return ClusterGone, won, fired;
    }
    OthersRun(manager, transfer, guard, s, uuid, None);
    return Streaming(transfer.fileSize), false, [];
  }

  /** Nothing has been refused: the size is one the cluster announced, and the guard is still armed. */
  ghost predicate Handed(manager: ClusterManager, transfer: TransferFlags, guard: PreResponseGuard, s: SessionId,
                         uuid: Uuid, size: nat)
    reads manager, transfer, guard
  {
    && Live(manager, transfer, s, uuid) && Guarded(manager, guard, s)
    && transfer.receivedData && size in transfer.announced
  }

  lemma StillSeen(seen: seq<Look>, longer: seq<Look>, look: Look)
    requires look in seen && seen <= longer
    ensures look in longer
  {
    var i :| 0 <= i < |seen| && seen[i] == look;
    assert longer[i] == look;
  }

  /** After the answer: an error flagged by anyone is refused with its details. */
  method CheckTransfer(manager: ClusterManager, transfer: TransferFlags, guard: PreResponseGuard, s: SessionId,
                       uuid: Uuid, ghost inTime: bool, leaves: AwaitPoint -> bool)
    returns (response: Response, won: bool, ghost fired: seq<nat>)
    requires Live(manager, transfer, s, uuid) && Guarded(manager, guard, s)
    requires inTime ==> transfer.error == transfer.flagged && Look(Some(Waiting), transfer.error) in transfer.seen
    requires !inTime ==> transfer.error
    requires !leaves(Requesting) && !leaves(Waiting)
    modifies manager, transfer, guard
    ensures manager.Valid() && transfer.Valid() && old(manager.steps) <= manager.steps
    ensures manager.shots == old(manager.shots) + fired
    ensures Answers(manager, transfer, s, uuid, inTime, leaves, response, won, fired)
    ensures !response.InvalidJobId? && !response.SessionNotFound?
    ensures response.Streaming? ==> Handed(manager, transfer, guard, s, uuid, response.size) && !won && fired == []
  {
    hide Refused, Run, Guarded;
    OthersRun(manager, transfer, guard, s, uuid, None);
    if transfer.error {
      won, fired := Await(manager, transfer, guard, s, uuid, ReadingError, leaves);
      if leaves(ReadingError) {
        return Cancelled(ReadingError), won, fired;
      }
      won, fired := Refuse(manager, guard, FileError, s);
      return TransferFailed, won, fired;
    }
    ghost var seen := transfer.seen;
    response, won, fired := ReadDetails(manager, transfer, guard, s, uuid);
    StillSeen(seen, transfer.seen, Look(Some(Waiting), false));
  }

  /**
   The wait for the transfer (`inTime`: before its deadline); without an answer the handler flags an error
   itself.
  */
  method AwaitTransfer(manager: ClusterManager, transfer: TransferFlags, guard: PreResponseGuard, s: SessionId,
                       uuid: Uuid, inTime: bool, leaves: AwaitPoint -> bool)
    returns (response: Response, won: bool, ghost fired: seq<nat>)
    requires Live(manager, transfer, s, uuid) && Guarded(manager, guard, s)
    requires transfer.error == transfer.flagged && !leaves(Requesting)
    modifies manager, transfer, guard
    ensures manager.Valid() && transfer.Valid() && old(manager.steps) <= manager.steps
    ensures manager.shots == old(manager.shots) + fired
    ensures Answers(manager, transfer, s, uuid, inTime, leaves, response, won, fired)
    ensures !response.InvalidJobId? && !response.SessionNotFound?
    ensures response.Streaming? ==> Handed(manager, transfer, guard, s, uuid, response.size) && !won && fired == []
  {
    hide Refused, Run, Guarded;
    won, fired := Await(manager, transfer, guard, s, uuid, Waiting, leaves);
    if leaves(Waiting) {
      return Cancelled(Waiting), won, fired;
    }
    if !inTime {
      transfer.error := true;
      won, fired := Await(manager, transfer, guard, s, uuid, NotingTimeout, leaves);
      if leaves(NotingTimeout) {
        return Cancelled(NotingTimeout), won, fired;
      }
    }
    response, won, fired := CheckTransfer(manager, transfer, guard, s, uuid, inTime, leaves);
  }

  /** What may be refused before the body exists. */
  method Prepare(manager: ClusterManager, transfer: TransferFlags, guard: PreResponseGuard, s: SessionId, uuid: Uuid,
                 jobIdFits: bool, inTime: bool, leaves: AwaitPoint -> bool)
    returns (response: Response, won: bool, ghost fired: seq<nat>)
    requires Live(manager, transfer, s, uuid) && Guarded(manager, guard, s) && transfer.error == transfer.flagged
    modifies manager, transfer, guard
    ensures manager.Valid() && transfer.Valid() && old(manager.steps) <= manager.steps
    ensures manager.shots == old(manager.shots) + fired
    ensures Answers(manager, transfer, s, uuid, inTime, leaves, response, won, fired)
    ensures response.InvalidJobId? <==> !jobIdFits
    ensures response.Streaming? ==> Handed(manager, transfer, guard, s, uuid, response.size) && !won && fired == []
  {
    hide Refused, Run, Guarded;
    if !jobIdFits {
      won, fired := Refuse(manager, guard, ResponseError, s);
      return InvalidJobId, won, fired;
    }
    won, fired := Await(manager, transfer, guard, s, uuid, Requesting, leaves);
    if leaves(Requesting) {
      return Cancelled(Requesting), won, fired;
    }
    if uuid !in manager.fileDownloadMap {
      won, fired := Refuse(manager, guard, ResponseError, s);
      return SessionNotFound, won, fired;
    }
    response, won, fired := AwaitTransfer(manager, transfer, guard, s, uuid, inTime, leaves);
  }

  /** The session with its transfer, and the guard over it: armed unless the session has already gone. */
  method Begin(manager: ClusterManager, s: SessionId, uuid: Uuid)
    returns (transfer: TransferFlags, guard: PreResponseGuard)
    requires manager.Valid() && Creatable(manager.Now(), s, uuid)
    modifies manager
    ensures fresh(transfer) && fresh(guard) && guard.reason == ResponseError
    ensures old(manager.steps) <= manager.steps && manager.shots == old(manager.shots)
    ensures Live(manager, transfer, s, uuid) && Guarded(manager, guard, s) && !transfer.error && !transfer.flagged
  {
    hide Run, Inv;
    transfer := new TransferFlags();
    manager.CreateFileDownload(s, uuid);
    manager.Interfere(Task(Caller, {}));
    UnpublishedLeft(manager.Now(), s);
    var held := uuid in manager.fileDownloadMap;
    guard := new PreResponseGuard(if held then Some(manager.fileDownloadMap[uuid]) else None, ResponseError);
  }

  /**
   Every refusal, and a handler dropped at any await, finds the session ended or ends it, and records the
   handler's own reason if it won; an empty file is complete at once; a stream for a non-empty one is handed
   out with a size the cluster has announced, without this task having fired anything, and its owner holds the
   session's trigger unless the session has gone. A download that is answered in time and without an error, for
   a session still mapped and a client that stays, is streamed.
  */
  method RespondToDownload(manager: ClusterManager, s: SessionId, uuid: Uuid,
                           jobIdFits: bool, inTime: bool, leaves: AwaitPoint -> bool)
    returns (transfer: TransferFlags, response: Response, owner: Option<SessionId>, won: bool, ghost fired: seq<nat>)
    requires manager.Valid() && Creatable(manager.Now(), s, uuid)
    modifies manager
    ensures fresh(transfer) && manager.Valid() && transfer.Valid() && old(manager.steps) <= manager.steps
    ensures manager.shots == old(manager.shots) + fired
    ensures Answers(manager, transfer, s, uuid, inTime, leaves, response, won, fired)
    ensures response.InvalidJobId? <==> !jobIdFits
    ensures response == Streaming(0) ==> Refused(manager, s, Complete, won, fired)
    ensures response.Streaming? && response.size > 0 ==>
              && !won && fired == []
              && s in manager.sessions && (owner == Some(s) || (owner == None && Left(manager.sessions[s].state)))
    ensures !response.Streaming? || response.size == 0 ==> owner == None
    ensures jobIdFits && inTime && !transfer.flagged && transfer.receivedData && uuid in manager.fileDownloadMap
            && (forall point :: !leaves(point))
            ==> response.Streaming?
  {
    hide Refused, Run;
    owner := None;
    var guard;
    transfer, guard := Begin(manager, s, uuid);
    response, won, fired := Prepare(manager, transfer, guard, s, uuid, jobIdFits, inTime, leaves);
    if response == Streaming(0) {
      won, fired := Refuse(manager, guard, Complete, s);
    } else if response.Streaming? {
      owner := guard.IntoTrigger();
    }
  }
}
