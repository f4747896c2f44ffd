/** The records exchanged with cluster clients, multi-row responses and the id-list request. */
module Records {
  import opened Wrappers
  import opened Bytes
  import opened PriorityQueue
  import opened Wire
  import opened MessageBuffer

  const I32_LIMIT: int := 0x8000_0000
  const I64_LIMIT: int := 0x8000_0000_0000_0000

  type i32 = n: int | -I32_LIMIT <= n < I32_LIMIT
  type i64 = n: int | -I64_LIMIT <= n < I64_LIMIT

  /* Two's-complement reinterpretation, as `cast_unsigned` and `cast_signed`. */

  function Unsigned32(n: i32): u32 {
    if n < 0 then n + U32_SIZE else n
  }

  function Signed32(n: u32): i32 {
    if n >= I32_LIMIT then n - U32_SIZE else n
  }

  function Unsigned64(n: i64): u64 {
    if n < 0 then n + U64_SIZE else n
  }

  function Signed64(n: u64): i64 {
    if n >= I64_LIMIT then n - U64_SIZE else n
  }

  datatype Record =
    | ClusterJob(
        id: i64, jobId: i64, schedulerId: i64, submitting: bool, submittingCount: i32,
        bundleHash: Text, workingDirectory: Text, running: bool, deleting: bool, deleted: bool)
    | ClusterJobStatus(id: i64, jobId: i64, what: Text, state: i32)
    | BundleJob(id: i64, content: Text)

  datatype Table = JobTable | StatusTable | BundleTable

  function TableOf(record: Record): Table {
    match record
    case ClusterJob(_, _, _, _, _, _, _, _, _, _) => JobTable
    case ClusterJobStatus(_, _, _, _) => StatusTable
    case BundleJob(_, _) => BundleTable
  }

  /** The wire fields of a record, in order. */
  function FieldsOf(record: Record): seq<Field> {
    match record
    case ClusterJob(id, jobId, schedulerId, submitting, count, hash, directory, running, deleting, deleted) =>
      [FUlong(Unsigned64(id)), FUlong(Unsigned64(jobId)), FUlong(Unsigned64(schedulerId)), FBool(submitting),
       FUint(Unsigned32(count)), FString(hash), FString(directory), FBool(running), FBool(deleting), FBool(deleted)]
    case ClusterJobStatus(id, jobId, what, state) =>
      [FUlong(Unsigned64(id)), FUlong(Unsigned64(jobId)), FString(what), FUint(Unsigned32(state))]
    case BundleJob(id, content) =>
      [FUlong(Unsigned64(id)), FString(content)]
  }

  function EncodeRecord(record: Record): Data {
    EncodeAll(FieldsOf(record))
  }

  /** `from_message`: absent when one of the strings is truncated. */
  function ParseRecord(table: Table, data: Data, index: nat): (r: (Option<Record>, nat))
    requires index <= |data|
    ensures index <= r.1 <= |data|
    ensures r.0.Some? ==> TableOf(r.0.value) == table
  {
    match table
    case JobTable => ParseClusterJob(data, index)
    case StatusTable =>
      var (id, i1) := PopUlong(data, index);
      var (jobId, i2) := PopUlong(data, i1);
      var (what, i3) := TryPopString(data, i2);
      if what.None? then (None, i3)
      else
        var (state, i4) := PopUint(data, i3);
        (Some(ClusterJobStatus(Signed64(id), Signed64(jobId), what.value, Signed32(state))), i4)
    case BundleTable =>
      var (id, i1) := PopUlong(data, index);
      var (content, i2) := TryPopString(data, i1);
      (if content.None? then None else Some(BundleJob(Signed64(id), content.value)), i2)
  }

  /** The fixed-size fields a cluster job starts with. */
  datatype JobHead = JobHead(id: i64, jobId: i64, schedulerId: i64, submitting: bool, submittingCount: i32)

  function HeadFields(head: JobHead): seq<Field> {
    [FUlong(Unsigned64(head.id)), FUlong(Unsigned64(head.jobId)), FUlong(Unsigned64(head.schedulerId)),
     FBool(head.submitting), FUint(Unsigned32(head.submittingCount))]
  }

  function TailFields(hash: Text, directory: Text, running: bool, deleting: bool, deleted: bool): seq<Field> {
    [FString(hash), FString(directory), FBool(running), FBool(deleting), FBool(deleted)]
  }

  function ParseJobHead(data: Data, index: nat): (r: (JobHead, nat))
    requires index <= |data|
    ensures index <= r.1 <= |data|
  {
    var (id, i1) := PopUlong(data, index);
    var (jobId, i2) := PopUlong(data, i1);
    var (schedulerId, i3) := PopUlong(data, i2);
    var (submitting, i4) := PopBool(data, i3);
    var (count, i5) := PopUint(data, i4);
    (JobHead(Signed64(id), Signed64(jobId), Signed64(schedulerId), submitting, Signed32(count)), i5)
  }

  function ParseClusterJob(data: Data, index: nat): (r: (Option<Record>, nat))
    requires index <= |data|
    ensures index <= r.1 <= |data|
    ensures r.0.Some? ==> r.0.value.ClusterJob?
  {
    var (head, i1) := ParseJobHead(data, index);
    var (hash, i2) := TryPopString(data, i1);
    if hash.None? then (None, i2)
    else
      var (directory, i3) := TryPopString(data, i2);
      if directory.None? then (None, i3)
      else
        var (running, i4) := PopBool(data, i3);
        var (deleting, i5) := PopBool(data, i4);
        var (deleted, i6) := PopBool(data, i5);
        (Some(ClusterJob(head.id, head.jobId, head.schedulerId, head.submitting, head.submittingCount,
                         hash.value, directory.value, running, deleting, deleted)), i6)
  }

  /** Read the field at position `k` of an encoded list; the rest of the list lies behind it. */
  lemma ReadField(fields: seq<Field>, k: nat, data: Data, start: nat) returns (next: nat)
    requires k < |fields| && LiesAt(EncodeAll(fields[k..]), data, start)
    ensures next <= |data| && Pop(KindOf(fields[k]), data, start) == (fields[k], next)
    ensures fields[k].FString? ==> TryPopString(data, start) == (Some(fields[k].text), next)
    ensures LiesAt(EncodeAll(fields[k + 1..]), data, next)
    ensures next + |EncodeAll(fields[k + 1..])| == start + |EncodeAll(fields[k..])|
  {
    hide Encode;
    var field, rest := fields[k], fields[k + 1..];
    assert fields[k..][0] == field && fields[k..][1..] == rest;
    LiesAtParts(Encode(field), EncodeAll(rest), data, start);
    PopReads(field, data, start);
    next := start + |Encode(field)|;
  }

  lemma ReadUlong(fields: seq<Field>, k: nat, data: Data, start: nat) returns (next: nat)
    requires k < |fields| && fields[k].FUlong? && LiesAt(EncodeAll(fields[k..]), data, start)
    ensures next <= |data| && PopUlong(data, start) == (fields[k].ulong, next)
    ensures LiesAt(EncodeAll(fields[k + 1..]), data, next)
    ensures next + |EncodeAll(fields[k + 1..])| == start + |EncodeAll(fields[k..])|
  {
    hide LiesAt, EncodeAll, PopUlong;
    next := ReadField(fields, k, data, start);
  }

  lemma ReadUint(fields: seq<Field>, k: nat, data: Data, start: nat) returns (next: nat)
    requires k < |fields| && fields[k].FUint? && LiesAt(EncodeAll(fields[k..]), data, start)
    ensures next <= |data| && PopUint(data, start) == (fields[k].uint, next)
    ensures LiesAt(EncodeAll(fields[k + 1..]), data, next)
    ensures next + |EncodeAll(fields[k + 1..])| == start + |EncodeAll(fields[k..])|
  {
    hide LiesAt, EncodeAll, PopUint;
    next := ReadField(fields, k, data, start);
  }

  lemma ReadBool(fields: seq<Field>, k: nat, data: Data, start: nat) returns (next: nat)
    requires k < |fields| && fields[k].FBool? && LiesAt(EncodeAll(fields[k..]), data, start)
    ensures next <= |data| && PopBool(data, start) == (fields[k].flag, next)
    ensures LiesAt(EncodeAll(fields[k + 1..]), data, next)
    ensures next + |EncodeAll(fields[k + 1..])| == start + |EncodeAll(fields[k..])|
  {
    hide LiesAt, EncodeAll, PopBool;
    next := ReadField(fields, k, data, start);
  }

  lemma ReadString(fields: seq<Field>, k: nat, data: Data, start: nat) returns (next: nat)
    requires k < |fields| && fields[k].FString? && LiesAt(EncodeAll(fields[k..]), data, start)
    ensures next <= |data| && TryPopString(data, start) == (Some(fields[k].text), next)
    ensures LiesAt(EncodeAll(fields[k + 1..]), data, next)
    ensures next + |EncodeAll(fields[k + 1..])| == start + |EncodeAll(fields[k..])|
  {
    hide LiesAt, EncodeAll, TryPopString;
    next := ReadField(fields, k, data, start);
  }

  lemma EncodeNothing()
    ensures EncodeAll([]) == []
  {
  }

  /** Every record, negative numbers included, survives the wire. */
  lemma RecordRoundTrip(record: Record, data: Data, index: nat)
    requires index <= |data| && LiesAt(EncodeRecord(record), data, index)
    ensures ParseRecord(TableOf(record), data, index) == (Some(record), index + |EncodeRecord(record)|)
  {
    hide LiesAt, EncodeAll, ParseClusterJob, PopUlong, PopUint, TryPopString;
    if record.ClusterJob? {
      ClusterJobRoundTrip(record, data, index);
    } else {
      var fields := FieldsOf(record);
      EncodeNothing();
      assert fields[0..] == fields && fields[|fields|..] == [];
      var next := ReadUlong(fields, 0, data, index);
      if record.BundleJob? {
        next := ReadString(fields, 1, data, next);
      } else {
        next := ReadUlong(fields, 1, data, next);
        next := ReadString(fields, 2, data, next);
        next := ReadUint(fields, 3, data, next);
      }
    }
  }

  lemma JobHeadRoundTrip(head: JobHead, data: Data, index: nat)
    requires index <= |data| && LiesAt(EncodeAll(HeadFields(head)), data, index)
    ensures ParseJobHead(data, index) == (head, index + |EncodeAll(HeadFields(head))|)
  {
    hide LiesAt, EncodeAll, PopUlong, PopUint, PopBool;
    var fields := HeadFields(head);
    EncodeNothing();
    assert fields[0..] == fields && fields[5..] == [];
    var i1 := ReadUlong(fields, 0, data, index);
    var i2 := ReadUlong(fields, 1, data, i1);
    var i3 := ReadUlong(fields, 2, data, i2);
    var i4 := ReadBool(fields, 3, data, i3);
    var i5 := ReadUint(fields, 4, data, i4);
  }

  lemma ClusterJobRoundTrip(record: Record, data: Data, index: nat)
    requires record.ClusterJob? && index <= |data| && LiesAt(EncodeRecord(record), data, index)
    ensures ParseClusterJob(data, index) == (Some(record), index + |EncodeRecord(record)|)
  {
    hide LiesAt, EncodeAll, PopBool, TryPopString, ParseJobHead, HeadFields;
    var head := HeadOf(record);
    var fields := TailOf(record);
    SplitJob(record);
    LiesAtParts(EncodeAll(HeadFields(head)), EncodeAll(fields), data, index);
    JobHeadRoundTrip(head, data, index);
    EncodeNothing();
    assert fields[0..] == fields && fields[5..] == [];
    var i1 := index + |EncodeAll(HeadFields(head))|;
    var i2 := ReadString(fields, 0, data, i1);
    var i3 := ReadString(fields, 1, data, i2);
    var i4 := ReadBool(fields, 2, data, i3);
    var i5 := ReadBool(fields, 3, data, i4);
    var i6 := ReadBool(fields, 4, data, i5);
  }

  function HeadOf(record: Record): JobHead
    requires record.ClusterJob?
  {
    JobHead(record.id, record.jobId, record.schedulerId, record.submitting, record.submittingCount)
  }

  function TailOf(record: Record): seq<Field>
    requires record.ClusterJob?
  {
    TailFields(record.bundleHash, record.workingDirectory, record.running, record.deleting, record.deleted)
  }

  lemma SplitJob(record: Record)
    requires record.ClusterJob?
    ensures EncodeRecord(record) == EncodeAll(HeadFields(HeadOf(record))) + EncodeAll(TailOf(record))
  {
    hide EncodeAll;
    assert FieldsOf(record) == HeadFields(HeadOf(record)) + TailOf(record);
    EncodeAllConcat(HeadFields(HeadOf(record)), TailOf(record));
  }

  /* ---- The same, on the message buffer ---- */

  /** The buffer holds what it started with, then these fields. */
  ghost predicate Wrote(data: Data, start: Data, done: seq<Field>) {
    data == start + EncodeAll(done)
  }

  lemma WroteNothing(start: Data)
    ensures Wrote(start, start, [])
  {
  }

  lemma WroteField(done: seq<Field>, field: Field, start: Data, before: Data, after: Data)
    requires Wrote(before, start, done) && after == before + Encode(field)
    ensures Wrote(after, start, done + [field])
  {
    EncodeAllConcat(done, [field]);
    assert [field][1..] == [];
    EncodeNothing();
    Reassociate(start, EncodeAll(done), Encode(field));
  }

  lemma WroteAll(data: Data, start: Data, done: seq<Field>)
    requires Wrote(data, start, done)
    ensures data == start + EncodeAll(done)
  {
  }

  method ToMessage(record: Record, msg: Message)
    modifies msg`data
    ensures msg.data == old(msg.data) + EncodeRecord(record)
  {
    hide EncodeAll, Encode, Wrote;
    if record.ClusterJob? {
      ClusterJobToMessage(record, msg);
      return;
    }
    ghost var done, start, seen := [], msg.data, msg.data;
    WroteNothing(start);
    if record.ClusterJobStatus? {
      msg.PushUlong(Unsigned64(record.id));
      WroteField(done, FUlong(Unsigned64(record.id)), start, seen, msg.data);
      done, seen := done + [FUlong(Unsigned64(record.id))], msg.data;
      msg.PushUlong(Unsigned64(record.jobId));
      WroteField(done, FUlong(Unsigned64(record.jobId)), start, seen, msg.data);
      done, seen := done + [FUlong(Unsigned64(record.jobId))], msg.data;
      msg.PushString(record.what);
      WroteField(done, FString(record.what), start, seen, msg.data);
      done, seen := done + [FString(record.what)], msg.data;
      msg.PushUint(Unsigned32(record.state));
      WroteField(done, FUint(Unsigned32(record.state)), start, seen, msg.data);
      done, seen := done + [FUint(Unsigned32(record.state))], msg.data;
    } else {
      msg.PushUlong(Unsigned64(record.id));
      WroteField(done, FUlong(Unsigned64(record.id)), start, seen, msg.data);
      done, seen := done + [FUlong(Unsigned64(record.id))], msg.data;
      msg.PushString(record.content);
      WroteField(done, FString(record.content), start, seen, msg.data);
      done, seen := done + [FString(record.content)], msg.data;
    }
    assert done == FieldsOf(record);
    WroteAll(msg.data, start, done);
  }

  method ClusterJobToMessage(record: Record, msg: Message)
    requires record.ClusterJob?
    modifies msg`data
    ensures msg.data == old(msg.data) + EncodeRecord(record)
  {
    hide EncodeAll, HeadFields, TailFields;
    JobHeadToMessage(HeadOf(record), msg);
    JobTailToMessage(record, msg);
    SplitJob(record);
    Reassociate(old(msg.data), EncodeAll(HeadFields(HeadOf(record))), EncodeAll(TailOf(record)));
  }

  method JobTailToMessage(record: Record, msg: Message)
    requires record.ClusterJob?
    modifies msg`data
    ensures msg.data == old(msg.data) + EncodeAll(TailOf(record))
  {
    hide EncodeAll, Encode, Wrote;
    ghost var done, start, seen := [], msg.data, msg.data;
    WroteNothing(start);
    msg.PushString(record.bundleHash);
    WroteField(done, FString(record.bundleHash), start, seen, msg.data);
    done, seen := done + [FString(record.bundleHash)], msg.data;
    msg.PushString(record.workingDirectory);
    WroteField(done, FString(record.workingDirectory), start, seen, msg.data);
    done, seen := done + [FString(record.workingDirectory)], msg.data;
    msg.PushBool(record.running);
    WroteField(done, FBool(record.running), start, seen, msg.data);
    done, seen := done + [FBool(record.running)], msg.data;
    msg.PushBool(record.deleting);
    WroteField(done, FBool(record.deleting), start, seen, msg.data);
    done, seen := done + [FBool(record.deleting)], msg.data;
    msg.PushBool(record.deleted);
    WroteField(done, FBool(record.deleted), start, seen, msg.data);
    done, seen := done + [FBool(record.deleted)], msg.data;
    assert done == TailOf(record);
  }

  lemma Reassociate(a: Data, b: Data, c: Data)
    ensures (a + b) + c == a + (b + c)
  {
  }

  method JobHeadToMessage(head: JobHead, msg: Message)
    modifies msg`data
    ensures msg.data == old(msg.data) + EncodeAll(HeadFields(head))
  {
    hide EncodeAll, Encode, Wrote;
    ghost var done, start, seen := [], msg.data, msg.data;
    WroteNothing(start);
    msg.PushUlong(Unsigned64(head.id));
    WroteField(done, FUlong(Unsigned64(head.id)), start, seen, msg.data);
    done, seen := done + [FUlong(Unsigned64(head.id))], msg.data;
    msg.PushUlong(Unsigned64(head.jobId));
    WroteField(done, FUlong(Unsigned64(head.jobId)), start, seen, msg.data);
    done, seen := done + [FUlong(Unsigned64(head.jobId))], msg.data;
    msg.PushUlong(Unsigned64(head.schedulerId));
    WroteField(done, FUlong(Unsigned64(head.schedulerId)), start, seen, msg.data);
    done, seen := done + [FUlong(Unsigned64(head.schedulerId))], msg.data;
    msg.PushBool(head.submitting);
    WroteField(done, FBool(head.submitting), start, seen, msg.data);
    done, seen := done + [FBool(head.submitting)], msg.data;
    msg.PushUint(Unsigned32(head.submittingCount));
    WroteField(done, FUint(Unsigned32(head.submittingCount)), start, seen, msg.data);
    done, seen := done + [FUint(Unsigned32(head.submittingCount))], msg.data;
    assert done == HeadFields(head);
    WroteAll(msg.data, start, done);
  }

  method FromMessage(table: Table, msg: Message) returns (record: Option<Record>)
    requires msg.Valid()
    modifies msg`index
    ensures msg.Valid() && (record, msg.index) == ParseRecord(table, msg.data, old(msg.index))
  {
    match table {
      case JobTable =>
        record := ClusterJobFromMessage(msg);
      case StatusTable =>
        var id := msg.PopUlong();
        var jobId := msg.PopUlong();
        var what := msg.TryPopString();
        if what.None? {
          return None;
        }
        var state := msg.PopUint();
        record := Some(ClusterJobStatus(Signed64(id), Signed64(jobId), what.value, Signed32(state)));
      case BundleTable =>
        var id := msg.PopUlong();
        var content := msg.TryPopString();
        if content.None? {
          return None;
        }
        record := Some(BundleJob(Signed64(id), content.value));
    }
  }

  method ClusterJobFromMessage(msg: Message) returns (record: Option<Record>)
    requires msg.Valid()
    modifies msg`index
    ensures msg.Valid() && (record, msg.index) == ParseClusterJob(msg.data, old(msg.index))
  {
    hide Wire.PopBool, Wire.TryPopString, ParseJobHead;
    var head := JobHeadFromMessage(msg);
    var hash := msg.TryPopString();
    if hash.None? {
      return None;
    }
    var directory := msg.TryPopString();
    if directory.None? {
      return None;
    }
    var running := msg.PopBool();
    var deleting := msg.PopBool();
    var deleted := msg.PopBool();
    record := Some(ClusterJob(head.id, head.jobId, head.schedulerId, head.submitting, head.submittingCount,
                              hash.value, directory.value, running, deleting, deleted));
  }

  method JobHeadFromMessage(msg: Message) returns (head: JobHead)
    requires msg.Valid()
    modifies msg`index
    ensures msg.Valid() && (head, msg.index) == ParseJobHead(msg.data, old(msg.index))
  {
    hide Wire.PopUlong, Wire.PopUint, Wire.PopBool;
    var id := msg.PopUlong();
    var jobId := msg.PopUlong();
    var schedulerId := msg.PopUlong();
    var submitting := msg.PopBool();
    var count := msg.PopUint();
    head := JobHead(Signed64(id), Signed64(jobId), Signed64(schedulerId), submitting, Signed32(count));
  }

  /* ---- Multi-row responses ---- */

  const DB_RESPONSE: u32 := 7000
  const SYSTEM_SOURCE: Text := AsText([115, 121, 115, 116, 101, 109])   // "system"
  const U32_MAX: nat := U32_SIZE - 1

  /** Row count on the wire, clamped when it does not fit. */
  function WireRowCount(rows: nat): u32 {
    if rows < U32_SIZE then rows else U32_MAX
  }

  function EncodeRecords(rows: seq<Record>): Data {
    if rows == [] then [] else EncodeRecord(rows[0]) + EncodeRecords(rows[1..])
  }

  /** Read `count` records of one table; the first that is truncated ends the read with nothing. */
  function ParseRecords(table: Table, count: nat, data: Data, index: nat): (r: (Option<seq<Record>>, nat))
    requires index <= |data|
    ensures index <= r.1 <= |data|
  {
    if count == 0 then (Some([]), index)
    else
      var (record, next) := ParseRecord(table, data, index);
      if record.None? then (None, next)
      else
        match ParseRecords(table, count - 1, data, next)
        case (Some(records), end) => (Some([record.value] + records), end)
        case (None, end) => (None, end)
  }

  lemma {:induction false} RecordsRoundTrip(table: Table, rows: seq<Record>, data: Data, index: nat)
    requires forall i | 0 <= i < |rows| :: TableOf(rows[i]) == table
    requires LiesAt(EncodeRecords(rows), data, index)
    ensures ParseRecords(table, |rows|, data, index) == (Some(rows), index + |EncodeRecords(rows)|)
  {
    hide EncodeRecord, ParseRecord;
    if rows != [] {
      LiesAtParts(EncodeRecord(rows[0]), EncodeRecords(rows[1..]), data, index);
      RecordRoundTrip(rows[0], data, index);
      RecordsRoundTrip(table, rows[1..], data, index + |EncodeRecord(rows[0])|);
      assert [rows[0]] + rows[1..] == rows;
    }
  }

  function RowsResponse(requestId: u32, rows: seq<Record>): Data {
    Build(SYSTEM_SOURCE, DB_RESPONSE, [FUint(requestId), FUint(WireRowCount(|rows|))]) + EncodeRecords(rows)
  }

  /** What a client reads from a response: request id, rows as counted, and where it stops. */
  function ReadRowsResponse(table: Table, data: Data): (r: (u32, Option<seq<Record>>, nat)) {
    var (_, _, body) := ParseHeader(data);
    var (requestId, i1) := PopUint(data, body);
    var (count, i2) := PopUint(data, i1);
    var (rows, end) := ParseRecords(table, count, data, i2);
    (requestId, rows, end)
  }

  /** A client recovers the first `u32::MAX` rows, so all of them exactly when the count fits. */
  lemma RowsResponseRoundTrip(table: Table, requestId: u32, rows: seq<Record>)
    requires forall i | 0 <= i < |rows| :: TableOf(rows[i]) == table
    ensures var (id, read, end) := ReadRowsResponse(table, RowsResponse(requestId, rows));
            id == requestId && read == Some(rows[..WireRowCount(|rows|)])
    ensures ReadRowsResponse(table, RowsResponse(requestId, rows)).1 == Some(rows) <==> |rows| <= U32_MAX
    ensures |rows| <= U32_MAX ==>
              ReadRowsResponse(table, RowsResponse(requestId, rows)).2 == |RowsResponse(requestId, rows)|
  {
    hide EncodeRecord, ParseRecord, ParseRecords, EncodeRecords, Build, PopUint, ParseHeader, LiesAt;
    var n := WireRowCount(|rows|);
    var head := Build(SYSTEM_SOURCE, DB_RESPONSE, [FUint(requestId), FUint(n)]);
    ResponseHeadReads(requestId, n, EncodeRecords(rows));
    EncodeRecordsSplit(rows, n);
    LiesBehind(head, EncodeRecords(rows[..n]), EncodeRecords(rows[n..]));
    RecordsRoundTrip(table, rows[..n], RowsResponse(requestId, rows), |head|);
    if n == |rows| {
      assert rows[..n] == rows && rows[n..] == [];
      EncodeNoRecords();
    }
  }

  lemma LiesBehind(head: Data, part: Data, rest: Data)
    ensures LiesAt(part, head + (part + rest), |head|)
  {
  }

  lemma ResponseHeadReads(requestId: u32, count: u32, rest: Data)
    ensures var head := Build(SYSTEM_SOURCE, DB_RESPONSE, [FUint(requestId), FUint(count)]);
            var data := head + rest;
            var (_, _, body) := ParseHeader(data);
            PopUint(data, body).0 == requestId && PopUint(data, PopUint(data, body).1) == (count, |head|)
  {
    hide Encode, ParseHeader, PopUint;
    var fields := [FUint(requestId), FUint(count)];
    var head := Build(SYSTEM_SOURCE, DB_RESPONSE, fields);
    var data := head + rest;
    BuildParseRoundTrip(SYSTEM_SOURCE, DB_RESPONSE, fields, rest);
    var (_, _, body) := ParseHeader(data);
    PopTwo(fields, data, body);
    var (f, end) := PopAll(KindsOf(fields), data, body);
    assert |data[end..]| == |rest|;
  }

  lemma PopTwo(fields: seq<Field>, data: Data, index: nat)
    requires |fields| == 2 && fields[0].FUint? && fields[1].FUint? && index <= |data|
    requires PopAll(KindsOf(fields), data, index).0 == fields
    ensures PopUint(data, index).0 == fields[0].uint
    ensures PopUint(data, PopUint(data, index).1) == (fields[1].uint, PopAll(KindsOf(fields), data, index).1)
  {
    var kinds := KindsOf(fields);
    assert kinds == [KUint, KUint];
    assert kinds[1..] == [KUint] && kinds[1..][1..] == [];
    var (first, next) := Pop(kinds[0], data, index);
    var (rest, end) := PopAll(kinds[1..], data, next);
    assert PopAll(kinds, data, index) == ([first] + rest, end);
    var (second, last) := Pop(kinds[1..][0], data, next);
    assert PopAll(kinds[1..][1..], data, last) == ([], last);
    assert rest == [second] + [] && end == last;
  }

  lemma {:induction false} EncodeRecordsSplit(rows: seq<Record>, n: nat)
    requires n <= |rows|
    ensures EncodeRecords(rows) == EncodeRecords(rows[..n]) + EncodeRecords(rows[n..])
  {
    if n > 0 {
      EncodeRecordsSplit(rows[1..], n - 1);
      assert rows[..n][1..] == rows[1..][..n - 1];
      assert rows[n..] == rows[1..][n - 1..];
    } else {
      assert rows[n..] == rows;
    }
  }

  /** `send_rows_response` up to the send: count, then each row. */
  method SendRowsResponse(requestId: u32, rows: seq<Record>) returns (response: Message)
    ensures fresh(response) && response.data == RowsResponse(requestId, rows) && response.priority == Highest
  {
    hide Encode, EncodeAll, EncodeRecord, EncodeRecords, Build;
    response := new Message.New(DB_RESPONSE, Highest, SYSTEM_SOURCE);
    response.PushUint(requestId);
    response.PushUint(WireRowCount(|rows|));
    ghost var fields := [FUint(requestId), FUint(WireRowCount(|rows|))];
    EncodePair(fields[0], fields[1]);
    BuildAppends(SYSTEM_SOURCE, DB_RESPONSE, fields);
    ghost var head := response.data;
    EncodeNoRecords();
    assert rows[..0] == [];
    var i := 0;
    while i < |rows|
      invariant i <= |rows|
      invariant response.data == head + EncodeRecords(rows[..i])
    {
      ToMessage(rows[i], response);
      EncodeRecordsSnoc(rows, i);
      i := i + 1;
    }
    assert rows[..i] == rows;
  }

  lemma EncodeNoRecords()
    ensures EncodeRecords([]) == []
  {
  }

  lemma BuildAppends(source: Text, id: u32, fields: seq<Field>)
    ensures Build(source, id, fields) == Build(source, id, []) + EncodeAll(fields)
  {
    assert [FString(source), FUint(id)] + [] == [FString(source), FUint(id)];
    EncodeAllConcat([FString(source), FUint(id)], fields);
  }

  lemma EncodeRecordsSnoc(rows: seq<Record>, i: nat)
    requires i < |rows|
    ensures EncodeRecords(rows[..i + 1]) == EncodeRecords(rows[..i]) + EncodeRecord(rows[i])
  {
    EncodeRecordsSplit(rows[..i + 1], i);
    assert rows[..i + 1][..i] == rows[..i];
    assert rows[..i + 1][i..] == [rows[i]];
    assert [rows[i]][1..] == [];
    assert EncodeRecords([]) == [];
  }

  /* ---- The id list of a delete request ---- */

  /** How many ids the delete loop visits: the claimed count, bounded by what is there. */
  function IdsPresent(count: nat, remaining: nat): nat {
    if count < remaining / 8 then count else remaining / 8
  }

  function PopIds(n: nat, data: Data, index: nat): (r: (seq<i64>, nat))
    requires index <= |data|
    ensures |r.0| == n && index <= r.1 <= |data|
  {
    if n == 0 then ([], index)
    else
      var (id, next) := PopUlong(data, index);
      var (ids, end) := PopIds(n - 1, data, next);
      ([Signed64(id)] + ids, end)
  }

  function EncodeIds(ids: seq<i64>): Data {
    if ids == [] then [] else LittleEndian(Unsigned64(ids[0]), 8) + EncodeIds(ids[1..])
  }

  lemma {:induction false} EncodeIdsLength(ids: seq<i64>)
    ensures |EncodeIds(ids)| == 8 * |ids|
  {
    if ids != [] {
      EncodeIdsLength(ids[1..]);
    }
  }

  /** However short the list was cut, the loop deletes exactly the ids that arrived whole. */
  lemma {:induction false} CutIdListRoundTrip(ids: seq<i64>, count: nat, cut: nat, data: Data, index: nat)
    requires index <= |data| && cut <= |EncodeIds(ids)| && data[index..] == EncodeIds(ids)[..cut]
    ensures var n := IdsPresent(count, Remaining(data, index));
            n <= |ids| && PopIds(n, data, index).0 == ids[..n]
            && n == if count < cut / 8 then count else cut / 8
  {
    hide LittleEndian, LiesAt, Pow256;
    EncodeIdsLength(ids);
    assert Remaining(data, index) == cut;
    var n := IdsPresent(count, cut);
    if n > 0 {
      var first, rest := LittleEndian(Unsigned64(ids[0]), 8), EncodeIds(ids[1..]);
      CutBehind(first, rest, cut, data, index);
      WidthsFit();
      PopLeReads(Unsigned64(ids[0]), 8, data, index);
      EncodeIdsLength(ids[1..]);
      CutIdListRoundTrip(ids[1..], count - 1, cut - 8, data, index + 8);
      assert ids[..n] == [ids[0]] + ids[1..][..n - 1];
    }
  }

  /** The loop of `handle_jobstatus_delete_by_id_list`; `None` when the request is too short to answer. */
  method DeleteByIdList(msg: Message) returns (request: Option<u32>, deleted: seq<i64>)
    requires msg.Valid()
    modifies msg`index
    ensures msg.Valid()
    ensures Remaining(msg.data, old(msg.index)) < 8 ==> request == None && deleted == [] && msg.index == old(msg.index)
    ensures Remaining(msg.data, old(msg.index)) >= 8 ==>
              var (id, i1) := PopUint(msg.data, old(msg.index));
              var (count, i2) := PopUint(msg.data, i1);
              request == Some(id)
              && (deleted, msg.index) == PopIds(IdsPresent(count, Remaining(msg.data, i2)), msg.data, i2)
  {
    if msg.RemainingBytes() < 8 {
      return None, [];
    }
    hide Wire.PopUlong, Wire.PopUint;
    var id := msg.PopUint();
    var count := msg.PopUint();
    ghost var start := msg.index;
    var n := IdsPresent(count, msg.RemainingBytes());
    deleted := [];
    var i := 0;
    while i < n
      invariant i <= n && msg.Valid() && |deleted| == i
      invariant PopIds(n, msg.data, start).0 == deleted + PopIds(n - i, msg.data, msg.index).0
      invariant PopIds(n, msg.data, start).1 == PopIds(n - i, msg.data, msg.index).1
    {
      var next := msg.PopUlong();
      deleted := deleted + [Signed64(next)];
      i := i + 1;
    }
    assert deleted + [] == deleted;
    request := Some(id);
  }
}
