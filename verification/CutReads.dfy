/** What `from_message` reads from a cut-off record that it does not reject. */
module CutReads {
  import opened Wrappers
  import opened Bytes
  import opened Wire
  import opened Records
  import opened CutRecords

  /**
   What fields of these kinds read from the few bytes left of a field that was cut: one that does not fit is zero or
   empty and leaves them to the next.
  */
  function Leftover(kinds: seq<Kind>, rest: Data): (fields: seq<Field>)
    requires |rest| < 8
    ensures |fields| == |kinds|
  {
    if kinds == [] then []
    else
      match kinds[0]
      case KBool =>
        if rest == [] then [FBool(false)] + Leftover(kinds[1..], [])
        else [FBool(rest[0] == 1)] + Leftover(kinds[1..], rest[1..])
      case KUbyte =>
        if rest == [] then [FUbyte(0)] + Leftover(kinds[1..], [])
        else [FUbyte(rest[0])] + Leftover(kinds[1..], rest[1..])
      case KUint =>
        if |rest| < 4 then [FUint(0)] + Leftover(kinds[1..], rest)
        else WidthsFit(); [FUint(FromLittleEndian(rest[..4]))] + Leftover(kinds[1..], rest[4..])
      case KUlong => [FUlong(0)] + Leftover(kinds[1..], rest)
      case KString => [FString([])] + Leftover(kinds[1..], rest)
      case KBytes => [FBytes([])] + Leftover(kinds[1..], rest)
  }

  predicate NoBytes(fields: seq<Field>) {
    forall i :: 0 <= i < |fields| ==> !fields[i].FBytes?
  }

  /** The fields that lie wholly before the cut, then what the others read from the bytes behind them. */
  function CutFields(fields: seq<Field>, cut: nat): seq<Field>
    requires cut <= |EncodeAll(fields)| && !CutInString(fields, cut)
    requires NoBytes(fields)
    decreases |fields|
  {
    if fields == [] then []
    else if |Encode(fields[0])| <= cut then [fields[0]] + CutFields(fields[1..], cut - |Encode(fields[0])|)
    else Leftover(KindsOf(fields), Encode(fields[0])[..cut])
  }

  /** With fewer than eight bytes left, 64-bit integers and lengths read as zero and nothing is consumed. */
  lemma ShortReads(data: Data, index: nat)
    requires index <= |data| && |data| - index < 8
    ensures Pop(KUlong, data, index) == (FUlong(0), index)
    ensures Pop(KString, data, index) == (FString([]), index)
    ensures Pop(KBytes, data, index) == (FBytes([]), index)
  {
    hide FromLittleEndian, Pow256;
    WidthsFit();
    assert PopUlong(data, index) == (0, index);
    assert data[index..index] == [];
  }

  lemma LeftoverUint(data: Data, index: nat)
    requires index <= |data| && |data| - index < 8
    ensures FromLittleEndian(data[index..]) >= 0
    ensures |data| - index < 4 ==> Pop(KUint, data, index) == (FUint(0), index)
    ensures |data| - index >= 4 ==>
              && FromLittleEndian(data[index..][..4]) < U32_SIZE
              && Pop(KUint, data, index) == (FUint(FromLittleEndian(data[index..][..4])), index + 4)
  {
    hide FromLittleEndian, Pow256;
    WidthsFit();
    if |data| - index >= 4 {
      assert data[index..index + 4] == data[index..][..4];
    }
  }

  lemma LeftoverStep(kinds: seq<Kind>, data: Data, index: nat)
    requires kinds != [] && index <= |data| && |data| - index < 8
    ensures var (field, next) := Pop(kinds[0], data, index);
            Leftover(kinds, data[index..]) == [field] + Leftover(kinds[1..], data[next..])
  {
    match kinds[0] {
      case KUint =>
        hide FromLittleEndian, Pow256, Pop;
        LeftoverUint(data, index);
        if |data| - index >= 4 {
          assert data[index..][4..] == data[index + 4..];
        }
      case KBool => LeftoverByte(data, index);
      case KUbyte => LeftoverByte(data, index);
      case _ =>
        hide FromLittleEndian, Pow256, Pop;
        ShortReads(data, index);
    }
  }

  lemma LeftoverByte(data: Data, index: nat)
    requires index <= |data|
    ensures index == |data| ==> PopUbyte(data, index) == (0, index) && data[index..] == []
    ensures index < |data| ==>
              && PopUbyte(data, index) == (data[index..][0], index + 1)
              && data[index..][1..] == data[index + 1..]
  {
  }

  lemma {:induction false} LeftoverReads(kinds: seq<Kind>, data: Data, index: nat)
    requires index <= |data| && |data| - index < 8
    ensures PopAll(kinds, data, index).0 == Leftover(kinds, data[index..])
    decreases |kinds|
  {
    hide Pop;
    if kinds != [] {
      LeftoverStep(kinds, data, index);
      LeftoverReads(kinds[1..], data, Pop(kinds[0], data, index).1);
    }
  }

  /** At a cut between two fields everything missing reads as zero, false or empty. */
  function Defaults(kinds: seq<Kind>): seq<Field> {
    if kinds == [] then []
    else
      [match kinds[0]
       case KBool => FBool(false)
       case KUbyte => FUbyte(0)
       case KUint => FUint(0)
       case KUlong => FUlong(0)
       case KString => FString([])
       case KBytes => FBytes([])] + Defaults(kinds[1..])
  }

  lemma {:induction false} NothingLeftOver(kinds: seq<Kind>)
    ensures Leftover(kinds, []) == Defaults(kinds)
  {
    if kinds != [] {
      NothingLeftOver(kinds[1..]);
    }
  }

  /** The cut lies in the first field. */
  lemma FirstFieldCut(fields: seq<Field>, cut: nat, data: Data, index: nat)
    requires fields != [] && cut < |Encode(fields[0])| && !CutInString(fields, cut)
    requires index <= |data| && data[index..] == EncodeAll(fields)[..cut]
    requires cut <= |EncodeAll(fields)| && NoBytes(fields)
    ensures PopAll(KindsOf(fields), data, index).0 == CutFields(fields, cut)
  {
    hide PopAll, Leftover, KindsOf, LittleEndian;
    assert cut < 8;
    assert EncodeAll(fields)[..cut] == Encode(fields[0])[..cut];
    assert |data| - index == cut;
    LeftoverReads(KindsOf(fields), data, index);
  }

  lemma PopFirst(fields: seq<Field>, data: Data, index: nat)
    requires fields != [] && LiesAt(Encode(fields[0]), data, index)
    ensures index + |Encode(fields[0])| <= |data|
    ensures PopAll(KindsOf(fields), data, index).0
         == [fields[0]] + PopAll(KindsOf(fields[1..]), data, index + |Encode(fields[0])|).0
  {
    hide Pop, Encode;
    KindsOfSplit(fields);
    PopReads(fields[0], data, index);
  }

  lemma FirstFieldWhole(fields: seq<Field>, cut: nat)
    requires cut <= |EncodeAll(fields)| && fields != [] && |Encode(fields[0])| <= cut && !CutInString(fields, cut)
    requires NoBytes(fields)
    ensures var rest, behind := fields[1..], cut - |Encode(fields[0])|;
      && behind <= |EncodeAll(rest)| && !CutInString(rest, behind)
      && NoBytes(rest)
      && CutFields(fields, cut) == [fields[0]] + CutFields(rest, behind)
      && EncodeAll(fields) == Encode(fields[0]) + EncodeAll(rest)
  {
    hide Encode;
  }

  lemma NoFieldsRead(fields: seq<Field>, cut: nat, data: Data, index: nat)
    requires fields == [] && cut <= |EncodeAll(fields)| && index <= |data| && !CutInString(fields, cut)
    ensures PopAll(KindsOf(fields), data, index).0 == CutFields(fields, cut)
  {
    assert KindsOf(fields) == [];
  }

  lemma {:induction false} CutFieldsRead(fields: seq<Field>, cut: nat, data: Data, index: nat)
    requires index <= |data| && cut <= |EncodeAll(fields)| && data[index..] == EncodeAll(fields)[..cut]
    requires NoBytes(fields) && !CutInString(fields, cut)
    ensures PopAll(KindsOf(fields), data, index).0 == CutFields(fields, cut)
    decreases |fields|
  {
    hide *;
    if fields == [] {
      NoFieldsRead(fields, cut, data, index);
    } else if |Encode(fields[0])| <= cut {
      FirstFieldWhole(fields, cut);
      CutBehind(Encode(fields[0]), EncodeAll(fields[1..]), cut, data, index);
      PopFirst(fields, data, index);
      CutFieldsRead(fields[1..], cut - |Encode(fields[0])|, data, index + |Encode(fields[0])|);
    } else {
      FirstFieldCut(fields, cut, data, index);
    }
  }

  // ----- a record that is read has the fields popped

  lemma PopStep(kind: Kind, rest: seq<Kind>, data: Data, index: nat)
    requires index <= |data|
    ensures var (field, next) := Pop(kind, data, index);
            PopAll([kind] + rest, data, index) == ([field] + PopAll(rest, data, next).0, PopAll(rest, data, next).1)
  {
    assert ([kind] + rest)[1..] == rest;
  }

  lemma PopNone(data: Data, index: nat)
    requires index <= |data|
    ensures PopAll([], data, index) == ([], index)
  {
  }

  lemma StringRead(data: Data, index: nat)
    requires index <= |data| && TryPopString(data, index).0.Some?
    ensures Pop(KString, data, index) == (FString(TryPopString(data, index).0.value), TryPopString(data, index).1)
  {
  }

  lemma SignsCancel()
    ensures forall n: u64 :: Unsigned64(Signed64(n)) == n
    ensures forall n: u32 :: Unsigned32(Signed32(n)) == n
  {
  }

  lemma StatusFields(data: Data, index: nat)
    requires index <= |data| && ParseRecord(StatusTable, data, index).0.Some?
    ensures FieldsOf(ParseRecord(StatusTable, data, index).0.value) == PopAll(KindsIn(StatusTable), data, index).0
  {
    hide PopUlong, TryPopString, PopUint, PopString, PopAll, Unsigned64, Signed64, Unsigned32, Signed32;
    SignsCancel();
    var i1 := PopUlong(data, index).1;
    var i2 := PopUlong(data, i1).1;
    var i3 := TryPopString(data, i2).1;
    assert KindsIn(StatusTable) == [KUlong] + ([KUlong] + ([KString] + ([KUint] + [])));
    PopStep(KUlong, [KUlong] + ([KString] + ([KUint] + [])), data, index);
    PopStep(KUlong, [KString] + ([KUint] + []), data, i1);
    PopStep(KString, [KUint] + [], data, i2);
    StringRead(data, i2);
    PopStep(KUint, [], data, i3);
    PopNone(data, PopUint(data, i3).1);
  }

  lemma BundleFields(data: Data, index: nat)
    requires index <= |data| && ParseRecord(BundleTable, data, index).0.Some?
    ensures FieldsOf(ParseRecord(BundleTable, data, index).0.value) == PopAll(KindsIn(BundleTable), data, index).0
  {
    hide PopUlong, TryPopString, PopString, PopAll, Unsigned64, Signed64;
    SignsCancel();
    var i1 := PopUlong(data, index).1;
    assert KindsIn(BundleTable) == [KUlong] + ([KString] + []);
    PopStep(KUlong, [KString] + [], data, index);
    PopStep(KString, [], data, i1);
    StringRead(data, i1);
    PopNone(data, TryPopString(data, i1).1);
  }

  const HEAD_KINDS: seq<Kind> := [KUlong, KUlong, KUlong, KBool, KUint]
  const TAIL_KINDS: seq<Kind> := [KString, KString, KBool, KBool, KBool]

  lemma {:induction false} PopConcat(first: seq<Kind>, second: seq<Kind>, data: Data, index: nat)
    requires index <= |data|
    ensures PopAll(first + second, data, index).0
         == PopAll(first, data, index).0 + PopAll(second, data, PopAll(first, data, index).1).0
    decreases |first|
  {
    hide Pop;
    if first == [] {
      assert first + second == second;
    } else {
      assert first == [first[0]] + first[1..] && first + second == [first[0]] + (first[1..] + second);
      PopStep(first[0], first[1..], data, index);
      PopStep(first[0], first[1..] + second, data, index);
      PopConcat(first[1..], second, data, Pop(first[0], data, index).1);
    }
  }

  lemma HeadFieldsRead(data: Data, index: nat)
    requires index <= |data|
    ensures PopAll(HEAD_KINDS, data, index).0 == HeadFields(ParseJobHead(data, index).0)
    ensures PopAll(HEAD_KINDS, data, index).1 == ParseJobHead(data, index).1
  {
    hide PopUlong, PopUint, PopBool, PopAll, Unsigned64, Signed64, Unsigned32, Signed32;
    SignsCancel();
    var i1 := PopUlong(data, index).1;
    var i2 := PopUlong(data, i1).1;
    var i3 := PopUlong(data, i2).1;
    var i4 := PopBool(data, i3).1;
    assert HEAD_KINDS == [KUlong] + ([KUlong] + ([KUlong] + ([KBool] + ([KUint] + []))));
    PopStep(KUlong, [KUlong] + ([KUlong] + ([KBool] + ([KUint] + []))), data, index);
    PopStep(KUlong, [KUlong] + ([KBool] + ([KUint] + [])), data, i1);
    PopStep(KUlong, [KBool] + ([KUint] + []), data, i2);
    PopStep(KBool, [KUint] + [], data, i3);
    PopStep(KUint, [], data, i4);
    PopNone(data, PopUint(data, i4).1);
    assert PopAll(HEAD_KINDS, data, index).0
        == [FUlong(PopUlong(data, index).0), FUlong(PopUlong(data, i1).0), FUlong(PopUlong(data, i2).0),
            FBool(PopBool(data, i3).0), FUint(PopUint(data, i4).0)];
  }

  lemma TailFieldsRead(data: Data, index: nat)
    requires index <= |data| && ParseClusterJob(data, index).0.Some?
    ensures PopAll(TAIL_KINDS, data, ParseJobHead(data, index).1).0 == TailOf(ParseClusterJob(data, index).0.value)
  {
    hide ParseJobHead, TryPopString, PopString, PopBool, PopAll;
    var i1 := ParseJobHead(data, index).1;
    var i2 := TryPopString(data, i1).1;
    var i3 := TryPopString(data, i2).1;
    var i4 := PopBool(data, i3).1;
    var i5 := PopBool(data, i4).1;
    assert TAIL_KINDS == [KString] + ([KString] + ([KBool] + ([KBool] + ([KBool] + []))));
    PopStep(KString, [KString] + ([KBool] + ([KBool] + ([KBool] + []))), data, i1);
    StringRead(data, i1);
    PopStep(KString, [KBool] + ([KBool] + ([KBool] + [])), data, i2);
    StringRead(data, i2);
    PopStep(KBool, [KBool] + ([KBool] + []), data, i3);
    PopStep(KBool, [KBool] + [], data, i4);
    PopStep(KBool, [], data, i5);
    PopNone(data, PopBool(data, i5).1);
  }

  /** A record that is read, from any bytes, is the one whose fields are popped one after the other. */
  lemma ParsedFields(table: Table, data: Data, index: nat)
    requires index <= |data| && ParseRecord(table, data, index).0.Some?
    ensures FieldsOf(ParseRecord(table, data, index).0.value) == PopAll(KindsIn(table), data, index).0
  {
    match table
    case StatusTable => StatusFields(data, index);
    case BundleTable => BundleFields(data, index);
    case JobTable =>
      hide PopAll, ParseJobHead, TryPopString, PopBool;
      HeadFieldsRead(data, index);
      TailFieldsRead(data, index);
      assert KindsIn(JobTable) == HEAD_KINDS + TAIL_KINDS;
      PopConcat(HEAD_KINDS, TAIL_KINDS, data, index);
      JobFields(data, index);
  }

  lemma JobFields(data: Data, index: nat)
    requires index <= |data| && ParseClusterJob(data, index).0.Some?
    ensures var record := ParseClusterJob(data, index).0.value;
            FieldsOf(record) == HeadFields(ParseJobHead(data, index).0) + TailOf(record)
  {
    hide ParseJobHead, TryPopString, PopBool;
  }

  /**
   For every record and every cut that is not rejected: the fields lying wholly before the cut are read back, and
   the missing ones read what the bytes of the cut field make of them, zero or empty where those do not suffice.
  */
  lemma CutRecordReads(record: Record, cut: nat, data: Data, index: nat)
    requires index <= |data| && cut <= |EncodeRecord(record)| && data[index..] == EncodeRecord(record)[..cut]
    requires !CutInString(FieldsOf(record), cut)
    ensures NoBytes(FieldsOf(record))
    ensures ParseRecord(TableOf(record), data, index).0.Some?
    ensures FieldsOf(ParseRecord(TableOf(record), data, index).0.value) == CutFields(FieldsOf(record), cut)
  {
    hide FieldsOf, KindsOf, KindsIn, ParseRecord, CutInString, EncodeAll, CutFields, PopAll;
    KindsOfRecord(record);
    CutRecordRejected(record, cut, data, index);
    ParsedFields(TableOf(record), data, index);
    CutFieldsRead(FieldsOf(record), cut, data, index);
  }

  /**
   What does not hold: that a missing field reads as zero. A status cut behind the fourth byte of its id reads those
   bytes as its state.
  */
  lemma CutIdReadAsState()
    ensures var record := ClusterJobStatus(1, 0, [], 0);
            var data := EncodeRecord(record)[..4];
            ParseRecord(StatusTable, data, 0).0 == Some(ClusterJobStatus(0, 0, [], 1))
  {
    var record := ClusterJobStatus(1, 0, [], 0);
    var fields := FieldsOf(record);
    assert Encode(fields[0]) == LittleEndian(1, 8) && fields != [];
    FourBytesOfOne();
    assert EncodeAll(fields) == Encode(fields[0]) + EncodeAll(fields[1..]);
    var data := EncodeRecord(record)[..4];
    assert data == [1, 0, 0, 0] == data[0..4];
    hide LittleEndian, EncodeAll;
    FourBytesRead();
  }

  lemma FourBytesOfOne()
    ensures LittleEndian(1, 8)[..4] == [1, 0, 0, 0]
  {
    assert LittleEndian(0, 5) == [0] + LittleEndian(0, 4);
    assert LittleEndian(0, 6) == [0] + LittleEndian(0, 5);
    assert LittleEndian(0, 7) == [0] + LittleEndian(0, 6);
    assert LittleEndian(1, 8) == [1] + LittleEndian(0, 7);
  }

  lemma FourBytesRead()
    ensures FromLittleEndian([1, 0, 0, 0]) == 1
  {
    assert [1, 0, 0, 0][1..] == [0, 0, 0] && [0, 0, 0][1..] == [0, 0] && [0, 0][1..] == [0] && [0][1..] == [];
    assert FromLittleEndian([]) == 0;
    assert FromLittleEndian([0]) == 0;
    assert FromLittleEndian([0, 0]) == 0;
    assert FromLittleEndian([0, 0, 0]) == 0;
  }
}
