/** Which cut-off record encodings `from_message` rejects. */
module CutRecords {
  import opened Bytes
  import opened Wire
  import opened Records

  /** The reading stops at a string whose length prefix claims more than is left. */
  predicate Rejected(kinds: seq<Kind>, data: Data, index: nat)
    requires index <= |data|
    decreases |kinds|
  {
    kinds != []
    && ((kinds[0] == KString && TryPopString(data, index).0.None?)
        || Rejected(kinds[1..], data, Pop(kinds[0], data, index).1))
  }

  /** The cut lies behind the length prefix of a string and before the string's end. */
  predicate CutInString(fields: seq<Field>, cut: nat)
    decreases |fields|
  {
    fields != []
    && var first := |Encode(fields[0])|;
       if first <= cut then CutInString(fields[1..], cut - first) else fields[0].FString? && cut >= 8
  }

  /** With less than a length prefix left, strings read as empty and nothing is rejected any more. */
  lemma {:induction false} ShortNeverRejected(kinds: seq<Kind>, data: Data, index: nat)
    requires index <= |data| && |data| - index < 8
    ensures !Rejected(kinds, data, index)
    decreases |kinds|
  {
    if kinds != [] {
      assert TryPopString(data, index).0.Some?;
      ShortNeverRejected(kinds[1..], data, Pop(kinds[0], data, index).1);
    }
  }

  lemma CutStringRejected(text: Text, cut: nat, data: Data, index: nat)
    requires index <= |data| && 8 <= cut < |Encode(FString(text))| && data[index..] == Encode(FString(text))[..cut]
    ensures TryPopString(data, index).0.None?
  {
    hide LittleEndian, PopLe, Pow256;
    WidthsFit();
    var prefix := LittleEndian(|text|, 8);
    CutBehind(prefix, text, cut, data, index);
    PopLeReads(|text|, 8, data, index);
  }

  /** A cut list of fields without byte arrays is rejected exactly when the cut lies inside a string's text. */
  lemma {:induction false} CutRejected(fields: seq<Field>, cut: nat, data: Data, index: nat)
    requires index <= |data| && cut <= |EncodeAll(fields)| && data[index..] == EncodeAll(fields)[..cut]
    requires forall i :: 0 <= i < |fields| ==> !fields[i].FBytes?
    ensures Rejected(KindsOf(fields), data, index) <==> CutInString(fields, cut)
    decreases |fields|
  {
    hide Pop, TryPopString, LiesAt, LittleEndian;
    if fields != [] {
      var first, rest := Encode(fields[0]), EncodeAll(fields[1..]);
      KindsOfSplit(fields);
      if |first| <= cut {
        CutBehind(first, rest, cut, data, index);
        PopReads(fields[0], data, index);
        hide Encode;
        CutRejected(fields[1..], cut - |first|, data, index + |first|);
      } else {
        assert (first + rest)[..cut] == first[..cut];
        assert |data| - index == cut;
        if fields[0].FString? && cut >= 8 {
          CutStringRejected(fields[0].text, cut, data, index);
        } else {
          assert cut < 8;
          ShortNeverRejected(KindsOf(fields), data, index);
        }
      }
    }
  }

  // ----- the three records

  function KindsIn(table: Table): seq<Kind> {
    match table
    case JobTable => [KUlong, KUlong, KUlong, KBool, KUint, KString, KString, KBool, KBool, KBool]
    case StatusTable => [KUlong, KUlong, KString, KUint]
    case BundleTable => [KUlong, KString]
  }

  lemma RejectedStep(kind: Kind, rest: seq<Kind>, data: Data, index: nat)
    requires index <= |data|
    ensures Rejected([kind] + rest, data, index)
       <==> (kind == KString && TryPopString(data, index).0.None?) || Rejected(rest, data, Pop(kind, data, index).1)
  {
    assert ([kind] + rest)[1..] == rest;
  }

  lemma NoString(kinds: seq<Kind>, data: Data, index: nat)
    requires index <= |data| && KString !in kinds
    ensures !Rejected(kinds, data, index)
    decreases |kinds|
  {
    if kinds != [] {
      NoString(kinds[1..], data, Pop(kinds[0], data, index).1);
    }
  }

  /** Read or not, the cursor stands where both readings of a string leave it. */
  lemma StringCursor(data: Data, index: nat)
    requires index <= |data| && TryPopString(data, index).0.Some?
    ensures Pop(KString, data, index).1 == TryPopString(data, index).1
  {
  }

  lemma StatusOrBundleRejected(table: Table, data: Data, index: nat)
    requires index <= |data| && !table.JobTable?
    ensures ParseRecord(table, data, index).0.None? <==> Rejected(KindsIn(table), data, index)
  {
    hide PopUlong, TryPopString, PopUint, PopString, Rejected;
    var i1 := PopUlong(data, index).1;
    var i2 := PopUlong(data, i1).1;
    RejectedStep(KUlong, KindsIn(table)[1..], data, index);
    assert KindsIn(table) == [KUlong] + KindsIn(table)[1..];
    if table.StatusTable? {
      assert KindsIn(table)[1..] == [KUlong] + [KString, KUint];
      RejectedStep(KUlong, [KString, KUint], data, i1);
      assert [KString, KUint] == [KString] + [KUint];
      RejectedStep(KString, [KUint], data, i2);
      NoString([KUint], data, Pop(KString, data, i2).1);
    } else {
      assert KindsIn(table)[1..] == [KString] + [];
      RejectedStep(KString, [], data, i1);
      NoString([], data, Pop(KString, data, i1).1);
    }
  }

  /** The fixed-size fields a job starts with reject nothing. */
  lemma JobHeadPasses(data: Data, index: nat)
    requires index <= |data|
    ensures Rejected(KindsIn(JobTable), data, index)
       <==> Rejected([KString, KString, KBool, KBool, KBool], data, ParseJobHead(data, index).1)
  {
    hide PopUlong, PopUint, PopBool, Rejected, TryPopString;
    var tail := [KString, KString, KBool, KBool, KBool];
    var i1 := PopUlong(data, index).1;
    var i2 := PopUlong(data, i1).1;
    var i3 := PopUlong(data, i2).1;
    var i4 := PopBool(data, i3).1;
    assert KindsIn(JobTable) == [KUlong] + ([KUlong] + ([KUlong] + ([KBool] + ([KUint] + tail))));
    RejectedStep(KUlong, [KUlong] + ([KUlong] + ([KBool] + ([KUint] + tail))), data, index);
    RejectedStep(KUlong, [KUlong] + ([KBool] + ([KUint] + tail)), data, i1);
    RejectedStep(KUlong, [KBool] + ([KUint] + tail), data, i2);
    RejectedStep(KBool, [KUint] + tail, data, i3);
    RejectedStep(KUint, tail, data, i4);
  }

  /** One of the two strings that lie at the cursor is truncated. */
  predicate TwoStringsCut(data: Data, index: nat)
    requires index <= |data|
  {
    var (first, next) := TryPopString(data, index);
    first.None? || TryPopString(data, next).0.None?
  }

  lemma TwoStringsRejected(data: Data, index: nat)
    requires index <= |data|
    ensures Rejected([KString, KString, KBool, KBool, KBool], data, index) <==> TwoStringsCut(data, index)
  {
    hide Pop, Rejected, TryPopString;
    var flags := [KBool, KBool, KBool];
    assert [KString, KString, KBool, KBool, KBool] == [KString] + ([KString] + flags);
    RejectedStep(KString, [KString] + flags, data, index);
    if TryPopString(data, index).0.Some? {
      StringCursor(data, index);
      var next := TryPopString(data, index).1;
      RejectedStep(KString, flags, data, next);
      NoString(flags, data, Pop(KString, data, next).1);
    }
  }

  lemma JobParsed(data: Data, index: nat)
    requires index <= |data|
    ensures ParseClusterJob(data, index).0.None? <==> TwoStringsCut(data, ParseJobHead(data, index).1)
  {
    hide ParseJobHead, TryPopString, PopBool;
  }

  lemma JobRejected(data: Data, index: nat)
    requires index <= |data|
    ensures ParseClusterJob(data, index).0.None? <==> Rejected(KindsIn(JobTable), data, index)
  {
    hide ParseJobHead, ParseClusterJob, Rejected, TwoStringsCut, KindsIn;
    JobHeadPasses(data, index);
    JobParsed(data, index);
    TwoStringsRejected(data, ParseJobHead(data, index).1);
  }

  /** `from_message` rejects a record exactly when one of its strings is truncated. */
  lemma ParseRejected(table: Table, data: Data, index: nat)
    requires index <= |data|
    ensures ParseRecord(table, data, index).0.None? <==> Rejected(KindsIn(table), data, index)
  {
    hide Rejected, ParseClusterJob;
    if table.JobTable? {
      JobRejected(data, index);
    } else {
      StatusOrBundleRejected(table, data, index);
    }
  }

  lemma KindsOfRecord(record: Record)
    ensures KindsOf(FieldsOf(record)) == KindsIn(TableOf(record))
    ensures forall i :: 0 <= i < |FieldsOf(record)| ==> !FieldsOf(record)[i].FBytes?
  {
  }

  /**
   For every record and every cut point: the cut encoding is rejected if and only if the cut lies behind a
   string's length prefix and before that string's end. Any other cut is read.
  */
  lemma CutRecordRejected(record: Record, cut: nat, data: Data, index: nat)
    requires index <= |data| && cut <= |EncodeRecord(record)| && data[index..] == EncodeRecord(record)[..cut]
    ensures ParseRecord(TableOf(record), data, index).0.None? <==> CutInString(FieldsOf(record), cut)
  {
    hide FieldsOf, KindsOf, KindsIn, ParseRecord, Rejected, CutInString, EncodeAll;
    KindsOfRecord(record);
    ParseRejected(TableOf(record), data, index);
    CutRejected(FieldsOf(record), cut, data, index);
  }
}
