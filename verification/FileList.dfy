/** FILE_LIST responses: a decoder that keeps every entry that arrived whole, and nothing else. */
module FileList {
  import opened Wrappers
  import opened Bytes
  import opened Wire
  import opened MessageBuffer

  datatype FileInfo = FileInfo(fileName: Text, isDirectory: bool, fileSize: u64, permissions: u32)

  const MIN_ENTRY_BYTES: nat := 17

  function EncodeEntry(entry: FileInfo): Data {
    Encode(FString(entry.fileName)) + (Encode(FBool(entry.isDirectory)) + Encode(FUlong(entry.fileSize)))
  }

  function EncodeEntries(entries: seq<FileInfo>): Data {
    if entries == [] then [] else EncodeEntry(entries[0]) + EncodeEntries(entries[1..])
  }

  /** One entry at the cursor, unless too little of it is there. */
  function TryPopEntry(data: Data, index: nat): (r: Option<(FileInfo, nat)>)
    requires index <= |data|
    ensures r.Some? ==> index + MIN_ENTRY_BYTES <= r.value.1 <= |data|
  {
    if Remaining(data, index) < MIN_ENTRY_BYTES then None
    else
      var (name, i1) := TryPopString(data, index);
      if name.None? || Remaining(data, i1) < 9 then None
      else
        PastPrefix(data, index);
        var (isDirectory, i2) := PopBool(data, i1);
        var (size, i3) := PopUlong(data, i2);
        Some((FileInfo(name.value, isDirectory, size, 0), i3))
  }

  /** With eight bytes left, a string that is read moves the cursor past its length prefix. */
  lemma PastPrefix(data: Data, index: nat)
    requires index + 8 <= |data| && TryPopString(data, index).0.Some?
    ensures TryPopString(data, index).1 >= index + 8
  {
  }

  /** The decoding loop: at most `count` entries, up to the first one that is cut off. */
  function DecodeEntries(count: nat, data: Data, index: nat): (entries: seq<FileInfo>)
    requires index <= |data|
    ensures |entries| <= count && |entries| <= Remaining(data, index) / MIN_ENTRY_BYTES
  {
    if count == 0 then []
    else
      match TryPopEntry(data, index)
      case None => []
      case Some((entry, next)) => [entry] + DecodeEntries(count - 1, data, next)
  }

  /** How many entries lie wholly before the cut. */
  function WhollyBefore(entries: seq<FileInfo>, cut: nat): (n: nat)
    ensures n <= |entries|
  {
    if entries == [] || |EncodeEntry(entries[0])| > cut then 0
    else 1 + WhollyBefore(entries[1..], cut - |EncodeEntry(entries[0])|)
  }

  lemma EntryReads(entry: FileInfo, data: Data, index: nat)
    requires entry.permissions == 0 && index <= |data| && LiesAt(EncodeEntry(entry), data, index)
    ensures TryPopEntry(data, index) == Some((entry, index + |EncodeEntry(entry)|))
  {
    hide LiesAt, LittleEndian, TryPopString, PopUlong;
    var name, flag := Encode(FString(entry.fileName)), Encode(FBool(entry.isDirectory));
    var size := Encode(FUlong(entry.fileSize));
    LiesAtParts(name, flag + size, data, index);
    LiesAtParts(flag, size, data, index + |name|);
    PopReads(FString(entry.fileName), data, index);
    PopReads(FBool(entry.isDirectory), data, index + |name|);
    PopReads(FUlong(entry.fileSize), data, index + |name| + 1);
  }

  /** An entry that was cut off is not read. */
  lemma CutEntryIsDropped(entry: FileInfo, cut: nat, data: Data, index: nat)
    requires index <= |data| && cut < |EncodeEntry(entry)| && data[index..] == EncodeEntry(entry)[..cut]
    ensures TryPopEntry(data, index) == None
  {
    hide PopLe, LittleEndian, Pow256, ValidUtf8, LiesAt;
    EntrySize(entry);
    if cut >= MIN_ENTRY_BYTES {
      var prefix := LittleEndian(|entry.fileName|, 8);
      var rest := entry.fileName + (Encode(FBool(entry.isDirectory)) + Encode(FUlong(entry.fileSize)));
      Reassociated(entry);
      CutBehind(prefix, rest, cut, data, index);
      WidthsFit();
      PopLeReads(|entry.fileName|, 8, data, index);
    }
  }

  lemma EntrySize(entry: FileInfo)
    ensures |EncodeEntry(entry)| == MIN_ENTRY_BYTES + |entry.fileName|
  {
  }

  lemma Reassociated(entry: FileInfo)
    ensures EncodeEntry(entry)
            == LittleEndian(|entry.fileName|, 8)
               + (entry.fileName + (Encode(FBool(entry.isDirectory)) + Encode(FUlong(entry.fileSize))))
  {
  }

  /**
   For every list of entries and every cut point, the decoder returns exactly the entries that lie
   wholly before the cut, as many of them as were announced.
   */
  lemma {:induction false} CutListRoundTrip(entries: seq<FileInfo>, count: nat, cut: nat, data: Data, index: nat)
    requires forall i | 0 <= i < |entries| :: entries[i].permissions == 0
    requires index <= |data| && cut <= |EncodeEntries(entries)| && data[index..] == EncodeEntries(entries)[..cut]
    ensures var n := WhollyBefore(entries, cut);
            DecodeEntries(count, data, index) == entries[..if count < n then count else n]
  {
    hide EncodeEntry, TryPopEntry, LiesAt;
    if count > 0 && entries == [] {
      NothingLeft(data, index);
    } else if count > 0 {
      var first, rest := EncodeEntry(entries[0]), EncodeEntries(entries[1..]);
      if |first| <= cut {
        CutBehind(first, rest, cut, data, index);
        EntryReads(entries[0], data, index);
        CutListRoundTrip(entries[1..], count - 1, cut - |first|, data, index + |first|);
      } else {
        assert (first + rest)[..cut] == first[..cut];
        CutEntryIsDropped(entries[0], cut, data, index);
      }
    }
  }

  lemma NothingLeft(data: Data, index: nat)
    requires index <= |data| && data[index..] == []
    ensures TryPopEntry(data, index) == None
  {
  }

  /* ---- The handler ---- */

  /** An in-flight file-list request. */
  class FileListState {
    var files: seq<FileInfo>
    var error: bool
    var missingCount: bool    // the error recorded is the truncated response
    var dataReady: bool

    constructor ()
      ensures files == [] && !error && !missingCount && !dataReady
    {
      files, error, missingCount, dataReady := [], false, false, false;
    }
  }

  /**
   `handle_file_list_response`: a truncated uuid or an unknown one is dropped, a missing count is
   an error, and any other response makes the entries that arrived whole available.
   */
  method HandleFileListResponse(msg: Message, lists: map<Text, FileListState>)
    requires msg.Valid()
    modifies msg`index, lists.Values
    ensures var (uuid, i1) := TryPopString(msg.data, old(msg.index));
            if uuid.None? || uuid.value !in lists then
              forall list | list in lists.Values :: unchanged(list)
            else
              var list := lists[uuid.value];
              && list.dataReady
              && (if Remaining(msg.data, i1) < 4 then list.error && list.missingCount && list.files == old(list.files)
                  else
                    var (count, i2) := PopUint(msg.data, i1);
                    list.files == DecodeEntries(count, msg.data, i2) && list.error == old(list.error))
              && (forall other | other in lists.Values && other != list :: unchanged(other))
  {
    var uuid := msg.TryPopString();
    if uuid.None? || uuid.value !in lists {
      return;
    }
    var list := lists[uuid.value];
    assert list in lists.Values;
    if msg.RemainingBytes() < 4 {
      list.error, list.missingCount, list.dataReady := true, true, true;
      return;
    }
    var count := msg.PopUint();
    var files := DecodeLoop(count, msg);
    list.files, list.dataReady := files, true;
  }

  /** One entry read in place, or nothing when it did not arrive whole. */
  method PopEntry(msg: Message) returns (entry: Option<FileInfo>)
    requires msg.Valid()
    modifies msg`index
    ensures msg.Valid()
    ensures match TryPopEntry(msg.data, old(msg.index))
            case None => entry == None
            case Some((info, next)) => entry == Some(info) && msg.index == next
  {
    hide Wire.TryPopString, Wire.PopBool, Wire.PopUlong;
    if msg.RemainingBytes() < MIN_ENTRY_BYTES {
      return None;
    }
    var fileName := msg.TryPopString();
    if fileName.None? || msg.RemainingBytes() < 9 {
      return None;
    }
    var isDirectory := msg.PopBool();
    var fileSize := msg.PopUlong();
    entry := Some(FileInfo(fileName.value, isDirectory, fileSize, 0));
  }

  /** The loop of the handler, entry by entry on the message buffer. */
  method DecodeLoop(count: nat, msg: Message) returns (files: seq<FileInfo>)
    requires msg.Valid()
    modifies msg`index
    ensures msg.Valid() && files == DecodeEntries(count, msg.data, old(msg.index))
  {
    hide TryPopEntry;
    files := [];
    var i := 0;
    while i < count
      invariant i <= count && msg.Valid()
      invariant DecodeEntries(count, msg.data, old(msg.index)) == files + DecodeEntries(count - i, msg.data, msg.index)
    {
      ghost var start := msg.index;
      var entry := PopEntry(msg);
      if entry.None? {
        assert DecodeEntries(count - i, msg.data, start) == [];
        break;
      }
      files := files + [entry.value];
      i := i + 1;
    }
  }
}
