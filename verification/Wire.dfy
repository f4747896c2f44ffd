/**
 The binary wire format: little-endian integers, length-prefixed strings and byte arrays,
 and a read cursor that never leaves the buffer.
 */
module Wire {
  import opened Wrappers
  import opened Bytes

  const U32_SIZE: nat := 0x1_0000_0000
  const U64_SIZE: nat := 0x1_0000_0000_0000_0000

  type u32 = n: nat | n < U32_SIZE
  type u64 = n: nat | n < U64_SIZE

  predicate IsTail(b: byte) {
    0x80 <= b <= 0xBF
  }

  /** Length of the well-formed UTF-8 character at the head, or 0 (RFC 3629, section 4). */
  function CharLength(s: Data): (n: nat)
    ensures n <= |s|
  {
    if |s| >= 1 && s[0] <= 0x7F then 1
    else if |s| >= 2 && 0xC2 <= s[0] <= 0xDF && IsTail(s[1]) then 2
    else if |s| >= 3 && IsTail(s[1]) && IsTail(s[2]) && 0xE0 <= s[0] <= 0xEF
            && (s[0] == 0xE0 ==> 0xA0 <= s[1]) && (s[0] == 0xED ==> s[1] <= 0x9F) then 3
    else if |s| >= 4 && IsTail(s[1]) && IsTail(s[2]) && IsTail(s[3]) && 0xF0 <= s[0] <= 0xF4
            && (s[0] == 0xF0 ==> 0x90 <= s[1]) && (s[0] == 0xF4 ==> s[1] <= 0x8F) then 4
    else 0
  }

  predicate ValidUtf8(s: Data) {
    s == [] || (CharLength(s) > 0 && ValidUtf8(s[CharLength(s)..]))
  }

  /** A byte array that fits in memory, and a string: a byte array of well-formed UTF-8. */
  type Blob = s: Data | |s| < U64_SIZE
  type Text = s: Blob | ValidUtf8(s)

  /* ---- Little-endian integers ---- */

  function Pow256(width: nat): nat {
    if width == 0 then 1 else 256 * Pow256(width - 1)
  }

  lemma WidthsFit()
    ensures Pow256(1) == 256 && Pow256(4) == U32_SIZE && Pow256(8) == U64_SIZE
  {
    assert Pow256(2) == 256 * 256;
    assert Pow256(4) == 256 * (256 * Pow256(2));
    assert Pow256(6) == 256 * (256 * Pow256(4));
    assert Pow256(8) == 256 * (256 * Pow256(6));
  }

  function LittleEndian(n: nat, width: nat): (bytes: Data)
    ensures |bytes| == width
  {
    if width == 0 then [] else [n % 256] + LittleEndian(n / 256, width - 1)
  }

  function FromLittleEndian(bytes: Data): (n: nat)
    ensures n < Pow256(|bytes|)
  {
    if bytes == [] then 0 else bytes[0] + 256 * FromLittleEndian(bytes[1..])
  }

  lemma {:induction false} LittleEndianRoundTrip(n: nat, width: nat)
    requires n < Pow256(width)
    ensures FromLittleEndian(LittleEndian(n, width)) == n
  {
    if width > 0 {
      LittleEndianRoundTrip(n / 256, width - 1);
      assert LittleEndian(n, width)[1..] == LittleEndian(n / 256, width - 1);
    }
  }

  lemma LowByte(low: byte, high: nat)
    ensures (low + 256 * high) % 256 == low && (low + 256 * high) / 256 == high
  {
  }

  lemma {:induction false} LittleEndianOnto(bytes: Data)
    ensures LittleEndian(FromLittleEndian(bytes), |bytes|) == bytes
  {
    if bytes != [] {
      var high := FromLittleEndian(bytes[1..]);
      LittleEndianOnto(bytes[1..]);
      LowByte(bytes[0], high);
      assert LittleEndian(FromLittleEndian(bytes), |bytes|) == [bytes[0]] + LittleEndian(high, |bytes| - 1);
    }
  }

  /* ---- The cursor ---- */

  function Remaining(data: Data, index: nat): nat {
    if index < |data| then |data| - index else 0
  }

  /** Fixed-size integer at the cursor; zero, and no movement, on underrun. */
  function PopLe(data: Data, index: nat, size: nat): (r: (nat, nat))
    requires index <= |data|
    ensures r.0 < Pow256(size) && index <= r.1 <= |data|
    ensures Remaining(data, index) < size ==> r == (0, index)
  {
    if Remaining(data, index) < size then PowPositive(size); (0, index)
    else (FromLittleEndian(data[index..index + size]), index + size)
  }

  lemma {:induction false} PowPositive(width: nat)
    ensures Pow256(width) > 0
  {
    if width > 0 {
      PowPositive(width - 1);
    }
  }

  function PopUbyte(data: Data, index: nat): (r: (byte, nat))
    requires index <= |data|
    ensures index <= r.1 <= |data|
  {
    if Remaining(data, index) < 1 then (0, index) else (data[index], index + 1)
  }

  function PopBool(data: Data, index: nat): (r: (bool, nat))
    requires index <= |data|
    ensures index <= r.1 <= |data|
  {
    var (b, next) := PopUbyte(data, index);
    (b == 1, next)
  }

  function PopUint(data: Data, index: nat): (r: (u32, nat))
    requires index <= |data|
    ensures index <= r.1 <= |data|
  {
    WidthsFit();
    PopLe(data, index, 4)
  }

  function PopUlong(data: Data, index: nat): (r: (u64, nat))
    requires index <= |data|
    ensures index <= r.1 <= |data|
  {
    WidthsFit();
    PopLe(data, index, 8)
  }

  /** Byte array at the cursor. A truncated one is absent and leaves the cursor where it was. */
  function TryPopBytes(data: Data, index: nat): (r: (Option<Blob>, nat))
    requires index <= |data|
    ensures index <= r.1 <= |data|
    ensures r.0.None? ==> r.1 == index
    ensures r.0.Some? ==> r.1 == index + |r.0.value| || r.1 == index + 8 + |r.0.value|
  {
    var (len, start) := PopUlong(data, index);
    if Remaining(data, start) < len then (None, index)
    else (Some(data[start..start + len]), start + len)
  }

  /** Byte array at the cursor, or an empty one past its length prefix when it is truncated. */
  function PopBytes(data: Data, index: nat): (r: (Blob, nat))
    requires index <= |data|
    ensures index <= r.1 <= |data|
  {
    match TryPopBytes(data, index)
    case (Some(bytes), next) => (bytes, next)
    case (None, _) => ([], PopUlong(data, index).1)
  }

  /** Bytes read as a string; anything but UTF-8 becomes the empty string. */
  function AsText(bytes: Blob): Text {
    if ValidUtf8(bytes) then bytes else []
  }

  function TryPopString(data: Data, index: nat): (r: (Option<Text>, nat))
    requires index <= |data|
    ensures index <= r.1 <= |data|
    ensures r.0.None? ==> r.1 == index
  {
    match TryPopBytes(data, index)
    case (Some(bytes), next) => (Some(AsText(bytes)), next)
    case (None, next) => (None, next)
  }

  function PopString(data: Data, index: nat): (r: (Text, nat))
    requires index <= |data|
    ensures index <= r.1 <= |data|
  {
    var (bytes, next) := PopBytes(data, index);
    (AsText(bytes), next)
  }

  /* ---- Typed fields ---- */

  datatype Field =
    | FBool(flag: bool)
    | FUbyte(ubyte: byte)
    | FUint(uint: u32)
    | FUlong(ulong: u64)
    | FString(text: Text)
    | FBytes(bytes: Blob)

  datatype Kind = KBool | KUbyte | KUint | KUlong | KString | KBytes

  function KindOf(field: Field): Kind {
    match field
    case FBool(_) => KBool
    case FUbyte(_) => KUbyte
    case FUint(_) => KUint
    case FUlong(_) => KUlong
    case FString(_) => KString
    case FBytes(_) => KBytes
  }

  function KindsOf(fields: seq<Field>): seq<Kind> {
    seq(|fields|, i requires 0 <= i < |fields| => KindOf(fields[i]))
  }

  function Encode(field: Field): Data {
    match field
    case FBool(flag) => [if flag then 1 else 0]
    case FUbyte(ubyte) => [ubyte]
    case FUint(uint) => LittleEndian(uint, 4)
    case FUlong(ulong) => LittleEndian(ulong, 8)
    case FString(text) => LittleEndian(|text|, 8) + text
    case FBytes(bytes) => LittleEndian(|bytes|, 8) + bytes
  }

  function EncodeAll(fields: seq<Field>): Data {
    if fields == [] then [] else Encode(fields[0]) + EncodeAll(fields[1..])
  }

  function Pop(kind: Kind, data: Data, index: nat): (r: (Field, nat))
    requires index <= |data|
    ensures index <= r.1 <= |data|
  {
    match kind
    case KBool => var (v, next) := PopBool(data, index); (FBool(v), next)
    case KUbyte => var (v, next) := PopUbyte(data, index); (FUbyte(v), next)
    case KUint => var (v, next) := PopUint(data, index); (FUint(v), next)
    case KUlong => var (v, next) := PopUlong(data, index); (FUlong(v), next)
    case KString => var (v, next) := PopString(data, index); (FString(v), next)
    case KBytes => var (v, next) := PopBytes(data, index); (FBytes(v), next)
  }

  /** On arbitrary bytes the cursor only moves forward and stays within the buffer. */
  function PopAll(kinds: seq<Kind>, data: Data, index: nat): (r: (seq<Field>, nat))
    requires index <= |data|
    ensures |r.0| == |kinds| && index <= r.1 <= |data|
  {
    if kinds == [] then ([], index)
    else
      var (field, next) := Pop(kinds[0], data, index);
      var (fields, end) := PopAll(kinds[1..], data, next);
      ([field] + fields, end)
  }

  /* ---- Round trips ---- */

  /** `part` lies at `index`, and the cursor has room to read it. */
  predicate LiesAt(part: Data, data: Data, index: nat) {
    index + |part| <= |data| && data[index..index + |part|] == part
  }

  lemma SliceAt(part: Data, data: Data, index: nat)
    requires LiesAt(part, data, index)
    ensures index + |part| <= |data| && data[index..index + |part|] == part
  {
  }

  lemma LiesAtParts(first: Data, second: Data, data: Data, index: nat)
    requires LiesAt(first + second, data, index)
    ensures LiesAt(first, data, index) && LiesAt(second, data, index + |first|)
  {
    var whole := data[index..index + |first + second|];
    assert data[index..index + |first|] == whole[..|first|] == first;
    assert data[index + |first|..index + |first| + |second|] == whole[|first|..] == second;
  }

  /** What is left of an encoding that was cut off behind its first part. */
  lemma CutBehind(first: Data, second: Data, cut: nat, data: Data, index: nat)
    requires index <= |data| && |first| <= cut <= |first + second| && data[index..] == (first + second)[..cut]
    ensures LiesAt(first, data, index)
    ensures index + |first| <= |data| && data[index + |first|..] == second[..cut - |first|]
  {
    assert (first + second)[..cut] == first + second[..cut - |first|];
    assert data[index..index + |first|] == data[index..][..|first|];
    assert data[index + |first|..] == data[index..][|first|..];
  }

  lemma PopLeReads(n: nat, size: nat, data: Data, index: nat)
    requires n < Pow256(size) && LiesAt(LittleEndian(n, size), data, index)
    ensures PopLe(data, index, size) == (n, index + size)
  {
    LittleEndianRoundTrip(n, size);
  }

  lemma TryPopBytesReads(bytes: Blob, data: Data, index: nat)
    requires LiesAt(LittleEndian(|bytes|, 8) + bytes, data, index)
    ensures TryPopBytes(data, index) == (Some(bytes), index + 8 + |bytes|)
    ensures PopBytes(data, index) == (bytes, index + 8 + |bytes|)
  {
    hide LittleEndian, PopLe, LiesAt, Pow256;
    WidthsFit();
    LiesAtParts(LittleEndian(|bytes|, 8), bytes, data, index);
    PopLeReads(|bytes|, 8, data, index);
    SliceAt(bytes, data, index + 8);
  }

  /**
   A length prefix that claims more than is left: the strict readers find nothing and stay where they were, the
   others read nothing behind the prefix.
  */
  lemma TruncatedReads(len: nat, data: Data, index: nat)
    requires len < U64_SIZE && LiesAt(LittleEndian(len, 8), data, index) && len > |data| - index - 8
    ensures TryPopBytes(data, index) == (None, index) && TryPopString(data, index) == (None, index)
    ensures PopBytes(data, index) == ([], index + 8) && PopString(data, index) == ([], index + 8)
  {
    hide LittleEndian, PopLe, Pow256;
    WidthsFit();
    PopLeReads(len, 8, data, index);
  }

  lemma PopReads(field: Field, data: Data, index: nat)
    requires LiesAt(Encode(field), data, index)
    ensures Pop(KindOf(field), data, index) == (field, index + |Encode(field)|)
    ensures field.FString? ==> TryPopString(data, index) == (Some(field.text), index + |Encode(field)|)
  {
    hide LittleEndian, PopLe, Pow256;
    WidthsFit();
    match field
    case FBool(flag) => assert data[index..index + 1][0] == data[index];
    case FUbyte(ubyte) => assert data[index..index + 1][0] == data[index];
    case FUint(uint) => PopLeReads(uint, 4, data, index);
    case FUlong(ulong) => PopLeReads(ulong, 8, data, index);
    case FString(text) => TryPopBytesReads(text, data, index);
    case FBytes(bytes) => TryPopBytesReads(bytes, data, index);
  }

  lemma KindsOfSplit(fields: seq<Field>)
    requires fields != []
    ensures KindsOf(fields)[0] == KindOf(fields[0]) && KindsOf(fields)[1..] == KindsOf(fields[1..])
  {
  }

  /** Popping the kinds that were pushed recovers the fields and stops right behind them. */
  lemma {:induction false} PopAllReads(fields: seq<Field>, data: Data, index: nat)
    requires LiesAt(EncodeAll(fields), data, index)
    ensures PopAll(KindsOf(fields), data, index) == (fields, index + |EncodeAll(fields)|)
  {
    hide Encode, Pop, KindOf, LiesAt;
    if fields != [] {
      var first, rest := fields[0], fields[1..];
      var next := index + |Encode(first)|;
      LiesAtParts(Encode(first), EncodeAll(rest), data, index);
      PopReads(first, data, index);
      PopAllReads(rest, data, next);
      KindsOfSplit(fields);
      calc {
        PopAll(KindsOf(fields), data, index);
        ([first] + PopAll(KindsOf(rest), data, next).0, PopAll(KindsOf(rest), data, next).1);
        { assert [first] + rest == fields; }
        (fields, next + |EncodeAll(rest)|);
      }
    }
  }

  /** An outgoing message on the wire: source, id, then the body. */
  function Build(source: Text, id: u32, fields: seq<Field>): Data {
    EncodeAll([FString(source), FUint(id)] + fields)
  }

  /** What `from_bytes` reads from the header, and where the body starts. */
  function ParseHeader(data: Data): (r: (Text, u32, nat))
    ensures r.2 <= |data|
  {
    var (source, next) := PopString(data, 0);
    var (id, body) := PopUint(data, next);
    (source, id, body)
  }

  /**
   Codec round trip: parsing a built message, with anything behind it, recovers source, id and
   every field, and leaves exactly the suffix unread.
   */
  lemma BuildParseRoundTrip(source: Text, id: u32, fields: seq<Field>, suffix: Data)
    ensures var data := Build(source, id, fields) + suffix;
            var (s, i, body) := ParseHeader(data);
            var (f, end) := PopAll(KindsOf(fields), data, body);
            s == source && i == id && f == fields && data[end..] == suffix
  {
    var header := [FString(source), FUint(id)];
    var data := Build(source, id, fields) + suffix;
    EncodeAllConcat(header, fields);
    assert LiesAt(EncodeAll(header) + EncodeAll(fields), data, 0);
    LiesAtParts(EncodeAll(header), EncodeAll(fields), data, 0);
    HeaderReads(source, id, data);
    PopAllReads(fields, data, |EncodeAll(header)|);
  }

  lemma {:induction false} EncodeAllConcat(first: seq<Field>, second: seq<Field>)
    ensures EncodeAll(first + second) == EncodeAll(first) + EncodeAll(second)
  {
    hide Encode;
    if first == [] {
      assert first + second == second;
      assert EncodeAll(first) == [];
    } else {
      EncodeAllConcat(first[1..], second);
      assert (first + second)[1..] == first[1..] + second;
      calc {
        EncodeAll(first + second);
        Encode(first[0]) + EncodeAll(first[1..] + second);
        Encode(first[0]) + (EncodeAll(first[1..]) + EncodeAll(second));
        (Encode(first[0]) + EncodeAll(first[1..])) + EncodeAll(second);
        EncodeAll(first) + EncodeAll(second);
      }
    }
  }

  lemma EncodePair(first: Field, second: Field)
    ensures EncodeAll([first, second]) == Encode(first) + Encode(second)
  {
    assert [first, second][1..] == [second];
    assert [second][1..] == [];
    assert EncodeAll([]) == [];
    assert EncodeAll([second]) == Encode(second) + [];
  }

  lemma HeaderReads(source: Text, id: u32, data: Data)
    requires LiesAt(EncodeAll([FString(source), FUint(id)]), data, 0)
    ensures ParseHeader(data) == (source, id, |EncodeAll([FString(source), FUint(id)])|)
  {
    var header := [FString(source), FUint(id)];
    EncodePair(header[0], header[1]);
    LiesAtParts(Encode(header[0]), Encode(header[1]), data, 0);
    PopReads(header[0], data, 0);
    PopReads(header[1], data, |Encode(header[0])|);
  }
}
