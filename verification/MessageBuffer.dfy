/** The message buffer: pushes append to `data`, pops advance `index`. */
module MessageBuffer {
  import opened Wrappers
  import opened Bytes
  import opened PriorityQueue
  import opened Wire

  class Message {
    var data: Data
    var index: nat
    const id: u32
    const source: Text
    const priority: Priority

    ghost predicate Valid()
      reads this
    {
      index <= |data|
    }

    /** A new outgoing message: source and id form the header. */
    constructor New(msgId: u32, level: Priority, from: Text)
      ensures Valid() && index == 0 && data == Build(from, msgId, [])
      ensures id == msgId && source == from && priority == level
    {
      id, source, priority := msgId, from, level;
      data, index := [], 0;
      new;
      PushString(from);
      PushUint(msgId);
      assert [FString(from), FUint(msgId)] + [] == [FString(from), FUint(msgId)];
      EncodePair(FString(from), FUint(msgId));
    }

    /** Parse an incoming message; its priority is not on the wire. */
    constructor FromBytes(bytes: Data)
      ensures Valid() && data == bytes && priority == Lowest
      ensures (source, id, index) == ParseHeader(bytes)
    {
      var (from, next) := Wire.PopString(bytes, 0);
      var (msgId, body) := Wire.PopUint(bytes, next);
      data, index := bytes, body;
      source, id, priority := from, msgId, Lowest;
    }

    function RemainingBytes(): nat
      reads this
    {
      Remaining(data, index)
    }

    method PushBool(value: bool)
      modifies this`data
      ensures data == old(data) + Encode(FBool(value))
    {
      PushUbyte(if value then 1 else 0);
    }

    method PushUbyte(value: byte)
      modifies this`data
      ensures data == old(data) + Encode(FUbyte(value))
    {
      data := data + [value];
    }

    method PushUint(value: u32)
      modifies this`data
      ensures data == old(data) + Encode(FUint(value))
    {
      data := data + LittleEndian(value, 4);
    }

    method PushUlong(value: u64)
      modifies this`data
      ensures data == old(data) + Encode(FUlong(value))
    {
      data := data + LittleEndian(value, 8);
    }

    method PushString(value: Text)
      modifies this`data
      ensures data == old(data) + Encode(FString(value))
    {
      PushUlong(|value|);
      data := data + value;
    }

    method PushBytes(value: Blob)
      modifies this`data
      ensures data == old(data) + Encode(FBytes(value))
    {
      PushUlong(|value|);
      data := data + value;
    }

    method PopBool() returns (value: bool)
      requires Valid()
      modifies this`index
      ensures Valid() && (value, index) == Wire.PopBool(data, old(index))
    {
      var b := PopUbyte();
      value := b == 1;
    }

    method PopUbyte() returns (value: byte)
      requires Valid()
      modifies this`index
      ensures Valid() && (value, index) == Wire.PopUbyte(data, old(index))
    {
      if RemainingBytes() < 1 {
        return 0;
      }
      value := data[index];
      index := index + 1;
    }

    /** `pop_le`: a fixed-size integer, or zero on underrun. */
    method PopFixed(size: nat) returns (value: nat)
      requires Valid()
      modifies this`index
      ensures Valid() && (value, index) == PopLe(data, old(index), size)
    {
      if RemainingBytes() < size {
        return 0;
      }
      value := FromLittleEndian(data[index..index + size]);
      index := index + size;
    }

    method PopUint() returns (value: u32)
      requires Valid()
      modifies this`index
      ensures Valid() && (value, index) == Wire.PopUint(data, old(index))
    {
      WidthsFit();
      value := PopFixed(4);
    }

    method PopUlong() returns (value: u64)
      requires Valid()
      modifies this`index
      ensures Valid() && (value, index) == Wire.PopUlong(data, old(index))
    {
      WidthsFit();
      value := PopFixed(8);
    }

    method PopBytes() returns (value: Blob)
      requires Valid()
      modifies this`index
      ensures Valid() && (value, index) == Wire.PopBytes(data, old(index))
    {
      var len := PopUlong();
      if RemainingBytes() < len {
        return [];
      }
      value := data[index..index + len];
      index := index + len;
    }

    method PopString() returns (value: Text)
      requires Valid()
      modifies this`index
      ensures Valid() && (value, index) == Wire.PopString(data, old(index))
    {
      var bytes := PopBytes();
      value := AsText(bytes);
    }

    method TryPopBytes() returns (value: Option<Blob>)
      requires Valid()
      modifies this`index
      ensures Valid() && (value, index) == Wire.TryPopBytes(data, old(index))
      ensures value.None? ==> index == old(index)
    {
      var start := index;
      var len := PopUlong();
      if RemainingBytes() < len {
        index := start;
        return None;
      }
      value := Some(data[index..index + len]);
      index := index + len;
    }

    method TryPopString() returns (value: Option<Text>)
      requires Valid()
      modifies this`index
      ensures Valid() && (value, index) == Wire.TryPopString(data, old(index))
      ensures value.None? ==> index == old(index)
    {
      var start := index;
      var len := PopUlong();
      if RemainingBytes() < len {
        index := start;
        return None;
      }
      var bytes := data[index..index + len];
      value := Some(AsText(bytes));
      index := index + len;
    }
  }
}
