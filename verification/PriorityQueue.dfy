/** One priority level of a cluster's outbound queue: a FIFO queue per source. */
module PriorityQueue {
  import opened Bytes

  type Source = seq<byte>
  type Level = map<Source, seq<Data>>

  datatype Priority = Highest | Medium | Lowest
  {
    /** The key of this priority in the ordered map of levels. */
    function AsU8(): byte {
      match this
      case Highest => 0
      case Medium => 10
      case Lowest => 19
    }

    /** Position of this priority when the ordered map is walked. */
    function Index(): nat {
      match this
      case Highest => 0
      case Medium => 1
      case Lowest => 2
    }
  }

  /** Walking the levels by index is walking them by their `u8` keys, highest priority first. */
  lemma IndexFollowsU8(p: Priority, q: Priority)
    ensures p.AsU8() < q.AsU8() <==> p.Index() < q.Index()
    ensures p.Index() < LEVELS
  {
  }

  const LEVELS: nat := 3

  function QueueOf(level: Level, source: Source): seq<Data> {
    if source in level then level[source] else []
  }

  predicate IsEmpty(level: Level) {
    forall source | source in level :: level[source] == []
  }

  ghost function SizeOf(queue: seq<Data>): nat {
    if queue == [] then 0 else |queue[0]| + SizeOf(queue[1..])
  }

  /** Total length of everything queued on a level. */
  ghost function BytesIn(level: Level): nat
    decreases |level|
  {
    if level == map[] then 0
    else
      var source :| source in level;
      SizeOf(level[source]) + BytesIn(level - {source})
  }

  lemma {:induction false} SizeOfAppend(queue: seq<Data>, data: Data)
    ensures SizeOf(queue + [data]) == SizeOf(queue) + |data|
  {
    if queue == [] {
      assert (queue + [data])[1..] == [];
    } else {
      SizeOfAppend(queue[1..], data);
      assert (queue + [data])[1..] == queue[1..] + [data];
    }
  }

  /** The sum does not depend on the order in which the sources are visited. */
  lemma {:induction false} BytesInSplit(level: Level, source: Source)
    requires source in level
    ensures BytesIn(level) == SizeOf(level[source]) + BytesIn(level - {source})
    decreases |level|
  {
    var first :| first in level && BytesIn(level) == SizeOf(level[first]) + BytesIn(level - {first});
    if first != source {
      BytesInSplit(level - {first}, source);
      BytesInSplit(level - {source}, first);
      assert level - {first} - {source} == level - {source} - {first};
    }
  }

  lemma BytesInUpdate(level: Level, source: Source, queue: seq<Data>)
    ensures BytesIn(level[source := queue]) == BytesIn(level) - SizeOf(QueueOf(level, source)) + SizeOf(queue)
  {
    var updated := level[source := queue];
    BytesInSplit(updated, source);
    assert updated - {source} == level - {source};
    if source in level {
      BytesInSplit(level, source);
    } else {
      assert level - {source} == level;
    }
  }

  lemma {:induction false} EmptyHasNoBytes(level: Level)
    requires IsEmpty(level)
    ensures BytesIn(level) == 0
    decreases |level|
  {
    if level != map[] {
      var source :| source in level;
      BytesInSplit(level, source);
      EmptyHasNoBytes(level - {source});
    }
  }

  function NonEmptySources(level: Level): Level {
    map source | source in level && level[source] != [] :: level[source]
  }

  lemma NonEmptyWithout(level: Level, source: Source)
    ensures NonEmptySources(level) - {source} == NonEmptySources(level - {source})
  {
  }

  /** Pruning changes neither the bytes on the level nor what a source has queued. */
  lemma {:induction false} PruneKeepsBytes(level: Level)
    ensures BytesIn(NonEmptySources(level)) == BytesIn(level)
    decreases |level|
  {
    if level == map[] {
      assert NonEmptySources(level) == map[];
    } else {
      var source :| source in level;
      BytesInSplit(level, source);
      PruneKeepsBytes(level - {source});
      NonEmptyWithout(level, source);
      if level[source] == [] {
        assert NonEmptySources(level) - {source} == NonEmptySources(level);
      } else {
        BytesInSplit(NonEmptySources(level), source);
      }
    }
  }

  lemma PruneKeepsQueues(level: Level, source: Source)
    ensures QueueOf(NonEmptySources(level), source) == QueueOf(level, source)
  {
  }
}
