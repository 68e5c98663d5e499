/**
  The offset ledger: which offset of a partition can be committed when messages are
  processed out of order, and when Kafka delivers some of them again.
 */
module OffsetLedger {
  import opened Options
  import opened Sums

  /** The offsets of one partition that are being processed, and the last one consumed. */
  datatype Partition = Partition(processing: seq<nat>, latestConsumed: Option<nat>)

  const EMPTY := Partition([], None)

  /** The offsets that satisfy a test, in order. */
  function Kept(offsets: seq<nat>, keep: nat -> bool): (r: seq<nat>)
    ensures forall o :: o in r <==> o in offsets && keep(o)
  {
    if offsets == [] then []
    else
      var last := offsets[|offsets| - 1];
      assert offsets == offsets[..|offsets| - 1] + [last];
      Kept(offsets[..|offsets| - 1], keep) + (if keep(last) then [last] else [])
  }

  lemma KeptOne(o: nat, keep: nat -> bool)
    ensures Kept([o], keep) == if keep(o) then [o] else []
  {
    assert [o][..0] == [];
    assert Kept([], keep) == [];
  }

  lemma {:induction false} KeptIncreasing(offsets: seq<nat>, keep: nat -> bool)
    requires Increasing(offsets)
    ensures Increasing(Kept(offsets, keep))
  {
    if offsets != [] {
      var init, last := offsets[..|offsets| - 1], offsets[|offsets| - 1];
      KeptIncreasing(init, keep);
      var r := Kept(init, keep);
      forall i | 0 <= i < |r| ensures r[i] < last {
        assert r[i] in r;
        assert r[i] in init;
      }
    }
  }

  predicate Increasing(s: seq<nat>) {
    forall i, j :: 0 <= i < j < |s| ==> s[i] < s[j]
  }

  function OnConsumed(p: Partition, offset: nat): Partition {
    var kept := if p.latestConsumed.Some? && offset != p.latestConsumed.value + 1
                then Kept(p.processing, o => o < offset) else p.processing;
    Partition(kept + [offset], Some(offset))
  }

  function OnProcessed(p: Partition, offset: nat): Partition {
    p.(processing := Kept(p.processing, o => o != offset))
  }

  function Committable(p: Partition): Option<nat> {
    if p.processing != [] then Some(p.processing[0])
    else if p.latestConsumed.Some? then Some(p.latestConsumed.value + 1)
    else None
  }

  /** What the ledger keeps on every partition, whatever is consumed or processed. */
  predicate Ordered(p: Partition) {
    && Increasing(p.processing)
    && (p.latestConsumed.None? ==> p.processing == [])
    && forall o :: o in p.processing ==> o <= p.latestConsumed.value
  }

  // A partition over its history

  datatype Event = Consumed(offset: nat) | Processed(offset: nat)

  function Apply(p: Partition, e: Event): Partition {
    match e
    case Consumed(o) => OnConsumed(p, o)
    case Processed(o) => OnProcessed(p, o)
  }

  function Replay(h: seq<Event>): Partition {
    if h == [] then EMPTY else Apply(Replay(h[..|h| - 1]), h[|h| - 1])
  }

  lemma ReplayStep(h: seq<Event>, e: Event)
    ensures Replay(h + [e]) == Apply(Replay(h), e)
  {
    assert (h + [e])[..|h|] == h;
  }

  /** The consumption at position `i` was not completed since, nor made again from there or from before. */
  predicate OutstandingSince(h: seq<Event>, i: nat, o: nat) {
    && i < |h| && h[i] == Consumed(o)
    && forall j :: i < j < |h| ==> h[j] != Processed(o) && (h[j].Consumed? ==> h[j].offset > o)
  }

  /** `o` was consumed and still has to be processed, read off the history alone. */
  ghost predicate Outstanding(h: seq<Event>, o: nat) {
    exists i: nat :: OutstandingSince(h, i, o)
  }

  /** The offset consumed last, read off the history alone. */
  function LastConsumed(h: seq<Event>): Option<nat> {
    if h == [] then None
    else if h[|h| - 1].Consumed? then Some(h[|h| - 1].offset)
    else LastConsumed(h[..|h| - 1])
  }

  lemma OutstandingStep(h: seq<Event>, e: Event, o: nat)
    ensures Outstanding(h + [e], o) <==>
            e == Consumed(o) || (Outstanding(h, o) && e != Processed(o) && (e.Consumed? ==> e.offset > o))
  {
    var h' := h + [e];
    if Outstanding(h', o) {
      var i: nat :| OutstandingSince(h', i, o);
      if i < |h| {
        assert forall j :: i < j < |h| ==> h[j] == h'[j];
        assert OutstandingSince(h, i, o);
        assert h'[|h|] == e;
      }
    }
    if e == Consumed(o) {
      assert OutstandingSince(h', |h|, o);
    } else if Outstanding(h, o) && e != Processed(o) && (e.Consumed? ==> e.offset > o) {
      var i: nat :| OutstandingSince(h, i, o);
      assert OutstandingSince(h', i, o);
    }
  }

  lemma ConsumedKeepsOrder(p: Partition, o: nat)
    requires Ordered(p)
    ensures Ordered(OnConsumed(p, o))
    ensures forall x :: x in OnConsumed(p, o).processing <==> x == o || (x in p.processing && x < o)
  {
    var rewind := p.latestConsumed.Some? && o != p.latestConsumed.value + 1;
    var kept := if rewind then Kept(p.processing, x => x < o) else p.processing;
    if rewind {
      KeptIncreasing(p.processing, x => x < o);
    }
    assert OnConsumed(p, o).processing == kept + [o];
    forall i | 0 <= i < |kept| ensures kept[i] < o {
      assert kept[i] in kept;
    }
  }

  lemma ProcessedKeepsOrder(p: Partition, o: nat)
    requires Ordered(p)
    ensures Ordered(OnProcessed(p, o))
    ensures forall x :: x in OnProcessed(p, o).processing <==> x != o && x in p.processing
  {
    KeptIncreasing(p.processing, x => x != o);
  }

  /** The partition holds exactly the outstanding offsets, and the last one consumed. */
  ghost predicate Refines(p: Partition, h: seq<Event>) {
    && Ordered(p)
    && p.latestConsumed == LastConsumed(h)
    && forall o :: o in p.processing <==> Outstanding(h, o)
  }

  lemma StepRefines(p: Partition, h: seq<Event>, e: Event)
    requires Refines(p, h)
    ensures Refines(Apply(p, e), h + [e])
  {
    assert (h + [e])[..|h|] == h;
    if e.Consumed? {
      ConsumedKeepsOrder(p, e.offset);
    } else {
      ProcessedKeepsOrder(p, e.offset);
    }
    forall o ensures o in Apply(p, e).processing <==> Outstanding(h + [e], o) {
      OutstandingStep(h, e, o);
    }
  }

  /**
    The ledger is its history: the offsets held are exactly the outstanding ones, in
    increasing order and bounded by the last one consumed.
   */
  lemma {:induction false} ReplayRefines(h: seq<Event>)
    ensures Refines(Replay(h), h)
  {
    if h != [] {
      hide Refines, Apply;
      var init, last := h[..|h| - 1], h[|h| - 1];
      assert h == init + [last];
      ReplayRefines(init);
      StepRefines(Replay(init), init, last);
    }
  }

  /** The committable offset is the least outstanding one, or the one after the last consumed. */
  lemma CommittableIsLeastOutstanding(p: Partition, h: seq<Event>)
    requires Refines(p, h)
    ensures (forall o :: !Outstanding(h, o)) ==>
              Committable(p) == (if LastConsumed(h).Some? then Some(LastConsumed(h).value + 1) else None)
    ensures (exists o :: Outstanding(h, o)) ==>
              && Committable(p).Some?
              && Outstanding(h, Committable(p).value)
              && forall o :: Outstanding(h, o) ==> Committable(p).value <= o
  {
    if p.processing != [] {
      assert p.processing[0] in p.processing;
      forall o | Outstanding(h, o) ensures p.processing[0] <= o {
        assert o in p.processing;
      }
    }
  }

  // Histories without rewind

  /** Every offset is consumed after all the smaller ones, and processed after it was consumed. */
  predicate NoRewind(h: seq<Event>) {
    && (forall i, j :: 0 <= i < j < |h| && h[i].Consumed? && h[j].Consumed? ==> h[i].offset < h[j].offset)
    && (forall j :: 0 <= j < |h| && h[j].Processed? ==> exists i :: 0 <= i < j && h[i] == Consumed(h[j].offset))
  }

  /** Without rewind an offset is held exactly while consumed and not processed. */
  lemma HeldWhileUnprocessed(h: seq<Event>, o: nat)
    requires NoRewind(h)
    ensures Outstanding(h, o) <==> Consumed(o) in h && Processed(o) !in h
  {
    if Consumed(o) in h && Processed(o) !in h {
      var i :| 0 <= i < |h| && h[i] == Consumed(o);
      assert OutstandingSince(h, i, o);
    }
  }

  lemma {:induction false} LastConsumedWasConsumed(h: seq<Event>)
    requires LastConsumed(h).Some?
    ensures Consumed(LastConsumed(h).value) in h
  {
    if !h[|h| - 1].Consumed? {
      LastConsumedWasConsumed(h[..|h| - 1]);
    }
  }

  lemma {:induction false} LastConsumedIsLargest(h: seq<Event>, o: nat)
    requires NoRewind(h) && Consumed(o) in h
    ensures LastConsumed(h).Some? && o <= LastConsumed(h).value
  {
    var before, last := h[..|h| - 1], h[|h| - 1];
    assert h == before + [last];
    if last.Consumed? {
      var i :| 0 <= i < |h| && h[i] == Consumed(o);
      assert i < |before| ==> h[i].offset < h[|before|].offset;
    } else {
      assert NoRewind(before) by {
        assert forall i :: 0 <= i < |before| ==> before[i] == h[i];
        forall j | 0 <= j < |before| && before[j].Processed?
          ensures exists i :: 0 <= i < j && before[i] == Consumed(before[j].offset)
        {
          var i :| 0 <= i < j && h[i] == Consumed(h[j].offset);
          assert before[i] == h[i];
        }
      }
      LastConsumedIsLargest(before, o);
    }
  }

  lemma LastConsumedAgrees(h: seq<Event>, g: seq<Event>)
    requires NoRewind(h) && NoRewind(g) && forall e :: e in h <==> e in g
    ensures LastConsumed(h).Some? ==> LastConsumed(g).Some? && LastConsumed(h).value <= LastConsumed(g).value
  {
    if LastConsumed(h).Some? {
      LastConsumedWasConsumed(h);
      LastConsumedIsLargest(g, LastConsumed(h).value);
    }
  }

  /** So the order of completions does not matter. */
  lemma CompletionOrderIrrelevant(h: seq<Event>, g: seq<Event>)
    requires NoRewind(h) && NoRewind(g)
    requires forall e :: e in h <==> e in g
    ensures Committable(Replay(h)) == Committable(Replay(g))
  {
    forall o ensures Outstanding(h, o) <==> Outstanding(g, o) {
      HeldWhileUnprocessed(h, o);
      HeldWhileUnprocessed(g, o);
    }
    LastConsumedAgrees(h, g);
    LastConsumedAgrees(g, h);
    ReplayRefines(h);
    ReplayRefines(g);
    SameOutstanding(Replay(h), Replay(g), h, g);
  }

  lemma SameOutstanding(p: Partition, q: Partition, h: seq<Event>, g: seq<Event>)
    requires Refines(p, h) && Refines(q, g) && LastConsumed(h) == LastConsumed(g)
    requires forall o :: Outstanding(h, o) <==> Outstanding(g, o)
    ensures Committable(p) == Committable(q)
  {
    CommittableIsLeastOutstanding(p, h);
    CommittableIsLeastOutstanding(q, g);
  }

  /** Without rewind the committable offset never decreases. */
  lemma CommittableNeverDecreases(h: seq<Event>, e: Event)
    requires NoRewind(h + [e]) && Committable(Replay(h)).Some?
    ensures Committable(Replay(h + [e])).Some? && Committable(Replay(h)).value <= Committable(Replay(h + [e])).value
  {
    var h' := h + [e];
    assert h'[..|h|] == h;
    ReplayRefines(h);
    var p := Replay(h);
    if e.Consumed? && p.latestConsumed.Some? {
      LastConsumedWasConsumed(h);
      var i :| 0 <= i < |h| && h[i] == Consumed(p.latestConsumed.value);
      assert h'[i].offset < h'[|h|].offset;
    }
    ForwardNeverLowers(p, e);
  }

  lemma ForwardNeverLowers(p: Partition, e: Event)
    requires Ordered(p) && Committable(p).Some?
    requires e.Consumed? && p.latestConsumed.Some? ==> p.latestConsumed.value < e.offset
    ensures Committable(Apply(p, e)).Some? && Committable(p).value <= Committable(Apply(p, e)).value
  {
    var p' := Apply(p, e);
    if e.Consumed? {
      ConsumedKeepsOrder(p, e.offset);
    } else {
      ProcessedKeepsOrder(p, e.offset);
    }
    if p.processing != [] && p'.processing != [] {
      assert p'.processing[0] in p'.processing;
    }
    if p.processing != [] {
      assert p.processing[0] in p.processing;
    }
  }

  /** A rewind to `o` lowers the committable offset to `o` if it was above. */
  lemma RewindLowers(p: Partition, o: nat)
    requires Ordered(p) && p.latestConsumed.Some? && o <= p.latestConsumed.value
    ensures Committable(OnConsumed(p, o)) == Some(if Committable(p).value <= o then Committable(p).value else o)
    ensures OnConsumed(p, o).latestConsumed == Some(o)
  {
    var ps := OnConsumed(p, o).processing;
    ConsumedKeepsOrder(p, o);
    assert ps[0] in ps && o in ps;
    if p.processing != [] {
      assert p.processing[0] in p.processing;
      assert forall x :: x in p.processing ==> p.processing[0] <= x;
    }
  }

  // The ledger object

  /** Partition numbers are the keys of an object, hence strings. */
  type Number = string
  type Topics = map<string, map<Number, Partition>>

  /** A partition that was never seen is an empty one. */
  function At(m: Topics, topic: string, partition: Number): Partition {
    if topic in m && partition in m[topic] then m[topic][partition] else EMPTY
  }

  function WithPartition(m: Topics, topic: string, partition: Number, x: Partition): (r: Topics)
    requires topic in m
    ensures forall t, p :: At(r, t, p) == if t == topic && p == partition then x else At(m, t, p)
  {
    m[topic := m[topic][partition := x]]
  }

  function SizesOf(partitions: map<Number, Partition>): map<Number, nat> {
    map p | p in partitions :: |partitions[p].processing|
  }

  /** The number of offsets held by the partitions of a topic. */
  ghost function HeldBy(partitions: map<Number, Partition>): nat {
    Total(SizesOf(partitions), partitions.Keys)
  }

  ghost function SizesIn(m: Topics): map<string, nat> {
    map t | t in m :: HeldBy(m[t])
  }

  /** The number of offsets held by all partitions. */
  ghost function HeldIn(m: Topics): nat {
    Total(SizesIn(m), m.Keys)
  }

  function SizesAt(m: Topics, partition: Number): map<string, nat> {
    map t | t in m :: |At(m, t, partition).processing|
  }

  /** The number of offsets held by one partition number over all topics. */
  ghost function HeldAt(m: Topics, partition: Number): nat {
    Total(SizesAt(m, partition), m.Keys)
  }

  /** The places in the lists of a topic: each partition with the indices of its list. */
  function PlacesOf(partitions: map<Number, Partition>): set<(Number, nat)> {
    Pairs(map p | p in partitions :: Below(|partitions[p].processing|), partitions.Keys)
  }

  function PlacesIn(m: Topics): set<(string, (Number, nat))> {
    Pairs(map t | t in m :: PlacesOf(m[t]), m.Keys)
  }

  function PlacesAt(m: Topics, partition: Number): set<(string, nat)> {
    Pairs(map t | t in m :: Below(|At(m, t, partition).processing|), m.Keys)
  }

  lemma PlacesAre(m: Topics, partition: Number)
    ensures forall t, p, j :: (t, (p, j)) in PlacesIn(m) <==> t in m && p in m[t] && 0 <= j < |m[t][p].processing|
    ensures forall t, j :: (t, j) in PlacesAt(m, partition) <==>
              t in m && partition in m[t] && 0 <= j < |m[t][partition].processing|
  {
  }

  /** The sums count the places: the offsets held, once for each list that holds them. */
  lemma HeldByCounts(partitions: map<Number, Partition>)
    ensures HeldBy(partitions) == |PlacesOf(partitions)|
  {
    TotalIsCount(SizesOf(partitions), map p | p in partitions :: Below(|partitions[p].processing|), partitions.Keys);
  }

  lemma HeldInCounts(m: Topics)
    ensures HeldIn(m) == |PlacesIn(m)|
  {
    forall t | t in m {
      HeldByCounts(m[t]);
    }
    TotalIsCount(SizesIn(m), map t | t in m :: PlacesOf(m[t]), m.Keys);
  }

  lemma HeldAtCounts(m: Topics, partition: Number)
    ensures HeldAt(m, partition) == |PlacesAt(m, partition)|
  {
    TotalIsCount(SizesAt(m, partition), map t | t in m :: Below(|At(m, t, partition).processing|), m.Keys);
  }

  class Ledger {
    var topics: Topics
    ghost var history: map<(string, Number), seq<Event>>

    ghost function History(topic: string, partition: Number): seq<Event>
      reads this
    {
      if (topic, partition) in history then history[(topic, partition)] else []
    }

    /** Every partition is the replay of the calls made about it. */
    ghost predicate Valid()
      reads this
    {
      forall t, p :: At(topics, t, p) == Replay(History(t, p))
    }

    constructor ()
      ensures Valid() && forall t, p :: History(t, p) == []
    {
      topics, history := map[], map[];
    }

    method GetPartitionOffsets(topic: string, partition: Number) returns (offsets: Partition)
      modifies this`topics
      ensures topic in topics && partition in topics[topic] && topics[topic][partition] == offsets
      ensures offsets == At(old(topics), topic, partition)
      ensures forall t, p :: At(topics, t, p) == At(old(topics), t, p)
    {
      if topic !in topics {
        topics := topics[topic := map[]];
      }
      if partition !in topics[topic] {
        topics := topics[topic := topics[topic][partition := EMPTY]];
      }
      offsets := topics[topic][partition];
    }

    method OnOffsetConsumed(topic: string, partition: Number, offset: nat)
      requires Valid()
      modifies this
      ensures Valid()
      ensures At(topics, topic, partition) == OnConsumed(old(At(topics, topic, partition)), offset)
      ensures forall t, p :: (t, p) != (topic, partition) ==>
              At(topics, t, p) == old(At(topics, t, p)) && History(t, p) == old(History(t, p))
      ensures History(topic, partition) == old(History(topic, partition)) + [Consumed(offset)]
    {
      ReplayStep(History(topic, partition), Consumed(offset));
      hide Replay, Kept;
      var offsets := GetPartitionOffsets(topic, partition);
      if offsets.latestConsumed.Some? && offset != offsets.latestConsumed.value + 1 {
        offsets := offsets.(processing := Kept(offsets.processing, o => o < offset));
      }
      offsets := offsets.(processing := offsets.processing + [offset]);
      offsets := offsets.(latestConsumed := Some(offset));
      topics := WithPartition(topics, topic, partition, offsets);
      Record(topic, partition, Consumed(offset));
    }

    method OnOffsetProcessed(topic: string, partition: Number, offset: nat) returns (committable: Option<nat>)
      requires Valid()
      modifies this
      ensures Valid()
      ensures At(topics, topic, partition) == OnProcessed(old(At(topics, topic, partition)), offset)
      ensures forall t, p :: (t, p) != (topic, partition) ==>
              At(topics, t, p) == old(At(topics, t, p)) && History(t, p) == old(History(t, p))
      ensures History(topic, partition) == old(History(topic, partition)) + [Processed(offset)]
      ensures committable == Committable(At(topics, topic, partition))
    {
      ReplayStep(History(topic, partition), Processed(offset));
      hide Replay, Kept, Committable;
      var offsets := GetPartitionOffsets(topic, partition);
      offsets := offsets.(processing := Kept(offsets.processing, o => o != offset));
      topics := WithPartition(topics, topic, partition, offsets);
      Record(topic, partition, Processed(offset));
      committable := PartitionCommittableOffset(offsets);
    }

    method GetCommittableOffset(topic: string, partition: Number) returns (committable: Option<nat>)
      requires Valid()
      modifies this`topics
      ensures Valid()
      ensures forall t, p :: At(topics, t, p) == old(At(topics, t, p))
      ensures committable == Committable(At(topics, topic, partition))
    {
      var offsets := GetPartitionOffsets(topic, partition);
      committable := PartitionCommittableOffset(offsets);
    }

    method PartitionCommittableOffset(offsets: Partition) returns (committable: Option<nat>)
      ensures committable == Committable(offsets)
    {
      if |offsets.processing| != 0 {
        return Some(offsets.processing[0]);
      }
      if offsets.latestConsumed.Some? {
        return Some(offsets.latestConsumed.value + 1);
      }
      return None;
    }

    /** Extend the ghost history. */
    ghost method Record(topic: string, partition: Number, e: Event)
      modifies this`history
      requires At(topics, topic, partition) == Replay(History(topic, partition) + [e])
      requires forall t, p :: (t, p) != (topic, partition) ==> At(topics, t, p) == Replay(History(t, p))
      ensures Valid()
      ensures History(topic, partition) == old(History(topic, partition)) + [e]
      ensures forall t, p :: (t, p) != (topic, partition) ==> History(t, p) == old(History(t, p))
    {
      hide Replay;
      history := history[(topic, partition) := History(topic, partition) + [e]];
    }

    /** How many offsets the partitions of a topic hold. */
    method CountTopic(topic: string) returns (count: nat)
      requires topic in topics
      ensures count == HeldBy(topics[topic])
    {
      var partitions := topics[topic];
      var left := partitions.Keys;
      count := 0;
      while left != {}
        invariant left <= partitions.Keys
        invariant count + Total(SizesOf(partitions), left) == HeldBy(partitions)
      {
        var p :| p in left;
        TotalAny(SizesOf(partitions), left, p);
        count := count + |partitions[p].processing|;
        left := left - {p};
      }
    }

    /** How many offsets a partition number holds over all topics; nothing if some topic does not have it. */
    method CountPartition(partition: Number) returns (count: Option<nat>)
      ensures count.Some? <==> forall t :: t in topics ==> partition in topics[t]
      ensures count.Some? ==> count.value == HeldAt(topics, partition)
    {
      var left, sum := topics.Keys, 0;
      while left != {}
        invariant left <= topics.Keys
        invariant forall t :: t in topics && t !in left ==> partition in topics[t]
        invariant sum + Total(SizesAt(topics, partition), left) == HeldAt(topics, partition)
      {
        var t :| t in left;
        if partition !in topics[t] {
          return None;
        }
        TotalAny(SizesAt(topics, partition), left, t);
        sum := sum + |topics[t][partition].processing|;
        left := left - {t};
      }
      return Some(sum);
    }

    /**
      For a partition of a topic, for a topic, or for all: the sum over the partitions concerned.
      A partition without a topic is summed over all topics, and throws when one does not have it.
     */
    method GetProcessingCount(topic: Option<string>, partition: Option<Number>) returns (count: Option<nat>)
      ensures topic.Some? && partition.Some? ==> count == Some(|At(topics, topic.value, partition.value).processing|)
      ensures topic.Some? && partition.None? ==>
                count == Some(if topic.value in topics then |PlacesOf(topics[topic.value])| else 0)
      ensures topic.None? && partition.None? ==> count == Some(|PlacesIn(topics)|)
      ensures topic.None? && partition.Some? ==>
                && (count.None? <==> exists t :: t in topics && partition.value !in topics[t])
                && (count.Some? ==> count.value == |PlacesAt(topics, partition.value)|)
    {
      if topic.Some? && topic.value !in topics {
        return Some(0);
      }
      if topic.Some? && partition.Some? && partition.value !in topics[topic.value] {
        return Some(0);
      }
      if topic.Some? {
        if partition.Some? {
          return Some(|topics[topic.value][partition.value].processing|);
        }
        var n := CountTopic(topic.value);
        HeldByCounts(topics[topic.value]);
        return Some(n);
      }
      if partition.Some? {
        count := CountPartition(partition.value);
        HeldAtCounts(topics, partition.value);
        return;
      }
      var sum, left := 0, topics.Keys;
      while left != {}
        invariant left <= topics.Keys
        invariant sum + Total(SizesIn(topics), left) == HeldIn(topics)
      {
        var t :| t in left;
        TotalAny(SizesIn(topics), left, t);
        var n := CountTopic(t);
        sum := sum + n;
        left := left - {t};
      }
      HeldInCounts(topics);
      return Some(sum);
    }
  }
}
