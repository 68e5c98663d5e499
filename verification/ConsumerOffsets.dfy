/**
  At-least-once processing of one partition. The consumer marks every delivered offset
  as consumed, marks an offset as processed when its entry is committable, and then
  stores the committable offset of the ledger, from which a restarted consumer resumes.
 */
module ConsumerOffsets {
  import opened Options
  import opened OffsetLedger

  /** `log` is the offsets the partition will ever hold, possibly with gaps. */
  datatype Config = Config(log: iset<nat>, start: nat)

  datatype State = State(
    ledger: Partition, consumed: set<nat>, processed: set<nat>, stored: set<nat>)

  datatype Step =
    | Consume(offset: nat)
    | Commit(offset: nat, paused: bool)

  function Init(): State {
    State(EMPTY, {}, {}, {})
  }

  /** No offset of the log lies between `lo` and `hi`. */
  ghost predicate NextInLog(c: Config, lo: nat, hi: nat) {
    lo < hi && forall o :: o in c.log && lo < o ==> hi <= o
  }

  /**
    Kafka delivers the first offset, then either the next one in the log or an earlier
    one not below the starting position. Only consumed offsets complete, possibly
    several times and long after they were delivered again.
   */
  ghost predicate Allowed(c: Config, s: State, e: Step) {
    match e
    case Consume(o) =>
      && o in c.log
      && if s.ledger.latestConsumed.None? then c.start <= o && forall x :: x in c.log && c.start <= x ==> o <= x
         else NextInLog(c, s.ledger.latestConsumed.value, o) || c.start <= o <= s.ledger.latestConsumed.value
    case Commit(o, _) => o in s.consumed
  }

  function Apply(s: State, e: Step): State {
    match e
    case Consume(o) => s.(ledger := OnConsumed(s.ledger, o), consumed := s.consumed + {o})
    case Commit(o, paused) =>
      var ledger := OnProcessed(s.ledger, o);
      var committable := Committable(ledger);
      State(ledger, s.consumed, s.processed + {o},
            if committable.Some? && !paused then s.stored + {committable.value} else s.stored)
  }

  ghost predicate Run(c: Config, s: State, es: seq<Step>)
    decreases |es|
  {
    es == [] || (Allowed(c, s, es[0]) && Run(c, Apply(s, es[0]), es[1..]))
  }

  function Exec(s: State, es: seq<Step>): State
    decreases |es|
  {
    if es == [] then s else Exec(Apply(s, es[0]), es[1..])
  }

  /** Every offset of the log from the start up to `to` was processed. */
  ghost predicate ProcessedBelow(c: Config, s: State, to: nat) {
    forall o :: o in c.log && c.start <= o < to ==> o in s.consumed && o in s.processed
  }

  ghost predicate Inv(c: Config, s: State) {
    && Ordered(s.ledger)
    && (s.ledger.latestConsumed.None? ==> s.consumed == {})
    && (s.ledger.latestConsumed.Some? ==> c.start <= s.ledger.latestConsumed.value)
    && (forall o :: o in s.consumed ==> o in c.log)
    // nothing was skipped below an offset consumed
    && (forall o, x :: o in c.log && c.start <= o <= x && x in s.consumed ==> o in s.consumed)
    && (s.ledger.latestConsumed.Some? ==> s.ledger.latestConsumed.value in s.consumed)
    // an offset consumed is processed, or held, or will be delivered again
    && (forall o :: o in s.consumed ==>
          o in s.processed || o in s.ledger.processing || o > s.ledger.latestConsumed.value)
    && (forall n :: n in s.stored ==> ProcessedBelow(c, s, n))
  }

  lemma ConsumeKeeps(c: Config, s: State, o: nat)
    requires Inv(c, s) && Allowed(c, s, Consume(o))
    ensures Inv(c, Apply(s, Consume(o)))
  {
    ConsumedKeepsOrder(s.ledger, o);
    var s' := Apply(s, Consume(o));
    forall x, y | x in c.log && c.start <= x <= y && y in s'.consumed ensures x in s'.consumed {
      if y == o && y !in s.consumed && s.ledger.latestConsumed.Some? {
        assert x <= s.ledger.latestConsumed.value || x == o;
      }
    }
    forall n | n in s'.stored ensures ProcessedBelow(c, s', n) {
      assert ProcessedBelow(c, s, n);
    }
    forall x | x in s'.consumed
      ensures x in s'.processed || x in s'.ledger.processing || x > s'.ledger.latestConsumed.value
    {
      if x != o && x !in s.processed {
        assert x in s.ledger.processing || x > s.ledger.latestConsumed.value;
      }
    }
  }

  lemma CommitKeeps(c: Config, s: State, o: nat, paused: bool)
    requires Inv(c, s) && Allowed(c, s, Commit(o, paused))
    ensures Inv(c, Apply(s, Commit(o, paused)))
  {
    ProcessedKeepsOrder(s.ledger, o);
    var s' := Apply(s, Commit(o, paused));
    forall n | n in s'.stored ensures ProcessedBelow(c, s', n) {
      if n in s.stored {
        assert ProcessedBelow(c, s, n);
      } else {
        CommittableIsSafe(c, s'.(stored := s.stored));
      }
    }
  }

  /** Below the committable offset everything was processed. */
  lemma CommittableIsSafe(c: Config, s: State)
    requires Inv(c, s.(stored := {})) && Committable(s.ledger).Some?
    ensures ProcessedBelow(c, s, Committable(s.ledger).value)
  {
    var n, latest := Committable(s.ledger).value, s.ledger.latestConsumed.value;
    var ps := s.ledger.processing;
    if ps != [] {
      assert ps[0] in ps;
    }
    forall o | o in c.log && c.start <= o < n ensures o in s.consumed && o in s.processed {
      assert o <= latest;
      assert o !in ps;
    }
  }

  lemma {:induction false} RunKeeps(c: Config, s: State, es: seq<Step>)
    requires Inv(c, s) && Run(c, s, es)
    ensures Inv(c, Exec(s, es))
    decreases |es|
  {
    if es != [] {
      if es[0].Consume? {
        ConsumeKeeps(c, s, es[0].offset);
      } else {
        CommitKeeps(c, s, es[0].offset, es[0].paused);
      }
      RunKeeps(c, Apply(s, es[0]), es[1..]);
    }
  }

  /**
    In every run, every offset of the partition from the starting position and below any
    offset ever stored has been consumed and reported processed at least once.
   */
  lemma AtLeastOnce(c: Config, es: seq<Step>, n: nat, o: nat)
    requires Run(c, Init(), es) && n in Exec(Init(), es).stored
    requires o in c.log && c.start <= o < n
    ensures o in Exec(Init(), es).consumed && o in Exec(Init(), es).processed
  {
    RunKeeps(c, Init(), es);
    assert ProcessedBelow(c, Exec(Init(), es), n);
  }

  // What a run consumes, processes and stores

  /** The calls that a run makes to the ledger. */
  function Call(e: Step): Event {
    match e
    case Consume(o) => Consumed(o)
    case Commit(o, _) => Processed(o)
  }

  function Calls(es: seq<Step>): seq<Event> {
    if es == [] then [] else [Call(es[0])] + Calls(es[1..])
  }

  lemma StepIsReplay(s: State, h: seq<Event>, e: Step)
    requires s.ledger == Replay(h)
    ensures Apply(s, e).ledger == Replay(h + [Call(e)])
  {
    ReplayStep(h, Call(e));
  }

  /** The ledger is the replay of these calls, so what it holds is what is outstanding in them. */
  lemma {:induction false} RunIsReplay(s: State, h: seq<Event>, es: seq<Step>)
    requires s.ledger == Replay(h)
    ensures Exec(s, es).ledger == Replay(h + Calls(es))
    decreases |es|
  {
    hide Replay, Apply, Call;
    if es == [] {
      assert h + Calls(es) == h;
    } else {
      StepIsReplay(s, h, es[0]);
      RunIsReplay(Apply(s, es[0]), h + [Call(es[0])], es[1..]);
      assert h + Calls(es) == (h + [Call(es[0])]) + Calls(es[1..]);
    }
  }

  /** Step `k` of the run completes an entry, unpaused, and `n` is committable then. */
  predicate StoresAt(s: State, es: seq<Step>, k: nat, n: nat) {
    k < |es| && es[k].Commit? && !es[k].paused && Committable(Exec(s, es[..k + 1]).ledger) == Some(n)
  }

  /** The offsets consumed, processed and stored are exactly those of the steps of the run. */
  lemma {:induction false} RunRecords(s: State, es: seq<Step>, o: nat)
    ensures var s' := Exec(s, es);
            && (o in s'.consumed <==> o in s.consumed || Consume(o) in es)
            && (o in s'.processed <==> o in s.processed || Commit(o, true) in es || Commit(o, false) in es)
            && (o in s'.stored <==> o in s.stored || exists k: nat :: StoresAt(s, es, k, o))
    decreases |es|
  {
    if es != [] {
      var s1, rest := Apply(s, es[0]), es[1..];
      assert es == [es[0]] + rest;
      RunRecords(s1, rest, o);
      FirstStores(s, es, o);
      forall k: nat | 0 < k < |es| ensures StoresAt(s, es, k, o) <==> StoresAt(s1, rest, k - 1, o) {
        assert es[..k + 1][0] == es[0] && es[..k + 1][1..] == rest[..k];
      }
      if k: nat :| StoresAt(s1, rest, k, o) {
        assert StoresAt(s, es, k + 1, o);
      }
      if k: nat :| StoresAt(s, es, k, o) && k > 0 {
        assert StoresAt(s1, rest, k - 1, o);
      }
    }
  }

  lemma FirstStores(s: State, es: seq<Step>, o: nat)
    requires es != []
    ensures o in Apply(s, es[0]).stored <==> o in s.stored || StoresAt(s, es, 0, o)
  {
    assert es[..1] == [es[0]] && [es[0]][1..] == [];
    assert Exec(s, [es[0]]) == Apply(s, es[0]);
  }

  // Over restarts

  /** A life of the consumer: where it started, and what it did. */
  datatype Life = Life(start: nat, steps: seq<Step>)

  /** Each life runs over the same log, and starts at an offset that the one before stored, or where it started. */
  ghost predicate Lives(log: iset<nat>, lives: seq<Life>) {
    && (forall i :: 0 <= i < |lives| ==> Run(Config(log, lives[i].start), Init(), lives[i].steps))
    && (forall i :: 0 < i < |lives| ==> Resumes(lives[i - 1], lives[i].start))
  }

  /** What was stored in a life, or where it started. */
  predicate Resumes(life: Life, offset: nat) {
    offset == life.start || offset in Exec(Init(), life.steps).stored
  }

  predicate ProcessedIn(life: Life, o: nat) {
    o in Exec(Init(), life.steps).processed
  }

  lemma OneLife(log: iset<nat>, life: Life, n: nat, o: nat)
    requires Run(Config(log, life.start), Init(), life.steps) && Resumes(life, n) && o in log && life.start <= o < n
    ensures ProcessedIn(life, o)
  {
    AtLeastOnce(Config(log, life.start), life.steps, n, o);
  }

  /**
    Over any number of restarts, every offset of the partition from the first start and below
    an offset stored in the last life was processed in some life.
   */
  lemma {:induction false} AtLeastOnceOverLives(log: iset<nat>, lives: seq<Life>, n: nat, o: nat)
    requires Lives(log, lives) && lives != [] && Resumes(lives[|lives| - 1], n)
    requires o in log && lives[0].start <= o < n
    ensures exists i :: 0 <= i < |lives| && ProcessedIn(lives[i], o)
  {
    var before, last := lives[..|lives| - 1], lives[|lives| - 1];
    if last.start <= o {
      OneLife(log, last, n, o);
    } else {
      AtLeastOnceOverLives(log, before, last.start, o);
      var i :| 0 <= i < |before| && ProcessedIn(before[i], o);
      assert ProcessedIn(lives[i], o);
    }
  }

  /** The first offset of the log from the start on. */
  ghost predicate FirstOffset(c: Config, a: nat) {
    a in c.log && c.start <= a && forall o :: o in c.log && c.start <= o ==> a <= o
  }

  lemma ProcessedAlone(a: nat)
    ensures OnProcessed(Partition([a], Some(a)), a) == Partition([], Some(a))
  {
    KeptOne(a, o => o != a);
  }

  /** The first offset is consumed and processed: the one after it is stored. */
  lemma FirstIsStored(a: nat)
    ensures var s := Apply(Apply(Init(), Consume(a)), Commit(a, false));
            s == State(Partition([], Some(a)), {a}, {a}, {a + 1})
  {
    assert OnConsumed(EMPTY, a) == Partition([a], Some(a)) by { assert [] + [a] == [a]; }
    ProcessedAlone(a);
  }

  /**
    Why replays must not go below the start, for any start and any offset below it: once the
    first offset is stored past, a rewind to that offset leaves it consumed, not processed, and
    below what was stored.
   */
  lemma RewindBelowStartIsNotCovered(c: Config, a: nat, o: nat)
    requires FirstOffset(c, a) && o in c.log && o < c.start
    ensures var s := Apply(Apply(Init(), Consume(a)), Commit(a, false));
            && Allowed(c, Init(), Consume(a)) && Allowed(c, Apply(Init(), Consume(a)), Commit(a, false))
            && !Allowed(c, s, Consume(o))
            && var s' := Apply(s, Consume(o));
            a + 1 in s'.stored && o in s'.consumed && o !in s'.processed && o < a + 1
  {
    FirstIsStored(a);
  }

  // The consumer's handler, over the ledger object

  /** The entry is marked processed, and the offset to store is returned unless the consumer is paused. */
  method OnEntryCommittable(ledger: Ledger, topic: string, partition: Number, offset: nat, paused: bool)
    returns (store: Option<nat>)
    requires ledger.Valid()
    modifies ledger
    ensures ledger.Valid()
    ensures At(ledger.topics, topic, partition) == OnProcessed(old(At(ledger.topics, topic, partition)), offset)
    ensures forall t, p :: (t, p) != (topic, partition) ==> At(ledger.topics, t, p) == old(At(ledger.topics, t, p))
    ensures store == if paused then None else Committable(At(ledger.topics, topic, partition))
  {
    var committable := ledger.OnOffsetProcessed(topic, partition, offset);
    store := None;
    if committable.Some? && !paused {
      store := committable;
    }
  }
}
