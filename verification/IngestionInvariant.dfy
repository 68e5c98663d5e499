/** What every step of the ingestion protocol keeps, for one key at a time. */
module IngestionInvariant {
  import opened Options
  import opened KeyedOps
  import opened Ingestion

  /** The watermark a phase carries, already known to be a safe place to tail from. */
  function PhaseOffset(p: Phase): Option<nat> {
    match p
    case Idle => None
    case Listing(w) => w
    case Fetching(_, _, _, w) => w
    case Publishing(_, init, w) => if init.Some? then w else None
    case SavingInit(_, w) => w
    case SavingOffset(w) => w
  }

  /** A log batch is what the records from the offset up to the next offset publish; nothing was read past the end. */
  predicate BatchShape(c: Config, log: seq<Record>, logOffset: nat, batch: seq<Op>, next: Option<nat>) {
    && next.Some?
    && (next.value == 0 ==> batch == [])
    && (next.value != 0 ==>
          1 <= logOffset <= next.value <= |log| + 1 && batch == LogBatch(c, log, logOffset, next.value))
  }

  /** The init state that a phase carries. */
  function PhaseInit(p: Phase): Option<InitState> {
    match p
    case Fetching(_, _, next, _) => Some(next)
    case Publishing(_, init, _) => init
    case SavingInit(next, _) => Some(next)
    case _ => None
  }

  predicate Shape(c: Config, s: State) {
    && (PhaseInit(s.phase).Some? ==> PhaseInit(s.phase).value.complete || PhaseInit(s.phase).value.marker.Some?)
    && 1 <= StoredOffset(s) <= s.logOffset <= |s.log| + 1
    && (PhaseOffset(s.phase).Some? ==> PhaseOffset(s.phase).value <= |s.log| + 1)
    && (s.phase.Publishing? && s.phase.init.None? ==>
          BatchShape(c, s.log, s.logOffset, s.phase.batch, s.phase.nextOffset))
  }

  /** What the batch in progress is known to hold about a key the log is silent on. */
  predicate PhaseSettled(s: State, k: Key, current: Option<Value>) {
    match s.phase
    case Idle => true
    case Listing(_) => true
    case Fetching(missing, got, next, _) =>
      && OnlyPuts(got, k, current)
      && (k in missing ==> current.Some?)
      && (current.Some? && Passed(next, k) && !Passed(s.zkInit, k) ==> k in missing || Touches(got, k))
    case Publishing(batch, Some(next), _) =>
      && OnlyPuts(batch, k, current)
      && (current.Some? && Passed(next, k) && !Passed(s.zkInit, k) ==> Touches(batch, k))
    case Publishing(batch, None, _) => !Touches(batch, k)
    case SavingInit(next, _) => Passed(next, k) ==> Published(s, k) == current
    case SavingOffset(_) => true
  }

  predicate Settled(c: Config, s: State, k: Key) {
    var current := Source(c, s.log, k);
    && (current.None? ==> Published(s, k).None?)
    && (Passed(s.zkInit, k) ==> Published(s, k) == current)
    && PhaseSettled(s, k, current)
  }

  /** Tailing from `from` is enough for `k`. */
  predicate Safe(c: Config, s: State, k: Key, from: nat) {
    Quiet(c, s.log, k, from) ==> Settled(c, s, k)
  }

  predicate Inv(c: Config, s: State, k: Key) {
    && Shape(c, s)
    && (AllPass(c, s.log, k) ==>
          && Safe(c, s, k, s.logOffset)
          && (PhaseOffset(s.phase).Some? ==> Safe(c, s, k, PhaseOffset(s.phase).value)))
  }

  lemma TailOps(c: Config, log: seq<Record>, lo: nat, hi: nat)
    requires 1 <= lo <= hi <= |log| + 1
    ensures BucketOps(Tail(log, lo), c.bucket) ==
            BucketOps(log[lo - 1..hi - 1], c.bucket) + BucketOps(Tail(log, hi), c.bucket)
  {
    assert Tail(log, lo) == log[lo - 1..];
    assert Tail(log, hi) == log[hi - 1..];
    assert log[lo - 1..] == log[lo - 1..hi - 1] + log[hi - 1..];
    BucketOpsConcat(log[lo - 1..hi - 1], log[hi - 1..], c.bucket);
  }

  /** Silence from a place on is silence from every later place. */
  lemma QuietLater(c: Config, log: seq<Record>, k: Key, lo: nat, hi: nat)
    requires lo <= hi <= |log| + 1 && Quiet(c, log, k, lo)
    ensures Quiet(c, log, k, hi)
  {
    if hi > 0 {
      var from := if lo == 0 then 1 else lo;
      TailOps(c, log, from, hi);
      TouchesConcat(BucketOps(log[from - 1..hi - 1], c.bucket), BucketOps(Tail(log, hi), c.bucket), k);
    }
  }

  lemma SourceSplit(c: Config, log: seq<Record>, k: Key, at: nat)
    requires 1 <= at <= |log| + 1
    ensures Source(c, log, k) ==
            Final(BucketOps(Tail(log, at), c.bucket), k, Final(BucketOps(log[..at - 1], c.bucket), k, None))
    ensures BucketOps(log, c.bucket) == BucketOps(log[..at - 1], c.bucket) + BucketOps(Tail(log, at), c.bucket)
  {
    assert Tail(log, at) == log[at - 1..];
    assert log == log[..at - 1] + log[at - 1..];
    BucketOpsConcat(log[..at - 1], log[at - 1..], c.bucket);
    FinalConcat(BucketOps(log[..at - 1], c.bucket), BucketOps(log[at - 1..], c.bucket), k, None);
  }

  /** A record appended to the log either touches `k` or changes nothing for it. */
  lemma Grow(c: Config, log: seq<Record>, r: Record, k: Key, from: nat)
    requires from <= |log| + 1 && Quiet(c, log + [r], k, from)
    ensures Quiet(c, log, k, from)
    ensures Source(c, log + [r], k) == Source(c, log, k)
  {
    var log' := log + [r];
    QuietLater(c, log', k, from, |log| + 1);
    SourceSplit(c, log', k, |log| + 1);
    assert log'[..|log|] == log;
    FinalUntouched(BucketOps(Tail(log', |log| + 1), c.bucket), k, Final(BucketOps(log, c.bucket), k, None));
    var t := Tail(log, from);
    assert Tail(log', from) == t + [r];
    BucketOpsConcat(t, [r], c.bucket);
    TouchesConcat(BucketOps(t, c.bucket), BucketOps([r], c.bucket), k);
  }

  lemma AllPassShrinks(c: Config, log: seq<Record>, r: Record, k: Key)
    requires AllPass(c, log + [r], k)
    ensures AllPass(c, log, k)
  {
    BucketOpsConcat(log, [r], c.bucket);
  }

  lemma CommitKeepsShape(c: Config, s: State, r: Record)
    requires Shape(c, s)
    ensures Shape(c, s.(log := s.log + [r]))
  {
    if s.phase.Publishing? && s.phase.init.None? && s.phase.nextOffset.value != 0 {
      var n := s.phase.nextOffset.value;
      assert (s.log + [r])[s.logOffset - 1..n - 1] == s.log[s.logOffset - 1..n - 1];
    }
  }

  lemma CommitKeepsSafe(c: Config, s: State, r: Record, k: Key, from: nat)
    requires Safe(c, s, k, from) && from <= |s.log| + 1
    ensures Safe(c, s.(log := s.log + [r]), k, from)
  {
    if Quiet(c, s.log + [r], k, from) {
      Grow(c, s.log, r, k, from);
    }
  }

  lemma CommitKeeps(c: Config, s: State, r: Record, k: Key)
    requires Inv(c, s, k)
    ensures Inv(c, s.(log := s.log + [r]), k)
  {
    CommitKeepsShape(c, s, r);
    if AllPass(c, s.log + [r], k) {
      AllPassShrinks(c, s.log, r, k);
      CommitKeepsSafe(c, s, r, k, s.logOffset);
      if PhaseOffset(s.phase).Some? {
        CommitKeepsSafe(c, s, r, k, PhaseOffset(s.phase).value);
      }
    }
  }

  lemma SnapshotPublishKeeps(c: Config, s: State, k: Key, delivered: seq<Op>)
    requires s.phase.Publishing? && s.phase.init.Some?
    requires Settled(c, s, k)
    requires forall op :: op in delivered ==> op in s.phase.batch
    ensures OnlyPuts(delivered, k, Source(c, s.log, k))
    ensures Final(s.stream + delivered, k, None) ==
            if Touches(delivered, k) then Source(c, s.log, k) else Published(s, k)
  {
    var current := Source(c, s.log, k);
    forall i | 0 <= i < |delivered| && delivered[i].key == k
      ensures current.Some? && delivered[i] == Put(k, current.value)
    {
      assert delivered[i] in s.phase.batch;
    }
    FinalConcat(s.stream, delivered, k, None);
    FinalOnlyPuts(delivered, k, current, Published(s, k));
  }

  lemma LogPublishKeeps(s: State, k: Key, delivered: seq<Op>)
    requires s.phase.Publishing? && !Touches(s.phase.batch, k)
    requires forall op :: op in delivered ==> op in s.phase.batch
    ensures Final(s.stream + delivered, k, None) == Published(s, k)
  {
    forall i | 0 <= i < |delivered| ensures delivered[i].key != k {
      assert delivered[i] in s.phase.batch;
    }
    FinalConcat(s.stream, delivered, k, None);
    FinalUntouched(delivered, k, Published(s, k));
  }

  /** Operations that touch `k` and pass the filter fix its value, whatever it was, until others touch it. */
  lemma PassingCatchesUp(stream: seq<Op>, ops: seq<Op>, after: seq<Op>, pass: Op -> bool, k: Key, held: Option<Value>)
    requires Touches(ops, k) && !Touches(after, k) && forall op :: op in ops && op.key == k ==> pass(op)
    ensures Final(stream + Passing(ops, pass), k, None) == Final(ops + after, k, held)
  {
    var published := Final(stream, k, None);
    FinalConcat(ops, after, k, held);
    FinalUntouched(after, k, Final(ops, k, held));
    PassingFinal(ops, pass, k, published);
    FinalConcat(stream, Passing(ops, pass), k, None);
    FinalTouched(ops, k, held, published);
  }

  lemma MiddlePasses(before: seq<Op>, ops: seq<Op>, after: seq<Op>, pass: Op -> bool, k: Key)
    requires forall op :: op in before + (ops + after) && op.key == k ==> pass(op)
    ensures forall op :: op in ops && op.key == k ==> pass(op)
  {
    forall op | op in ops && op.key == k ensures pass(op) {
      assert op in ops + after;
      assert op in before + (ops + after);
    }
  }

  /** A log batch that touches `k`, with silence after it, leaves the source value of `k`. */
  lemma LogBatchCatchesUp(c: Config, s: State, k: Key, hi: nat)
    requires 1 <= s.logOffset <= hi <= |s.log| + 1
    requires AllPass(c, s.log, k) && Quiet(c, s.log, k, hi) && !Quiet(c, s.log, k, s.logOffset)
    ensures Final(s.stream + LogBatch(c, s.log, s.logOffset, hi), k, None) == Source(c, s.log, k)
  {
    hide Final, Touches, Passing, BucketOps, Tail;
    var ops := BucketOps(s.log[s.logOffset - 1..hi - 1], c.bucket);
    var after := BucketOps(Tail(s.log, hi), c.bucket);
    var before := BucketOps(s.log[..s.logOffset - 1], c.bucket);
    TailOps(c, s.log, s.logOffset, hi);
    TouchesConcat(ops, after, k);
    SourceSplit(c, s.log, k, s.logOffset);
    MiddlePasses(before, ops, after, c.pass, k);
    PassingCatchesUp(s.stream, ops, after, c.pass, k, Final(before, k, None));
  }

  lemma PublishOkSettles(c: Config, s: State, k: Key)
    requires s.phase.Publishing? && Settled(c, s, k)
    ensures Settled(c, Step(c, s, PublishOk), k)
  {
    if s.phase.init.Some? {
      SnapshotPublishKeeps(c, s, k, s.phase.batch);
    } else {
      LogPublishKeeps(s, k, s.phase.batch);
    }
  }

  lemma AgreeingIsSettled(c: Config, s: State, k: Key)
    requires s.phase.SavingOffset? && Published(s, k) == Source(c, s.log, k)
    ensures Settled(c, s, k)
  {
  }

  /** A published log batch makes it safe to tail from its end. */
  lemma PublishedBatchIsSafe(c: Config, s: State, k: Key)
    requires Inv(c, s, k) && s.phase.Publishing? && s.phase.init.None? && AllPass(c, s.log, k)
    ensures Safe(c, Step(c, s, PublishOk), k, s.phase.nextOffset.value)
  {
    var n := s.phase.nextOffset.value;
    if Quiet(c, s.log, k, n) {
      if n == 0 {
        QuietLater(c, s.log, k, 0, s.logOffset);
      }
      if Quiet(c, s.log, k, s.logOffset) {
        PublishOkSettles(c, s, k);
      } else {
        LogBatchCatchesUp(c, s, k, n);
        AgreeingIsSettled(c, Step(c, s, PublishOk), k);
      }
    }
  }

  lemma PublishOkKeeps(c: Config, s: State, k: Key)
    requires Inv(c, s, k) && s.phase.Publishing?
    ensures Inv(c, Step(c, s, PublishOk), k)
  {
    if AllPass(c, s.log, k) {
      if Settled(c, s, k) {
        PublishOkSettles(c, s, k);
      }
      if s.phase.init.None? {
        PublishedBatchIsSafe(c, s, k);
      }
    }
  }

  lemma PublishFailKeeps(c: Config, s: State, k: Key, delivered: seq<Op>)
    requires Inv(c, s, k) && Enabled(c, s, PublishFail(delivered))
    ensures Inv(c, Step(c, s, PublishFail(delivered)), k)
  {
    if AllPass(c, s.log, k) && Quiet(c, s.log, k, s.logOffset) {
      if s.phase.init.Some? {
        SnapshotPublishKeeps(c, s, k, delivered);
      } else {
        LogPublishKeeps(s, k, delivered);
      }
    }
  }

  lemma FetchKeeps(c: Config, s: State, k: Key, key: Key)
    requires Inv(c, s, k) && Enabled(c, s, FetchMetadata(key))
    ensures Inv(c, Step(c, s, FetchMetadata(key)), k)
  {
    if Settled(c, s, k) {
      var entry := Put(key, Source(c, s.log, key).value);
      TouchesConcat(s.phase.got, [entry], k);
      assert [entry][0] == entry;
      assert Settled(c, Step(c, s, FetchMetadata(key)), k);
    }
    hide Settled;
  }

  lemma EndFetchKeeps(c: Config, s: State, k: Key)
    requires Inv(c, s, k) && Enabled(c, s, EndFetch)
    ensures Inv(c, Step(c, s, EndFetch), k)
  {
    if AllPass(c, s.log, k) && Settled(c, s, k) {
      var got, batch := s.phase.got, Passing(s.phase.got, c.pass);
      var current := Source(c, s.log, k);
      if current.Some? {
        FinalWasPut(BucketOps(s.log, c.bucket), k);
      }
      PassingFinal(got, c.pass, k, None);
      forall i | 0 <= i < |batch| && batch[i].key == k
        ensures current.Some? && batch[i] == Put(k, current.value)
      {
        PassingMember(got, c.pass, batch[i]);
      }
      assert Settled(c, Step(c, s, EndFetch), k);
    }
    hide Settled;
  }

  lemma TailSilent(c: Config, s: State, k: Key, hi: nat)
    requires 1 <= s.logOffset <= hi <= |s.log| + 1 && Quiet(c, s.log, k, s.logOffset)
    ensures !Touches(LogBatch(c, s.log, s.logOffset, hi), k)
  {
    var ops := BucketOps(s.log[s.logOffset - 1..hi - 1], c.bucket);
    TailOps(c, s.log, s.logOffset, hi);
    TouchesConcat(ops, BucketOps(Tail(s.log, hi), c.bucket), k);
    assert forall op :: op in ops && op.key == k ==> Touches(ops, k);
    PassingFinal(ops, c.pass, k, None);
  }

  lemma ReadLogKeeps(c: Config, s: State, n: nat, k: Key)
    requires Inv(c, s, k) && Enabled(c, s, ReadLog(n))
    ensures Inv(c, Step(c, s, ReadLog(n)), k)
  {
    if AllPass(c, s.log, k) && Quiet(c, s.log, k, s.logOffset) {
      TailSilent(c, s, k, s.logOffset + n);
    }
  }

  lemma CrashKeeps(c: Config, s: State, k: Key)
    requires Inv(c, s, k)
    ensures Inv(c, Step(c, s, Crash), k)
  {
    if Quiet(c, s.log, k, StoredOffset(s)) {
      QuietLater(c, s.log, k, StoredOffset(s), s.logOffset);
    }
  }

  lemma WatermarkKeeps(c: Config, s: State, k: Key)
    requires Inv(c, s, k) && Enabled(c, s, ReadWatermark) && !Ghost(c, s, k)
    ensures Inv(c, Step(c, s, ReadWatermark), k)
  {
    hide Final, BucketOps, Touches;
  }

  lemma ListingKeeps(c: Config, s: State, k: Key, e: Event)
    requires Inv(c, s, k) && Enabled(c, s, e) && (e.ResumeListing? || e.ListPage? || e.ReadNoStart?)
    ensures Inv(c, Step(c, s, e), k)
  {
    hide Final, BucketOps;
  }

  lemma SaveKeeps(c: Config, s: State, k: Key, e: Event)
    requires Inv(c, s, k) && Enabled(c, s, e) && (e.WriteInit? || e.WriteOffset? || e.CorruptOffset? || e.Abort?)
    ensures Inv(c, Step(c, s, e), k)
  {
    hide Final, BucketOps, Touches;
  }

  /** Every step keeps the invariant, provided no watermark is read while `k` is a ghost. */
  lemma StepKeeps(c: Config, s: State, e: Event, k: Key)
    requires Inv(c, s, k) && Enabled(c, s, e)
    requires e.ReadWatermark? ==> !Ghost(c, s, k)
    ensures Inv(c, Step(c, s, e), k)
  {
    hide Inv, Ghost;
    match e
    case SourceCommit(r) => CommitKeeps(c, s, r, k);
    case ReadWatermark => WatermarkKeeps(c, s, k);
    case ResumeListing => ListingKeeps(c, s, k, e);
    case ListPage(_) => ListingKeeps(c, s, k, e);
    case FetchMetadata(key) => FetchKeeps(c, s, k, key);
    case EndFetch => EndFetchKeeps(c, s, k);
    case ReadLog(n) => ReadLogKeeps(c, s, n, k);
    case ReadNoStart => ListingKeeps(c, s, k, e);
    case PublishOk => PublishOkKeeps(c, s, k);
    case PublishFail(delivered) => PublishFailKeeps(c, s, k, delivered);
    case WriteInit(_, _, _) => SaveKeeps(c, s, k, e);
    case WriteOffset(_) => SaveKeeps(c, s, k, e);
    case CorruptOffset => SaveKeeps(c, s, k, e);
    case Abort => SaveKeeps(c, s, k, e);
    case Crash => CrashKeeps(c, s, k);
  }

  lemma {:induction false} RunKeeps(c: Config, s: State, es: seq<Event>, k: Key)
    requires Inv(c, s, k) && Run(c, s, es) && CleanWatermarks(c, s, es, k)
    ensures Inv(c, Exec(c, s, es), k)
    decreases |es|
  {
    if es != [] {
      StepKeeps(c, s, es[0], k);
      RunKeeps(c, Step(c, s, es[0]), es[1..], k);
    }
  }

  lemma InitHolds(c: Config, k: Key)
    ensures Inv(c, Init(), k)
  {
  }
}
