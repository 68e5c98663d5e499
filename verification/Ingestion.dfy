/**
  The ingestion protocol: record a watermark of the source log, page through a
  listing of the bucket while it keeps changing, then tail the log from the
  watermark. Progress is persisted in Zookeeper by separate writes, and the
  process may crash between any two steps.

  The source bucket is the result of its log. Sequence numbers start at 1.
 */
module Ingestion {
  import opened Options
  import opened KeyedOps

  /**
    The source bucket, the filter of the ingestion extension, and the place in the listing order of
    the text `null`.
   */
  datatype Config = Config(bucket: string, pass: Op -> bool, nullMarker: Key)

  /** Snapshot progress, as stored under the `init` path. */
  datatype InitState = InitState(complete: bool, marker: Option<Key>)

  /** Where a batch stands. The `cseq` of a snapshot batch is only there on the first page. */
  datatype Phase =
    | Idle
    | Listing(cseq: Option<nat>)
    | Fetching(missing: set<Key>, got: seq<Op>, next: InitState, cseq: Option<nat>)
    | Publishing(batch: seq<Op>, init: Option<InitState>, nextOffset: Option<nat>)
    | SavingInit(next: InitState, nextOffset: Option<nat>)
    | SavingOffset(nextOffset: Option<nat>)

  /** `stream` is all that ever reached the topic. `zkInit` and `zkOffset` survive a crash. */
  datatype State = State(
    log: seq<Record>, stream: seq<Op>,
    zkInit: InitState, zkOffset: Option<nat>,
    logOffset: nat, phase: Phase)

  datatype Event =
    | SourceCommit(record: Record)
    | ReadWatermark
    | ResumeListing
    | ListPage(last: Option<Key>)
    | FetchMetadata(key: Key)
    | EndFetch
    | ReadLog(count: nat)
    | ReadNoStart
    | PublishOk
    | PublishFail(delivered: seq<Op>)
    | WriteInit(flag: bool, marker: bool, ok: bool)
    | WriteOffset(applied: bool)
    | CorruptOffset
    | Abort
    | Crash

  function Init(): State {
    State([], [], InitState(false, None), None, 1, Idle)
  }

  /** An offset node that holds no number is read like one without data. */
  function StoredOffset(s: State): nat {
    s.zkOffset.GetOr(1)
  }

  /** The value of a key in the source bucket. */
  function Source(c: Config, log: seq<Record>, k: Key): Option<Value> {
    Final(BucketOps(log, c.bucket), k, None)
  }

  /** The value of a key for a consumer of the published stream. */
  function Published(s: State, k: Key): Option<Value> {
    Final(s.stream, k, None)
  }

  /** The listed keys: those live in the bucket. */
  function Live(c: Config, log: seq<Record>): (keys: set<Key>)
    ensures forall k :: k in keys <==> Source(c, log, k).Some?
  {
    var ops := BucketOps(log, c.bucket);
    forall k | Source(c, log, k).Some? ensures k in (set op | op in ops :: op.key) {
      FinalWasPut(ops, k);
    }
    set k | k in (set op | op in ops :: op.key) && Source(c, log, k).Some?
  }

  predicate PastMarker(init: InitState, k: Key) {
    init.marker.None? || k > init.marker.value
  }

  /** The keys a listing page holds: from the marker up to the last key of a truncated page. */
  function Page(c: Config, s: State, last: Option<Key>): set<Key> {
    set k | k in Live(c, s.log) && PastMarker(s.zkInit, k) && (last.None? || k <= last.value)
  }

  /** The snapshot is over for `k`: complete, or the marker is past it. */
  predicate Passed(init: InitState, k: Key) {
    init.complete || (init.marker.Some? && k <= init.marker.value)
  }

  /** What a batch of records publishes: the operations on the bucket that pass the filter. */
  function LogBatch(c: Config, log: seq<Record>, lo: nat, hi: nat): seq<Op>
    requires 1 <= lo <= hi <= |log| + 1
  {
    Passing(BucketOps(log[lo - 1..hi - 1], c.bucket), c.pass)
  }

  /**
    The flag and the marker are separate nodes, and a write that fails may have reached either.
    A page that is not truncated has no marker, and the text `null` is written.
   */
  function Written(c: Config, before: InitState, next: InitState, flag: bool, marker: bool): InitState {
    InitState(if flag then next.complete else before.complete,
              if marker then Some(next.marker.GetOr(c.nullMarker)) else before.marker)
  }

  predicate Enabled(c: Config, s: State, e: Event) {
    match e
    case SourceCommit(_) => true
    case ReadWatermark => s.phase.Idle? && !s.zkInit.complete && s.zkInit.marker.None? && |s.log| > 0
    case ResumeListing => s.phase.Idle? && !s.zkInit.complete && s.zkInit.marker.Some?
    case ListPage(last) => s.phase.Listing? && (last.Some? ==> last.value in Page(c, s, last))
    case FetchMetadata(k) => s.phase.Fetching? && k in s.phase.missing && Source(c, s.log, k).Some?
    case EndFetch => s.phase.Fetching? && s.phase.missing == {}
    case ReadLog(n) => s.phase.Idle? && s.zkInit.complete && 1 <= s.logOffset && s.logOffset + n <= |s.log| + 1
    case ReadNoStart => s.phase.Idle? && s.zkInit.complete
    case PublishOk => s.phase.Publishing?
    case PublishFail(delivered) => s.phase.Publishing? && forall op :: op in delivered ==> op in s.phase.batch
    case WriteInit(flag, marker, ok) => s.phase.SavingInit? && (ok ==> flag && marker)
    case WriteOffset(_) => s.phase.SavingOffset?
    case CorruptOffset => true
    case Abort => s.phase.Listing? || s.phase.Fetching? || s.phase.Publishing?
    case Crash => true
  }

  function Step(c: Config, s: State, e: Event): State
    requires Enabled(c, s, e)
  {
    match e
    case SourceCommit(r) => s.(log := s.log + [r])
    case ReadWatermark => s.(phase := Listing(Some(|s.log|)))
    case ResumeListing => s.(phase := Listing(None))
    case ListPage(last) =>
      s.(phase := Fetching(Page(c, s, last), [], InitState(last.None?, last), s.phase.cseq))
    case FetchMetadata(k) =>
      var entry := Put(k, Source(c, s.log, k).value);
      s.(phase := s.phase.(missing := s.phase.missing - {k}, got := s.phase.got + [entry]))
    case EndFetch =>
      s.(phase := Publishing(Passing(s.phase.got, c.pass), Some(s.phase.next), s.phase.cseq))
    case ReadLog(n) =>
      s.(phase := Publishing(LogBatch(c, s.log, s.logOffset, s.logOffset + n), None, Some(s.logOffset + n)))
    case ReadNoStart =>
      // past the end of the log, or without its raft session, the read answers with a null start, and null + 0 is 0
      s.(phase := Publishing([], None, Some(0)))
    case PublishOk =>
      var p := s.phase;
      s.(stream := s.stream + p.batch,
         phase := if p.init.Some? then SavingInit(p.init.value, p.nextOffset) else SavingOffset(p.nextOffset))
    case PublishFail(delivered) => s.(stream := s.stream + delivered, phase := Idle)
    case WriteInit(flag, marker, ok) =>
      s.(zkInit := Written(c, s.zkInit, s.phase.next, flag, marker),
         phase := if ok then SavingOffset(s.phase.nextOffset) else Idle)
    case WriteOffset(applied) =>
      var n := s.phase.nextOffset;
      if n.Some? && n.value != s.logOffset then
        var offset := if n.value > s.logOffset then n.value else s.logOffset;
        s.(logOffset := offset, zkOffset := if applied then Some(offset) else s.zkOffset, phase := Idle)
      else
        s.(phase := Idle)
    case CorruptOffset => s.(zkOffset := None)
    case Abort => s.(phase := Idle)
    case Crash => s.(logOffset := StoredOffset(s), phase := Idle)
  }

  /** A run: every event is enabled where it happens. */
  predicate Run(c: Config, s: State, es: seq<Event>)
    decreases |es|
  {
    es == [] || (Enabled(c, s, es[0]) && Run(c, Step(c, s, es[0]), es[1..]))
  }

  function Exec(c: Config, s: State, es: seq<Event>): State
    requires Run(c, s, es)
    decreases |es|
  {
    if es == [] then s else Exec(c, Step(c, s, es[0]), es[1..])
  }

  /** All operations ever made on `k` pass the extension filter. */
  predicate AllPass(c: Config, log: seq<Record>, k: Key) {
    forall op :: op in BucketOps(log, c.bucket) && op.key == k ==> c.pass(op)
  }

  /** The records at sequence number `from` and later. */
  function Tail(log: seq<Record>, from: nat): seq<Record> {
    if from <= 1 then log else if from - 1 <= |log| then log[from - 1..] else []
  }

  predicate Quiet(c: Config, log: seq<Record>, k: Key, from: nat) {
    !Touches(BucketOps(Tail(log, from), c.bucket), k)
  }

  /** The snapshot is over and the reader is past the end of the log. */
  predicate CaughtUp(s: State) {
    s.zkInit.complete && s.logOffset > |s.log|
  }

  predicate Converged(c: Config, s: State, k: Key) {
    Published(s, k) == Source(c, s.log, k)
  }

  /**
    The stream leaves `k` live, the source does not hold it, and the log from the
    watermark about to be read says nothing about it.
   */
  predicate Ghost(c: Config, s: State, k: Key) {
    Published(s, k).Some? && Source(c, s.log, k).None? && Quiet(c, s.log, k, |s.log|)
  }

  /** No watermark is read, in a run from `s`, while `k` is a ghost. */
  predicate CleanWatermarks(c: Config, s: State, es: seq<Event>, k: Key)
    requires Run(c, s, es)
    decreases |es|
  {
    es == [] ||
    ((es[0].ReadWatermark? ==> !Ghost(c, s, k)) && CleanWatermarks(c, Step(c, s, es[0]), es[1..], k))
  }
}
