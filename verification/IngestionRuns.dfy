/**
  What runs of the ingestion protocol do, whatever fails: only operations of the source are
  published, what is saved survives a crash, and a reader can always catch up.
 */
module IngestionRuns {
  import opened Options
  import opened KeyedOps
  import opened Ingestion
  import opened IngestionInvariant
  import opened IngestionConvergence

  // What reaches the topic, and the log

  /** What an event delivers to the topic: a batch published, or what a failed publish left. */
  function Delivered(c: Config, s: State, e: Event): seq<Op>
    requires Enabled(c, s, e)
  {
    match e
    case PublishOk => s.phase.batch
    case PublishFail(delivered) => delivered
    case _ => []
  }

  function Deliveries(c: Config, s: State, es: seq<Event>): seq<Op>
    requires Run(c, s, es)
    decreases |es|
  {
    if es == [] then [] else Delivered(c, s, es[0]) + Deliveries(c, Step(c, s, es[0]), es[1..])
  }

  function Committed(e: Event): seq<Record> {
    if e.SourceCommit? then [e.record] else []
  }

  function Commits(es: seq<Event>): seq<Record> {
    if es == [] then [] else Committed(es[0]) + Commits(es[1..])
  }

  lemma StepDelivers(c: Config, s: State, e: Event)
    requires Enabled(c, s, e)
    ensures Step(c, s, e).stream == s.stream + Delivered(c, s, e) && Step(c, s, e).log == s.log + Committed(e)
  {
    hide Passing, BucketOps, Final, LogBatch, Page;
  }

  lemma CommitsOfFirst(es: seq<Event>)
    requires es != []
    ensures Commits(es) == Committed(es[0]) + Commits(es[1..])
  {
  }

  /** The topic holds what was delivered, and the log what was committed, in order; nothing is taken away. */
  lemma {:induction false} StreamIsDeliveries(c: Config, s: State, es: seq<Event>)
    requires Run(c, s, es)
    ensures Exec(c, s, es).stream == s.stream + Deliveries(c, s, es)
    ensures Exec(c, s, es).log == s.log + Commits(es)
    decreases |es|
  {
    if es != [] {
      hide Step, Enabled, Delivered, Committed, Commits;
      var s' := Step(c, s, es[0]);
      StepDelivers(c, s, es[0]);
      StreamIsDeliveries(c, s', es[1..]);
      CommitsOfFirst(es);
      assert s.stream + Deliveries(c, s, es) == (s.stream + Delivered(c, s, es[0])) + Deliveries(c, s', es[1..]);
      assert s.log + Commits(es) == (s.log + Committed(es[0])) + Commits(es[1..]);
    }
  }

  predicate FromSource(c: Config, log: seq<Record>, ops: seq<Op>) {
    forall op :: op in ops ==> op in BucketOps(log, c.bucket)
  }

  predicate AllPassing(c: Config, ops: seq<Op>) {
    forall op :: op in ops ==> c.pass(op)
  }

  /** Everything published, fetched or about to be published was done in the source bucket. */
  predicate Authentic(c: Config, s: State) {
    && FromSource(c, s.log, s.stream) && AllPassing(c, s.stream)
    && (s.phase.Fetching? ==> FromSource(c, s.log, s.phase.got))
    && (s.phase.Publishing? ==> FromSource(c, s.log, s.phase.batch) && AllPassing(c, s.phase.batch))
  }

  lemma PassingFromSource(c: Config, log: seq<Record>, ops: seq<Op>)
    requires FromSource(c, log, ops)
    ensures FromSource(c, log, Passing(ops, c.pass)) && AllPassing(c, Passing(ops, c.pass))
  {
    forall op ensures op in Passing(ops, c.pass) <==> op in ops && c.pass(op) {
      PassingMember(ops, c.pass, op);
    }
  }

  lemma LogBatchFromSource(c: Config, log: seq<Record>, lo: nat, hi: nat)
    requires 1 <= lo <= hi <= |log| + 1
    ensures FromSource(c, log, LogBatch(c, log, lo, hi)) && AllPassing(c, LogBatch(c, log, lo, hi))
  {
    var ops := BucketOps(log[lo - 1..hi - 1], c.bucket);
    SourceSplit(c, log, 0, lo);
    TailOps(c, log, lo, hi);
    forall op | op in ops ensures op in BucketOps(log, c.bucket) {
      assert op in BucketOps(Tail(log, lo), c.bucket);
    }
    PassingFromSource(c, log, ops);
  }

  lemma StepKeepsAuthentic(c: Config, s: State, e: Event)
    requires Authentic(c, s) && Enabled(c, s, e)
    ensures Authentic(c, Step(c, s, e))
  {
    hide Passing, BucketOps, Final, LogBatch, Page;
    match e
    case SourceCommit(r) => BucketOpsConcat(s.log, [r], c.bucket);
    case FetchMetadata(k) => FinalWasPut(BucketOps(s.log, c.bucket), k);
    case EndFetch => PassingFromSource(c, s.log, s.phase.got);
    case ReadLog(n) => LogBatchFromSource(c, s.log, s.logOffset, s.logOffset + n);
    case _ =>
  }

  lemma {:induction false} RunKeepsAuthentic(c: Config, s: State, es: seq<Event>)
    requires Authentic(c, s) && Run(c, s, es)
    ensures Authentic(c, Exec(c, s, es))
    decreases |es|
  {
    if es != [] {
      StepKeepsAuthentic(c, s, es[0]);
      RunKeepsAuthentic(c, Step(c, s, es[0]), es[1..]);
    }
  }

  /** In every run, every operation ever published was done in the source bucket, and passes the filter. */
  lemma OnlySourceOperations(c: Config, es: seq<Event>, op: Op)
    requires Run(c, Init(), es) && op in Exec(c, Init(), es).stream
    ensures op in BucketOps(Exec(c, Init(), es).log, c.bucket) && c.pass(op)
  {
    RunKeepsAuthentic(c, Init(), es);
  }

  // Crashes

  /** A restart resumes at the stored offset, and at 1 without one. */
  lemma RestartResumes(c: Config, s: State)
    ensures var s' := Step(c, s, Crash);
            && s'.logOffset == (match s.zkOffset case Some(n) => n case None => 1)
            && s'.zkOffset == s.zkOffset && s'.zkInit == s.zkInit && s'.stream == s.stream && s'.log == s.log
  {
  }

  /**
    In every run, a save whose next offset is not the one in memory advances the memory to it,
    and if it was applied a crash right after it resumes there; if not the node is as it was.
    Without such an offset a save changes nothing.
   */
  lemma SavedOffsetSurvives(c: Config, pre: seq<Event>, applied: bool)
    requires Run(c, Init(), pre) && Enabled(c, Exec(c, Init(), pre), WriteOffset(applied))
    ensures var s := Exec(c, Init(), pre); var s' := Step(c, s, WriteOffset(applied)); var n := s.phase.nextOffset;
            && s'.phase.Idle?
            && (if n.Some? && n.value != s.logOffset
                then && s'.logOffset == (if n.value > s.logOffset then n.value else s.logOffset)
                     && (applied ==> Step(c, s', Crash).logOffset == s'.logOffset)
                     && (!applied ==> s'.zkOffset == s.zkOffset)
                else s'.logOffset == s.logOffset && s'.zkOffset == s.zkOffset)
  {
    hide *;
    SaveSurvives(c, Exec(c, Init(), pre), applied);
  }

  lemma SaveSurvives(c: Config, s: State, applied: bool)
    requires Enabled(c, s, WriteOffset(applied))
    ensures var s' := Step(c, s, WriteOffset(applied)); var n := s.phase.nextOffset;
            && s'.phase.Idle?
            && (if n.Some? && n.value != s.logOffset
                then && s'.logOffset == (if n.value > s.logOffset then n.value else s.logOffset)
                     && (applied ==> Step(c, s', Crash).logOffset == s'.logOffset)
                     && (!applied ==> s'.zkOffset == s.zkOffset)
                else s'.logOffset == s.logOffset && s'.zkOffset == s.zkOffset)
  {
  }

  /**
    When the init state of a page was saved, a crash resumes after it: with the log if the page
    was the last one, and else with a page of exactly the live keys past the last one listed.
   */
  lemma SavedPageSurvives(c: Config, s: State)
    requires Enabled(c, s, WriteInit(true, true, true)) && !s.zkInit.complete
    ensures var s1 := Step(c, Step(c, s, WriteInit(true, true, true)), Crash);
            && (s.phase.next.complete <==> Enabled(c, s1, ReadNoStart))
            && (!s.phase.next.complete && s.phase.next.marker.Some? ==>
                  && Enabled(c, s1, ResumeListing)
                  && var s2 := Step(c, s1, ResumeListing);
                  && Enabled(c, s2, ListPage(None))
                  && Step(c, s2, ListPage(None)).phase.missing ==
                     set k | k in Live(c, s.log) && s.phase.next.marker.value < k)
  {
  }

  /** Consecutive pages of an unchanged bucket split what one page would list: nothing is skipped or listed twice. */
  lemma PagesSplitTheListing(c: Config, s: State, at: Key, last: Option<Key>)
    requires PastMarker(s.zkInit, at) && (last.None? || at <= last.value)
    ensures var rest := s.(zkInit := InitState(false, Some(at)));
            && Page(c, s, last) == Page(c, s, Some(at)) + Page(c, rest, last)
            && Page(c, s, Some(at)) !! Page(c, rest, last)
  {
  }

  predicate Fails(e: Event) {
    match e
    case PublishFail(_) => true
    case WriteInit(_, _, ok) => !ok
    case Abort => true
    case Crash => true
    case _ => false
  }

  /** The beginnings of an attempt. */
  predicate CanBegin(c: Config, s: State) {
    Enabled(c, s, ReadWatermark) || Enabled(c, s, ResumeListing) || Enabled(c, s, ReadLog(0))
  }

  /** In every run, a failure or the last save ends the attempt, and another can begin once the source has a record. */
  lemma AttemptsBeginAgain(c: Config, pre: seq<Event>, e: Event)
    requires Run(c, Init(), pre) && Enabled(c, Exec(c, Init(), pre), e) && (Fails(e) || e.WriteOffset?)
    requires Exec(c, Init(), pre).log != []
    ensures CanBegin(c, Step(c, Exec(c, Init(), pre), e))
  {
    hide *;
    RunIsBase(c, pre);
    BeginsAgain(c, Exec(c, Init(), pre), e);
  }

  lemma RunIsBase(c: Config, pre: seq<Event>)
    requires Run(c, Init(), pre)
    ensures Base(c, Exec(c, Init(), pre))
  {
    InitHolds(c, 0);
    RunFacts(c, Init(), pre, 0);
  }

  lemma BeginsAgain(c: Config, s: State, e: Event)
    requires Base(c, s) && Enabled(c, s, e) && (Fails(e) || e.WriteOffset?) && s.log != []
    ensures CanBegin(c, Step(c, s, e))
  {
    BaseKeeps(c, s, e);
    hide Passing, BucketOps, Final, LogBatch, BatchShape;
  }

  // Catching up

  /** The rest of a listing in one page, fetched while nothing changes, and saved. */
  lemma FinishSnapshot(c: Config, s: State) returns (t: State)
    requires s.phase.Listing? && 1 <= s.logOffset <= |s.log| + 1
    requires s.phase.cseq.Some? ==> s.phase.cseq.value <= |s.log|
    ensures Leads(c, s, t, true) && t.log == s.log && t.zkInit.complete && t.phase.Idle?
    ensures 1 <= t.logOffset <= |t.log| + 1
  {
    LeadsHere(c, s, true);
    LeadsStep(c, s, s, ListPage(None), true);
    var s1 := Step(c, s, ListPage(None));
    var gets, got := FetchAll(c, s1);
    hide Leads, Run, Exec, Passing;
    LeadsRun(c, s, s1, gets, true);
    var s2 := s1.(phase := Fetching({}, got, InitState(true, None), s.phase.cseq));
    t := PublishAndSave(c, s, s2, got, s.phase.cseq);
  }

  /** The rest of the log in one batch. */
  lemma ReadRest(c: Config, s0: State, s: State) returns (t: State)
    requires Leads(c, s0, s, true) && s.zkInit.complete && s.phase.Idle? && 1 <= s.logOffset <= |s.log| + 1
    ensures Leads(c, s0, t, true) && t.log == s.log && CaughtUp(t)
  {
    hide Leads, LogBatch;
    var n := |s.log| + 1 - s.logOffset;
    var s1 := Step(c, s, ReadLog(n));
    LeadsStep(c, s0, s, ReadLog(n), true);
    var s2 := Step(c, s1, PublishOk);
    LeadsStep(c, s0, s1, PublishOk, true);
    t := Step(c, s2, WriteOffset(true));
    LeadsStep(c, s0, s2, WriteOffset(true), true);
  }

  /** What a restart begins with: listing, or reading the log. */
  lemma Begin(c: Config, s: State) returns (t: State)
    requires Base(c, s) && s.phase.Idle? && s.log != []
    ensures Leads(c, s, t, false) && Base(c, t) && t.log == s.log
    ensures t.phase.Listing? || (t.phase.Idle? && t.zkInit.complete)
    ensures t.phase.Listing? && t.phase.cseq.Some? ==> t.phase.cseq.value <= |t.log|
  {
    LeadsHere(c, s, false);
    if s.zkInit.complete {
      t := s;
    } else {
      var e := if s.zkInit.marker.None? then ReadWatermark else ResumeListing;
      BaseKeeps(c, s, e);
      LeadsStep(c, s, s, e, false);
      t := Step(c, s, e);
    }
  }

  lemma CatchUpFrom(c: Config, s: State) returns (t: State)
    requires Base(c, s) && s.log != []
    ensures Leads(c, s, t, false) && t.log == s.log && CaughtUp(t)
  {
    LeadsHere(c, s, false);
    LeadsStep(c, s, s, Crash, false);
    BaseKeeps(c, s, Crash);
    var s1 := Step(c, s, Crash);
    var s2 := Begin(c, s1);
    LeadsOn(c, s, s1, s2, false);
    var s3 := s2;
    LeadsHere(c, s2, true);
    if s2.phase.Listing? {
      s3 := FinishSnapshot(c, s2);
    }
    t := ReadRest(c, s2, s3);
    hide Leads;
    LeadsOn(c, s, s2, t, true);
  }

  lemma LeadsOn(c: Config, s: State, t: State, u: State, tail: bool)
    requires Leads(c, s, t, false) && Leads(c, t, u, tail)
    ensures Leads(c, s, u, false)
  {
    var es :| (tail ==> NoWatermark(es)) && Run(c, t, es) && Exec(c, t, es) == u;
    LeadsRun(c, s, t, es, false);
  }

  /**
    After any history, whatever failed or crashed, some continuation catches up with the source,
    without anything being committed there: the snapshot ends and the log is read to its end.
   */
  lemma CanAlwaysCatchUp(c: Config, pre: seq<Event>) returns (es: seq<Event>)
    requires Run(c, Init(), pre) && Exec(c, Init(), pre).log != []
    ensures Run(c, Exec(c, Init(), pre), es)
    ensures var s := Exec(c, Exec(c, Init(), pre), es); CaughtUp(s) && s.log == Exec(c, Init(), pre).log
  {
    hide *;
    RunIsBase(c, pre);
    var t := CatchUpFrom(c, Exec(c, Init(), pre));
    es := RunOf(c, Exec(c, Init(), pre), t);
  }

  lemma RunOf(c: Config, s: State, t: State) returns (es: seq<Event>)
    requires Leads(c, s, t, false)
    ensures Run(c, s, es) && Exec(c, s, es) == t
  {
    es :| Run(c, s, es) && Exec(c, s, es) == t;
  }
}
