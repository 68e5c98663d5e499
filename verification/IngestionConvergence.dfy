/**
  Convergence of the published stream to the source bucket.

  A first page that was published but not recorded is listed again from a newer
  watermark. A key deleted in between is then live in the stream, absent from
  the listing, and its deletion lies before the watermark: a ghost. The theorems
  say that this is the only way to diverge.
 */
module IngestionConvergence {
  import opened Options
  import opened KeyedOps
  import opened Ingestion
  import opened IngestionInvariant

  /**
    In every run that reads no watermark while `k` is a ghost, a reader that caught
    up has published, for `k`, exactly what the source holds.
   */
  lemma Convergence(c: Config, es: seq<Event>, k: Key)
    requires Run(c, Init(), es) && CleanWatermarks(c, Init(), es, k)
    requires var s := Exec(c, Init(), es); CaughtUp(s) && AllPass(c, s.log, k)
    ensures Converged(c, Exec(c, Init(), es), k)
  {
    InitHolds(c, k);
    RunKeeps(c, Init(), es, k);
    CaughtUpSettles(c, Exec(c, Init(), es), k);
  }

  lemma CaughtUpSettles(c: Config, s: State, k: Key)
    requires Inv(c, s, k) && CaughtUp(s) && AllPass(c, s.log, k)
    ensures Converged(c, s, k)
  {
    assert Tail(s.log, s.logOffset) == [];
  }

  // Sequencing of runs

  lemma {:induction false} RunConcat(c: Config, s: State, a: seq<Event>, b: seq<Event>)
    requires Run(c, s, a) && Run(c, Exec(c, s, a), b)
    ensures Run(c, s, a + b) && Exec(c, s, a + b) == Exec(c, Exec(c, s, a), b)
    decreases |a|
  {
    if a == [] {
      assert a + b == b;
    } else {
      RunConcat(c, Step(c, s, a[0]), a[1..], b);
      assert (a + b)[1..] == a[1..] + b;
    }
  }

  predicate NoWatermark(es: seq<Event>) {
    forall i :: 0 <= i < |es| ==> !es[i].ReadWatermark?
  }

  /** Some run goes from `s` to `t`, without reading a watermark if `tail` is set. */
  ghost predicate Leads(c: Config, s: State, t: State, tail: bool) {
    exists es :: (tail ==> NoWatermark(es)) && Run(c, s, es) && Exec(c, s, es) == t
  }

  lemma LeadsHere(c: Config, s: State, tail: bool)
    ensures Leads(c, s, s, tail)
  {
    assert Run(c, s, []) && Exec(c, s, []) == s;
  }

  lemma LeadsRun(c: Config, s: State, t: State, es: seq<Event>, tail: bool)
    requires Leads(c, s, t, tail) && Run(c, t, es) && (tail ==> NoWatermark(es))
    ensures Leads(c, s, Exec(c, t, es), tail)
  {
    var before :| (tail ==> NoWatermark(before)) && Run(c, s, before) && Exec(c, s, before) == t;
    RunConcat(c, s, before, es);
    assert tail ==> NoWatermark(before + es);
  }

  lemma LeadsStep(c: Config, s: State, t: State, e: Event, tail: bool)
    requires Leads(c, s, t, tail) && Enabled(c, t, e) && (tail ==> !e.ReadWatermark?)
    ensures Leads(c, s, Step(c, t, e), tail)
  {
    assert [e][1..] == [];
    assert Exec(c, t, [e]) == Step(c, t, e);
    LeadsRun(c, s, t, [e], tail);
  }

  // The first attempt

  predicate Untouched(s: State) {
    s.stream == [] && s.zkInit == InitState(false, None) && s.phase.Idle?
  }

  lemma {:induction false} OneWatermarkIsClean(c: Config, s: State, es: seq<Event>, k: Key)
    requires Untouched(s) && Run(c, s, es)
    requires forall i, j :: 0 <= i < j < |es| ==> !(es[i].ReadWatermark? && es[j].ReadWatermark?)
    ensures CleanWatermarks(c, s, es, k)
    decreases |es|
  {
    if es != [] {
      var s', rest := Step(c, s, es[0]), es[1..];
      if es[0].ReadWatermark? {
        assert NoWatermark(rest) by {
          forall i | 0 <= i < |rest| ensures !rest[i].ReadWatermark? {
            assert rest[i] == es[i + 1];
          }
        }
        NoWatermarkIsClean(c, s', rest, k);
      } else {
        forall i, j | 0 <= i < j < |rest| ensures !(rest[i].ReadWatermark? && rest[j].ReadWatermark?) {
          assert rest[i] == es[i + 1] && rest[j] == es[j + 1];
        }
        OneWatermarkIsClean(c, s', rest, k);
      }
    }
  }

  lemma {:induction false} NoWatermarkIsClean(c: Config, s: State, es: seq<Event>, k: Key)
    requires Run(c, s, es) && NoWatermark(es)
    ensures CleanWatermarks(c, s, es, k)
    decreases |es|
  {
    if es != [] {
      assert !es[0].ReadWatermark?;
      NoWatermarkIsClean(c, Step(c, s, es[0]), es[1..], k);
    }
  }

  /** When the watermark is read once, whatever else fails or crashes, the stream converges. */
  lemma SingleWatermarkConverges(c: Config, es: seq<Event>, k: Key)
    requires Run(c, Init(), es)
    requires forall i, j :: 0 <= i < j < |es| ==> !(es[i].ReadWatermark? && es[j].ReadWatermark?)
    requires var s := Exec(c, Init(), es); CaughtUp(s) && AllPass(c, s.log, k)
    ensures Converged(c, Exec(c, Init(), es), k)
  {
    OneWatermarkIsClean(c, Init(), es, k);
    Convergence(c, es, k);
  }

  // Exactness of the condition

  /** Every completed continuation of the watermark about to be read publishes `k` right. */
  ghost predicate ConvergesFrom(c: Config, s: State, k: Key)
    requires Enabled(c, s, ReadWatermark)
  {
    var s0 := Step(c, s, ReadWatermark);
    forall es :: NoWatermark(es) && Run(c, s0, es) && CaughtUp(Exec(c, s0, es)) && AllPass(c, Exec(c, s0, es).log, k)
                 ==> Converged(c, Exec(c, s0, es), k)
  }

  /** Facts of every run, clean or not. */
  predicate Base(c: Config, s: State) {
    var start := InitState(false, None);
    && Shape(c, s)
    && (s.zkInit == start ==>
          && s.logOffset == 1 && !s.phase.SavingOffset?
          && (s.phase.Publishing? ==> s.phase.init.Some?))
    && (s.phase.Fetching? || s.phase.SavingInit? ==> s.phase.next != start)
    && (s.phase.Publishing? ==> s.phase.init != Some(start))
    && (s.phase.Listing? || PhaseInit(s.phase).Some? ==> !s.zkInit.complete)
  }

  lemma ReadLogShape(c: Config, s: State, n: nat)
    requires Shape(c, s) && Enabled(c, s, ReadLog(n))
    ensures Shape(c, Step(c, s, ReadLog(n)))
  {
    hide LogBatch;
  }

  lemma ShapeKeeps(c: Config, s: State, e: Event)
    requires Shape(c, s) && Enabled(c, s, e)
    ensures Shape(c, Step(c, s, e))
  {
    if e.SourceCommit? {
      CommitKeepsShape(c, s, e.record);
    } else if e.ReadLog? {
      ReadLogShape(c, s, e.count);
    } else {
      hide LogBatch, Passing, BucketOps, Final;
    }
  }

  lemma BaseKeeps(c: Config, s: State, e: Event)
    requires Base(c, s) && Enabled(c, s, e)
    ensures Base(c, Step(c, s, e))
  {
    ShapeKeeps(c, s, e);
    hide BatchShape, Passing, BucketOps, Final;
  }

  /** A key the source never touched is no ghost. */
  lemma UntouchedIsNoGhost(c: Config, s: State, k: Key)
    requires Inv(c, s, k) && !Touches(BucketOps(s.log, c.bucket), k)
    ensures !Ghost(c, s, k)
  {
    assert Tail(s.log, 1) == s.log;
    QuietLater(c, s.log, k, 1, s.logOffset);
    assert forall op :: op in BucketOps(s.log, c.bucket) && op.key == k ==> Touches(BucketOps(s.log, c.bucket), k);
  }

  lemma TouchedStays(c: Config, s: State, e: Event, k: Key)
    requires Enabled(c, s, e) && Touches(BucketOps(s.log, c.bucket), k)
    ensures Touches(BucketOps(Step(c, s, e).log, c.bucket), k)
  {
    if e.SourceCommit? {
      BucketOpsConcat(s.log, [e.record], c.bucket);
      TouchesConcat(BucketOps(s.log, c.bucket), BucketOps([e.record], c.bucket), k);
    }
  }

  lemma {:induction false} RunFacts(c: Config, s: State, es: seq<Event>, k: Key)
    requires Run(c, s, es) && Base(c, s)
    requires !Touches(BucketOps(s.log, c.bucket), k) ==> Inv(c, s, k)
    ensures var s' := Exec(c, s, es);
            Base(c, s') && (!Touches(BucketOps(s'.log, c.bucket), k) ==> Inv(c, s', k))
    decreases |es|
  {
    if es != [] {
      BaseKeeps(c, s, es[0]);
      if Touches(BucketOps(s.log, c.bucket), k) {
        TouchedStays(c, s, es[0], k);
      } else {
        UntouchedIsNoGhost(c, s, k);
        StepKeeps(c, s, es[0], k);
      }
      hide Inv, Base, Touches, BucketOps, Step;
      RunFacts(c, Step(c, s, es[0]), es[1..], k);
    }
  }

  /** The metadata of a page whose keys stay live can always be fetched. */
  lemma {:induction false} FetchAll(c: Config, s: State) returns (es: seq<Event>, got: seq<Op>)
    requires s.phase.Fetching? && s.phase.missing <= Live(c, s.log)
    ensures Run(c, s, es) && NoWatermark(es)
    ensures Exec(c, s, es) == s.(phase := s.phase.(missing := {}, got := got))
    ensures forall i :: 0 <= i < |got| ==> got[i] in s.phase.got || got[i].key in s.phase.missing
    decreases |s.phase.missing|
  {
    if s.phase.missing == {} {
      es, got := [], s.phase.got;
    } else {
      var key :| key in s.phase.missing;
      var s' := Step(c, s, FetchMetadata(key));
      assert s'.phase.missing < s.phase.missing;
      var rest;
      rest, got := FetchAll(c, s');
      es := [FetchMetadata(key)] + rest;
      assert es[1..] == rest;
    }
  }

  /** A page of everything, fetched while nothing changes. */
  lemma FetchInOnePage(c: Config, s: State, k: Key) returns (t: State, got: seq<Op>)
    requires Enabled(c, s, ReadWatermark) && Source(c, s.log, k).None?
    ensures Leads(c, Step(c, s, ReadWatermark), t, true)
    ensures t == s.(phase := Fetching({}, got, InitState(true, None), Some(|s.log|)))
    ensures forall i :: 0 <= i < |got| ==> got[i].key != k
  {
    var s0 := Step(c, s, ReadWatermark);
    LeadsHere(c, s0, true);
    LeadsStep(c, s0, s0, ListPage(None), true);
    var s1 := Step(c, s0, ListPage(None));
    assert s1.phase.got == [] && k !in s1.phase.missing;
    var gets;
    gets, got := FetchAll(c, s1);
    hide Leads, Run, Exec;
    LeadsRun(c, s0, s1, gets, true);
    t := s1.(phase := Fetching({}, got, InitState(true, None), Some(|s.log|)));
  }

  /** The last page is published and its progress saved, with the watermark if it is the first page too. */
  lemma PublishAndSave(c: Config, s0: State, s: State, got: seq<Op>, w: Option<nat>) returns (t: State)
    requires Leads(c, s0, s, true) && s.phase == Fetching({}, got, InitState(true, None), w)
    requires 1 <= s.logOffset <= |s.log| + 1 && (w.Some? ==> w.value <= |s.log|)
    ensures Leads(c, s0, t, true) && t.stream == s.stream + Passing(got, c.pass)
    ensures t.log == s.log && t.zkInit.complete && t.phase.Idle? && 1 <= t.logOffset <= |s.log| + 1
    ensures w.Some? ==> w.value <= t.logOffset
  {
    hide Leads, Passing;
    LeadsStep(c, s0, s, EndFetch, true);
    var s3 := s.(phase := Publishing(Passing(got, c.pass), Some(InitState(true, None)), w));
    assert Step(c, s, EndFetch) == s3;
    LeadsStep(c, s0, s3, PublishOk, true);
    var s4 := s3.(stream := s.stream + Passing(got, c.pass), phase := SavingInit(InitState(true, None), w));
    assert Step(c, s3, PublishOk) == s4;
    LeadsStep(c, s0, s4, WriteInit(true, true, true), true);
    var s5 := s4.(zkInit := InitState(true, Some(c.nullMarker)), phase := SavingOffset(w));
    assert Step(c, s4, WriteInit(true, true, true)) == s5;
    LeadsStep(c, s0, s5, WriteOffset(true), true);
    t := Step(c, s5, WriteOffset(true));
  }

  /** A snapshot in one page, with no failure, that adds nothing about a key that is not live. */
  lemma SnapshotInOnePage(c: Config, s: State, k: Key) returns (t: State)
    requires Shape(c, s) && Enabled(c, s, ReadWatermark) && Source(c, s.log, k).None?
    ensures Leads(c, Step(c, s, ReadWatermark), t, true)
    ensures t.log == s.log && t.zkInit.complete && t.phase.Idle? && |s.log| <= t.logOffset <= |s.log| + 1
    ensures Published(t, k) == Published(s, k)
  {
    hide Leads, Passing, Final;
    var s2, got := FetchInOnePage(c, s, k);
    t := PublishAndSave(c, Step(c, s, ReadWatermark), s2, got, Some(|s.log|));
    PageSilent(c, s, got, k);
  }

  /** Tailing the rest of the log in one batch, when it says nothing about `k`. */
  lemma TailInOneBatch(c: Config, s0: State, s: State, k: Key) returns (t: State)
    requires Leads(c, s0, s, true)
    requires s.zkInit.complete && s.phase.Idle? && 1 <= s.logOffset <= |s.log| + 1 && Quiet(c, s.log, k, s.logOffset)
    ensures Leads(c, s0, t, true) && t.log == s.log && CaughtUp(t) && Published(t, k) == Published(s, k)
  {
    var n := |s.log| + 1 - s.logOffset;
    var s1 := Step(c, s, ReadLog(n));
    LeadsStep(c, s0, s, ReadLog(n), true);
    TailSilent(c, s, k, |s.log| + 1);
    LogPublishKeeps(s1, k, s1.phase.batch);
    var s2 := Step(c, s1, PublishOk);
    LeadsStep(c, s0, s1, PublishOk, true);
    t := Step(c, s2, WriteOffset(true));
    LeadsStep(c, s0, s2, WriteOffset(true), true);
  }

  /** From a ghost, a run without any further failure ends caught up and diverged. */
  lemma GhostDiverges(c: Config, s: State, k: Key)
    requires Shape(c, s) && Enabled(c, s, ReadWatermark) && Ghost(c, s, k) && AllPass(c, s.log, k)
    ensures !ConvergesFrom(c, s, k)
  {
    var s0 := Step(c, s, ReadWatermark);
    var s1 := SnapshotInOnePage(c, s, k);
    QuietLater(c, s.log, k, |s.log|, s1.logOffset);
    var s2 := TailInOneBatch(c, s0, s1, k);
    var es :| NoWatermark(es) && Run(c, s0, es) && Exec(c, s0, es) == s2;
  }

  lemma PageSilent(c: Config, s: State, got: seq<Op>, k: Key)
    requires forall i :: 0 <= i < |got| ==> got[i].key != k
    ensures Final(s.stream + Passing(got, c.pass), k, None) == Published(s, k)
  {
    var batch := Passing(got, c.pass);
    forall i | 0 <= i < |batch| ensures batch[i].key != k {
      PassingMember(got, c.pass, batch[i]);
    }
    FinalConcat(s.stream, batch, k, None);
    FinalUntouched(batch, k, Published(s, k));
  }

  /**
    The exact condition. After any history, reading a watermark leads to convergence
    on `k` in all its completions if and only if `k` is not a ghost at that moment.
   */
  lemma WatermarkConvergesExactly(c: Config, pre: seq<Event>, k: Key)
    requires Run(c, Init(), pre)
    requires var s := Exec(c, Init(), pre); Enabled(c, s, ReadWatermark) && AllPass(c, s.log, k)
    ensures ConvergesFrom(c, Exec(c, Init(), pre), k) <==> !Ghost(c, Exec(c, Init(), pre), k)
  {
    var s := Exec(c, Init(), pre);
    var s0 := Step(c, s, ReadWatermark);
    // whatever happened before, the invariant holds when a watermark is about to be read
    InitHolds(c, k);
    RunFacts(c, Init(), pre, k);
    assert Tail(s.log, 1) == s.log;
    assert Inv(c, s, k) && Shape(c, s);
    hide Inv, Step, Exec, Run, Final, BucketOps;
    if Ghost(c, s, k) {
      GhostDiverges(c, s, k);
    } else {
      StepKeeps(c, s, ReadWatermark, k);
      forall es | NoWatermark(es) && Run(c, s0, es) && CaughtUp(Exec(c, s0, es)) && AllPass(c, Exec(c, s0, es).log, k)
        ensures Converged(c, Exec(c, s0, es), k)
      {
        NoWatermarkIsClean(c, s0, es, k);
        RunKeeps(c, s0, es, k);
        CaughtUpSettles(c, Exec(c, s0, es), k);
      }
    }
  }

  /** A bucket whose only key is `k`, and the same bucket after that key was deleted. */
  lemma TwoLogs(c: Config, k: Key, v: Value)
    ensures var put, del, other := Record(c.bucket, [Put(k, v)]), Record(c.bucket, [Del(k)]), Record(c.bucket, []);
            && BucketOps([put], c.bucket) == [Put(k, v)]
            && BucketOps([put, del, other], c.bucket) == [Put(k, v), Del(k)]
            && BucketOps([other], c.bucket) == []
  {
    var put, del, other := Record(c.bucket, [Put(k, v)]), Record(c.bucket, [Del(k)]), Record(c.bucket, []);
    assert [put][..0] == [] && [other][..0] == [] && [put, del][..1] == [put] && [put, del, other][..2] == [put, del];
    assert BucketOps([put], c.bucket) == [] + [Put(k, v)];
    assert BucketOps([put, del], c.bucket) == [Put(k, v)] + [Del(k)];
  }

  lemma PutThenDeleted(c: Config, k: Key, v: Value)
    ensures var put, del, other := Record(c.bucket, [Put(k, v)]), Record(c.bucket, [Del(k)]), Record(c.bucket, []);
            && Live(c, [put]) == {k} && Source(c, [put], k) == Some(v)
            && Source(c, [put, del, other], k) == None && Quiet(c, [put, del, other], k, 3)
            && Final([Put(k, v)], k, None) == Some(v)
  {
    var put, del, other := Record(c.bucket, [Put(k, v)]), Record(c.bucket, [Del(k)]), Record(c.bucket, []);
    TwoLogs(c, k, v);
    var ops := [Put(k, v)];
    assert ops[..0] == [] && [Put(k, v), Del(k)][..1] == ops;
    forall j | j in Live(c, [put]) ensures j == k {
      FinalWasPut(ops, j);
    }
    assert Tail([put, del, other], 3) == [other];
  }

  lemma ListFirstPage(c: Config, k: Key, v: Value) returns (s: State)
    ensures Leads(c, Init(), s, false)
    ensures s == State([Record(c.bucket, [Put(k, v)])], [], InitState(false, None), None, 1,
            Fetching({k}, [], InitState(true, None), Some(1)))
  {
    PutThenDeleted(c, k, v);
    var put := Record(c.bucket, [Put(k, v)]);
    LeadsHere(c, Init(), false);
    LeadsStep(c, Init(), Init(), SourceCommit(put), false);
    var s1 := Step(c, Init(), SourceCommit(put));
    assert s1 == State([put], [], InitState(false, None), None, 1, Idle);
    LeadsStep(c, Init(), s1, ReadWatermark, false);
    var s2 := Step(c, s1, ReadWatermark);
    LeadsStep(c, Init(), s2, ListPage(None), false);
    s := Step(c, s2, ListPage(None));
    assert Page(c, s2, None) == {k};
  }

  lemma PublishFirstPage(c: Config, k: Key, v: Value) returns (s: State)
    requires c.pass(Put(k, v))
    ensures Leads(c, Init(), s, false)
    ensures s == State([Record(c.bucket, [Put(k, v)])], [Put(k, v)], InitState(false, None), None, 1,
            SavingInit(InitState(true, None), Some(1)))
  {
    PutThenDeleted(c, k, v);
    var s3 := ListFirstPage(c, k, v);
    LeadsStep(c, Init(), s3, FetchMetadata(k), false);
    var s4 := Step(c, s3, FetchMetadata(k));
    assert s4.phase.missing == {} && s4.phase.got == [Put(k, v)];
    LeadsStep(c, Init(), s4, EndFetch, false);
    var s5 := Step(c, s4, EndFetch);
    assert [Put(k, v)][..0] == [];
    assert Passing([Put(k, v)], c.pass) == [Put(k, v)];
    LeadsStep(c, Init(), s5, PublishOk, false);
    s := Step(c, s5, PublishOk);
    assert s.stream == [Put(k, v)];
  }

  lemma CrashAndDelete(c: Config, k: Key, v: Value) returns (s: State)
    requires c.pass(Put(k, v))
    ensures Leads(c, Init(), s, false)
    ensures s == State([Record(c.bucket, [Put(k, v)]), Record(c.bucket, [Del(k)]), Record(c.bucket, [])],
            [Put(k, v)], InitState(false, None), None, 1, Idle)
  {
    var s6 := PublishFirstPage(c, k, v);
    LeadsStep(c, Init(), s6, Crash, false);
    var s7 := Step(c, s6, Crash);
    LeadsStep(c, Init(), s7, SourceCommit(Record(c.bucket, [Del(k)])), false);
    var s8 := Step(c, s7, SourceCommit(Record(c.bucket, [Del(k)])));
    LeadsStep(c, Init(), s8, SourceCommit(Record(c.bucket, [])), false);
    s := Step(c, s8, SourceCommit(Record(c.bucket, [])));
  }

  /**
    Ghosts do happen, to any key: it is put and published with the first page, the process
    crashes, the key is deleted, and the first page is about to be taken again.
   */
  lemma CrashOnFirstPageMakesAGhost(c: Config, k: Key, v: Value) returns (s: State)
    requires c.pass(Put(k, v)) && c.pass(Del(k))
    ensures Leads(c, Init(), s, false)
    ensures Enabled(c, s, ReadWatermark) && AllPass(c, s.log, k) && Ghost(c, s, k) && !ConvergesFrom(c, s, k)
  {
    s := CrashAndDelete(c, k, v);
    TwoLogs(c, k, v);
    PutThenDeleted(c, k, v);
    GhostDiverges(c, s, k);
  }

  // Offsets

  /**
    In every run the stored offset decreases only when its node is overwritten with no number, and the
    one in memory only when a crash restores the stored one.
   */
  lemma OffsetNeverDecreases(c: Config, pre: seq<Event>, e: Event)
    requires Run(c, Init(), pre) && Enabled(c, Exec(c, Init(), pre), e)
    ensures var s := Exec(c, Init(), pre); var s' := Step(c, s, e);
            && (if e.CorruptOffset? then StoredOffset(s') == 1 else StoredOffset(s) <= StoredOffset(s'))
            && StoredOffset(s') <= s'.logOffset <= |s'.log| + 1
            && (if e.Crash? then s'.logOffset == StoredOffset(s) else s.logOffset <= s'.logOffset)
  {
    InitHolds(c, 0);
    RunFacts(c, Init(), pre, 0);
    BaseKeeps(c, Exec(c, Init(), pre), e);
  }

  lemma {:induction false} StoredOffsetOverRuns(c: Config, pre: seq<Event>, es: seq<Event>)
    requires Run(c, Init(), pre) && Run(c, Exec(c, Init(), pre), es) && CorruptOffset !in es
    ensures StoredOffset(Exec(c, Init(), pre)) <= StoredOffset(Exec(c, Exec(c, Init(), pre), es))
    decreases |es|
  {
    if es != [] {
      OffsetNeverDecreases(c, pre, es[0]);
      assert [es[0]][1..] == [];
      RunConcat(c, Init(), pre, [es[0]]);
      StoredOffsetOverRuns(c, pre + [es[0]], es[1..]);
    }
  }
}
