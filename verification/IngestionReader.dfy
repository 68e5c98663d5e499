/** The ingestion reader as an object: its offset field, and the nodes it owns in Zookeeper. */
module IngestionReader {
  import opened Options
  import opened KeyedOps
  import opened Ingestion

  /** The entries of a page of the snapshot that pass the filter, in the order they were fetched. */
  method PrepareSnapshotEntries(c: Config, entries: seq<Op>) returns (batch: seq<Op>)
    ensures batch == Passing(entries, c.pass)
    // it is what the protocol goes on to publish
    ensures forall s :: Enabled(c, s, EndFetch) && s.phase.got == entries ==>
              Step(c, s, EndFetch).phase == Publishing(batch, Some(s.phase.next), s.phase.cseq)
  {
    batch := [];
    for i := 0 to |entries|
      invariant batch == Passing(entries[..i], c.pass)
    {
      assert entries[..i + 1][..i] == entries[..i];
      if c.pass(entries[i]) {
        batch := batch + [entries[i]];
      }
    }
    assert entries[..|entries|] == entries;
  }

  /** The entries of log records on the source bucket that pass the filter, in log order. */
  method PrepareLogEntries(c: Config, records: seq<Record>) returns (batch: seq<Op>, nbRecords: nat)
    ensures batch == Passing(BucketOps(records, c.bucket), c.pass)
    ensures nbRecords == |records|
    // it is what the protocol goes on to publish when these are the records read
    ensures forall s :: Enabled(c, s, ReadLog(|records|))
                        && s.log[s.logOffset - 1..s.logOffset - 1 + |records|] == records ==>
              Step(c, s, ReadLog(|records|)).phase == Publishing(batch, None, Some(s.logOffset + nbRecords))
  {
    batch, nbRecords := [], 0;
    for i := 0 to |records|
      invariant nbRecords == i
      invariant batch == Passing(BucketOps(records[..i], c.bucket), c.pass)
    {
      nbRecords := nbRecords + 1;
      assert records[..i + 1][..i] == records[..i];
      if records[i].db == c.bucket {
        var passed := PrepareSnapshotEntries(c, records[i].entries);
        PassingConcat(BucketOps(records[..i], c.bucket), records[i].entries, c.pass);
        batch := batch + passed;
      } else {
        assert BucketOps(records[..i], c.bucket) + [] == BucketOps(records[..i], c.bucket);
      }
    }
    assert records[..|records|] == records;
  }

  class Reader {
    var logOffset: nat
    var zkInit: InitState
    var zkOffset: Option<nat>

    constructor ()
      ensures View([], [], Idle) == Init()
    {
      logOffset, zkInit, zkOffset := 1, InitState(false, None), None;
    }

    /** The protocol state around this reader. */
    ghost function View(log: seq<Record>, stream: seq<Op>, phase: Phase): State
      reads this
    {
      State(log, stream, zkInit, zkOffset, logOffset, phase)
    }

    /** Start or restart: the offset comes from Zookeeper, or is 1 if there is none or it is not a number. */
    method Setup(ghost log: seq<Record>, ghost stream: seq<Op>, ghost phase: Phase, ghost c: Config)
      modifies this
      ensures View(log, stream, Idle) == Step(c, old(View(log, stream, phase)), Crash)
      ensures match zkOffset case Some(stored) => logOffset == stored case None => logOffset == 1
    {
      logOffset := if zkOffset.Some? then zkOffset.value else 1;
    }

    /** The next offset of a batch: the watermark on a first page, the records read on a log batch. */
    method NextLogOffset(init: Option<InitState>, cseq: Option<nat>, start: Option<nat>, nbRecords: nat,
        ghost c: Config, ghost s: State)
      returns (next: Option<nat>)
      // it is the offset that the batch carries in the protocol
      ensures init.Some? && Enabled(c, s, EndFetch) && s.phase.cseq == cseq && cseq != Some(0) ==>
                next == Step(c, s, EndFetch).phase.nextOffset
      ensures init.None? && Enabled(c, s, ReadLog(nbRecords)) && start == Some(s.logOffset) ==>
                next == Step(c, s, ReadLog(nbRecords)).phase.nextOffset
      ensures init.None? && Enabled(c, s, ReadNoStart) && start.None? && nbRecords == 0 ==>
                next == Step(c, s, ReadNoStart).phase.nextOffset
      ensures init.Some? ==> next == if cseq == Some(0) then None else cseq
      ensures init.None? && start.Some? ==> next == Some(start.value + nbRecords)
      ensures init.None? && start.None? ==> next == Some(nbRecords)
    {
      next := None;
      if init.Some? && cseq.Some? && cseq.value != 0 {
        next := Some(cseq.value);
      }
      if init.None? {
        next := Some(start.GetOr(0) + nbRecords);
      }
    }

    method WriteLogOffset(applied: bool)
      modifies this`zkOffset
      ensures zkOffset == if applied then Some(logOffset) else old(zkOffset)
    {
      if applied {
        zkOffset := Some(logOffset);
      }
    }

    /** Write the nodes of the init state, of which Zookeeper may apply either. */
    method WriteInitState(init: InitState, flagApplied: bool, markerApplied: bool, nullMarker: Key, ghost c: Config)
      requires c.nullMarker == nullMarker
      modifies this`zkInit
      ensures zkInit == Written(c, old(zkInit), init, flagApplied, markerApplied)
      ensures zkInit.complete == if flagApplied then init.complete else old(zkInit.complete)
      ensures zkInit.marker == if markerApplied then Some(init.marker.GetOr(nullMarker)) else old(zkInit.marker)
    {
      if flagApplied {
        zkInit := zkInit.(complete := init.complete);
      }
      if markerApplied {
        zkInit := zkInit.(marker := Some(if init.marker.Some? then init.marker.value else nullMarker));
      }
    }

    /**
      Save the progress of a published batch: first the init state, if the batch came
      from the snapshot, then the offset. The outcome of each write is up to Zookeeper.
     */
    method ProcessSaveLogOffset(init: Option<InitState>, next: Option<nat>,
                                flagApplied: bool, markerApplied: bool, initOk: bool, offsetApplied: bool,
                                nullMarker: Key, ghost c: Config, ghost log: seq<Record>, ghost stream: seq<Op>)
      returns (ok: bool)
      requires (initOk ==> flagApplied && markerApplied) && c.nullMarker == nullMarker
      modifies this
      ensures init.Some? && !initOk ==>
                && !ok
                && View(log, stream, Idle) ==
                   Step(c, old(View(log, stream, SavingInit(init.value, next))),
                     WriteInit(flagApplied, markerApplied, false))
      ensures init.Some? && initOk ==>
                var saved := Step(c, old(View(log, stream, SavingInit(init.value, next))), WriteInit(true, true, true));
                View(log, stream, Idle) == Step(c, saved, WriteOffset(offsetApplied))
      ensures init.None? ==>
                View(log, stream, Idle) ==
                  Step(c, old(View(log, stream, SavingOffset(next))), WriteOffset(offsetApplied))
      // the same with numbers: what is kept in memory and in the nodes
      ensures init.None? ==> zkInit == old(zkInit)
      ensures init.Some? && flagApplied ==> zkInit.complete == init.value.complete
      ensures init.Some? && markerApplied ==> zkInit.marker == Some(init.value.marker.GetOr(nullMarker))
      ensures var moves := (init.None? || initOk) && next.Some? && next.value != old(logOffset);
              && logOffset == (if moves && next.value > old(logOffset) then next.value else old(logOffset))
              && zkOffset == (if moves && offsetApplied then Some(logOffset) else old(zkOffset))
              && ok == ((init.None? || initOk) && (moves ==> offsetApplied))
    {
      if init.Some? {
        WriteInitState(init.value, flagApplied, markerApplied, nullMarker, c);
        if !initOk {
          return false;
        }
      }
      if next.Some? && next.value != logOffset {
        if next.value > logOffset {
          logOffset := next.value;
        }
        WriteLogOffset(offsetApplied);
        return offsetApplied;
      }
      return true;
    }
  }
}
