/**
  Operations on the keys of a bucket, and the value that a sequence of them
  leaves under one key. Both the source log and the published stream are
  sequences of operations, so "the stream converges to the source" is an
  equality between two uses of `Final`.
 */
module KeyedOps {
  import opened Options
  import opened Positions

  /** A key is its position in the listing order of the bucket. */
  type Key = int
  type Value = string

  datatype Op = Put(key: Key, value: Value) | Del(key: Key)

  function After(op: Op, k: Key, before: Option<Value>): Option<Value> {
    if op.key != k then before else if op.Put? then Some(op.value) else None
  }

  /** The value under `k` once `ops` have been applied in order. */
  function Final(ops: seq<Op>, k: Key, before: Option<Value>): Option<Value> {
    if ops == [] then before
    else After(ops[|ops| - 1], k, Final(ops[..|ops| - 1], k, before))
  }

  predicate Touches(ops: seq<Op>, k: Key) {
    exists i :: 0 <= i < |ops| && ops[i].key == k
  }

  /** Every operation on `k` puts the value `current`. */
  predicate OnlyPuts(ops: seq<Op>, k: Key, current: Option<Value>) {
    forall i :: 0 <= i < |ops| && ops[i].key == k ==> current.Some? && ops[i] == Put(k, current.value)
  }

  lemma {:induction false} FinalConcat(a: seq<Op>, b: seq<Op>, k: Key, before: Option<Value>)
    ensures Final(a + b, k, before) == Final(b, k, Final(a, k, before))
  {
    if b == [] {
      assert a + b == a;
    } else {
      FinalConcat(a, b[..|b| - 1], k, before);
      assert (a + b)[..|a + b| - 1] == a + b[..|b| - 1];
    }
  }

  lemma {:induction false} FinalUntouched(ops: seq<Op>, k: Key, before: Option<Value>)
    requires !Touches(ops, k)
    ensures Final(ops, k, before) == before
  {
    if ops != [] {
      FinalUntouched(ops[..|ops| - 1], k, before);
    }
  }

  /** Once a key is touched, what it held before does not matter. */
  lemma {:induction false} FinalTouched(ops: seq<Op>, k: Key, x: Option<Value>, y: Option<Value>)
    requires Touches(ops, k)
    ensures Final(ops, k, x) == Final(ops, k, y)
  {
    var init := ops[..|ops| - 1];
    if ops[|ops| - 1].key != k {
      var i :| 0 <= i < |ops| && ops[i].key == k;
      assert init[i].key == k;
      FinalTouched(init, k, x, y);
    }
  }

  /** A live key was put by some operation. */
  lemma {:induction false} FinalWasPut(ops: seq<Op>, k: Key)
    requires Final(ops, k, None).Some?
    ensures Put(k, Final(ops, k, None).value) in ops
  {
    if ops[|ops| - 1].key != k {
      FinalWasPut(ops[..|ops| - 1], k);
    }
  }

  lemma {:induction false} FinalOnlyPuts(ops: seq<Op>, k: Key, current: Option<Value>, before: Option<Value>)
    requires OnlyPuts(ops, k, current)
    ensures Final(ops, k, before) == if Touches(ops, k) then current else before
  {
    if !Touches(ops, k) {
      FinalUntouched(ops, k, before);
    } else if ops[|ops| - 1].key != k {
      var init := ops[..|ops| - 1];
      var i :| 0 <= i < |ops| && ops[i].key == k;
      assert init[i].key == k;
      FinalOnlyPuts(init, k, current, before);
    }
  }

  /** The last operation on a key decides: a put leaves its value, a deletion leaves none. */
  lemma {:induction false} LastDecides(ops: seq<Op>, k: Key, before: Option<Value>, i: nat)
    requires i < |ops| && ops[i].key == k && forall j :: i < j < |ops| ==> ops[j].key != k
    ensures Final(ops, k, before) == match ops[i] case Put(_, value) => Some(value) case Del(_) => None
  {
    if i < |ops| - 1 {
      LastDecides(ops[..|ops| - 1], k, before, i);
    }
  }

  /** The operations an extension filter lets through, in order. */
  function Passing(ops: seq<Op>, pass: Op -> bool): seq<Op> {
    if ops == [] then []
    else Passing(ops[..|ops| - 1], pass) + (if pass(ops[|ops| - 1]) then [ops[|ops| - 1]] else [])
  }

  /** `kept` stands in `ops` at the positions `ps`, which are all those of operations that pass. */
  predicate PassAt(ops: seq<Op>, pass: Op -> bool, kept: seq<Op>, ps: seq<nat>) {
    && Rising(ps, |ops|) && |kept| == |ps|
    && (forall j :: 0 <= j < |ps| ==> kept[j] == ops[ps[j]])
    && (forall k :: 0 <= k < |ops| ==> (pass(ops[k]) <==> k in ps))
  }

  lemma OneMorePasses(ops: seq<Op>, pass: Op -> bool, kept: seq<Op>, ps: seq<nat>, op: Op) returns (more: seq<nat>)
    requires PassAt(ops, pass, kept, ps)
    ensures PassAt(ops + [op], pass, kept + (if pass(op) then [op] else []), more)
  {
    more := OneMorePosition(ps, |ops|, pass(op));
  }

  lemma {:induction false} PassingIsExact(ops: seq<Op>, pass: Op -> bool) returns (ps: seq<nat>)
    ensures PassAt(ops, pass, Passing(ops, pass), ps)
  {
    if ops == [] {
      ps := [];
    } else {
      hide PassAt;
      var init, last := ops[..|ops| - 1], ops[|ops| - 1];
      var before := PassingIsExact(init, pass);
      ps := OneMorePasses(init, pass, Passing(init, pass), before, last);
      assert init + [last] == ops;
    }
  }

  lemma {:induction false} PassingMember(ops: seq<Op>, pass: Op -> bool, op: Op)
    ensures op in Passing(ops, pass) <==> op in ops && pass(op)
  {
    if ops != [] {
      PassingMember(ops[..|ops| - 1], pass, op);
      assert ops == ops[..|ops| - 1] + [ops[|ops| - 1]];
    }
  }

  lemma {:induction false} PassingConcat(a: seq<Op>, b: seq<Op>, pass: Op -> bool)
    ensures Passing(a + b, pass) == Passing(a, pass) + Passing(b, pass)
  {
    if b == [] {
      assert a + b == a;
    } else {
      PassingConcat(a, b[..|b| - 1], pass);
      assert (a + b)[..|a + b| - 1] == a + b[..|b| - 1];
    }
  }

  /** Filtering is invisible on a key whose operations all pass. */
  lemma {:induction false} PassingFinal(ops: seq<Op>, pass: Op -> bool, k: Key, before: Option<Value>)
    requires forall op :: op in ops && op.key == k ==> pass(op)
    ensures Final(Passing(ops, pass), k, before) == Final(ops, k, before)
    ensures Touches(Passing(ops, pass), k) <==> Touches(ops, k)
  {
    if ops != [] {
      var init, last := ops[..|ops| - 1], ops[|ops| - 1];
      PassingFinal(init, pass, k, before);
      assert ops == init + [last];
      TouchesConcat(init, [last], k);
      TouchesConcat(Passing(init, pass), if pass(last) then [last] else [], k);
      FinalConcat(Passing(init, pass), if pass(last) then [last] else [], k, before);
      assert [last][..0] == [];
    }
  }

  lemma TouchesConcat(a: seq<Op>, b: seq<Op>, k: Key)
    ensures Touches(a + b, k) <==> Touches(a, k) || Touches(b, k)
  {
    if Touches(a, k) {
      var i :| 0 <= i < |a| && a[i].key == k;
      assert (a + b)[i].key == k;
    }
    if Touches(b, k) {
      var i :| 0 <= i < |b| && b[i].key == k;
      assert (a + b)[|a| + i].key == k;
    }
  }

  /** One committed record of the raft log: operations on one bucket. */
  datatype Record = Record(db: string, entries: seq<Op>)

  /** The operations of a log on one bucket, in log order. */
  function BucketOps(log: seq<Record>, bucket: string): seq<Op> {
    if log == [] then []
    else BucketOps(log[..|log| - 1], bucket) + (if log[|log| - 1].db == bucket then log[|log| - 1].entries else [])
  }

  /** The log cut into its records: those of the bucket give all their entries, the others nothing. */
  predicate CutByRecord(log: seq<Record>, bucket: string, ops: seq<Op>, cuts: seq<nat>) {
    && Cuts(cuts, |log|, |ops|)
    && forall i :: 0 <= i < |log| ==> ops[cuts[i]..cuts[i + 1]] == if log[i].db == bucket then log[i].entries else []
  }

  lemma {:induction false} BucketOpsAreExact(log: seq<Record>, bucket: string) returns (cuts: seq<nat>)
    ensures CutByRecord(log, bucket, BucketOps(log, bucket), cuts)
  {
    if log == [] {
      cuts := [0];
    } else {
      var init, last := log[..|log| - 1], log[|log| - 1];
      var before, more := BucketOps(init, bucket), if last.db == bucket then last.entries else [];
      var cs := BucketOpsAreExact(init, bucket);
      OneMoreCut(cs, |init|, |before|, |more|);
      cuts := cs + [|before| + |more|];
      forall i | 0 <= i < |log|
        ensures (before + more)[cuts[i]..cuts[i + 1]] == if log[i].db == bucket then log[i].entries else []
      {
        if i < |init| {
          assert before[cs[i]..cs[i + 1]] == (before + more)[cs[i]..cs[i + 1]];
        }
      }
    }
  }

  lemma {:induction false} BucketOpsConcat(a: seq<Record>, b: seq<Record>, bucket: string)
    ensures BucketOps(a + b, bucket) == BucketOps(a, bucket) + BucketOps(b, bucket)
  {
    if b == [] {
      assert a + b == a;
    } else {
      BucketOpsConcat(a, b[..|b| - 1], bucket);
      assert (a + b)[..|a + b| - 1] == a + b[..|b| - 1];
    }
  }
}
