/**
  The difference between the workflows a configuration asks for and the ones a service has
  already applied, bucket by bucket, and the patch that it stands for.
 */
module WorkflowUpdates {
  import opened Options
  import opened Positions

  /** The properties of a workflow other than its identifier, compared as a whole. */
  type Props = map<string, string>

  datatype Workflow = Workflow(workflowId: string, props: Props)

  datatype Change = Change(previous: Workflow, current: Workflow)

  /** The updates of a bucket. The list of deleted workflows is in no promised order, hence a set. */
  datatype Update = Update(added: seq<Workflow>, modified: seq<Change>, deleted: set<Workflow>)

  /** Configured workflows by bucket; a bucket may be present with a null list. */
  type Configured = map<string, Option<seq<Workflow>>>

  /** The workflows of a bucket by identifier, and those of a service by bucket. */
  type Indexed = map<string, Workflow>
  type Applied = map<string, Indexed>

  function ConfiguredIn(conf: Configured, bucket: string): seq<Workflow> {
    if bucket in conf then conf[bucket].GetOr([]) else []
  }

  function AppliedIn(cur: Applied, bucket: string): Indexed {
    if bucket in cur then cur[bucket] else map[]
  }

  // What the difference means

  /** Workflows by identifier; of several with the same one the last is kept. */
  function Index(wfs: seq<Workflow>): Indexed {
    if wfs == [] then map[]
    else
      var last := wfs[|wfs| - 1];
      Index(wfs[..|wfs| - 1])[last.workflowId := last]
  }

  predicate HasId(wfs: seq<Workflow>, id: string) {
    exists i :: 0 <= i < |wfs| && wfs[i].workflowId == id
  }

  /** No two different workflows share an identifier. */
  predicate ConsistentIds(wfs: seq<Workflow>) {
    forall i, j :: 0 <= i < j < |wfs| && wfs[i].workflowId == wfs[j].workflowId ==> wfs[i] == wfs[j]
  }

  /** Every workflow is stored under its own identifier. */
  predicate KeyedById(cur: Indexed) {
    forall id :: id in cur ==> cur[id].workflowId == id
  }

  function NewOnes(wfs: seq<Workflow>, cur: Indexed): seq<Workflow> {
    if wfs == [] then []
    else
      var last := wfs[|wfs| - 1];
      NewOnes(wfs[..|wfs| - 1], cur) + (if last.workflowId in cur then [] else [last])
  }

  function ChangeTo(wf: Workflow, cur: Indexed): seq<Change> {
    if wf.workflowId in cur && cur[wf.workflowId] != wf then [Change(cur[wf.workflowId], wf)] else []
  }

  function Changes(wfs: seq<Workflow>, cur: Indexed): seq<Change> {
    if wfs == [] then []
    else
      var last := wfs[|wfs| - 1];
      Changes(wfs[..|wfs| - 1], cur) + ChangeTo(last, cur)
  }

  function Unchanged(wfs: seq<Workflow>, cur: Indexed): seq<Workflow> {
    if wfs == [] then []
    else
      var last := wfs[|wfs| - 1];
      var before := Unchanged(wfs[..|wfs| - 1], cur);
      if last.workflowId in cur && cur[last.workflowId] == last then before + [last] else before
  }

  function Gone(wfs: seq<Workflow>, cur: Indexed): set<Workflow> {
    set id | id in cur && !HasId(wfs, cur[id].workflowId) :: cur[id]
  }

  function BucketDiff(wfs: seq<Workflow>, cur: Indexed): Update {
    Update(NewOnes(wfs, cur), Changes(wfs, cur), Gone(wfs, cur))
  }

  predicate Empty(u: Update) {
    u.added == [] && u.modified == [] && u.deleted == {}
  }

  /** The updates of every bucket that has some. */
  function Diff(conf: Configured, cur: Applied): map<string, Update> {
    map b | b in conf.Keys + cur.Keys && !Empty(BucketDiff(ConfiguredIn(conf, b), AppliedIn(cur, b)))
      :: BucketDiff(ConfiguredIn(conf, b), AppliedIn(cur, b))
  }

  function Currents(changes: seq<Change>): seq<Workflow> {
    seq(|changes|, i requires 0 <= i < |changes| => changes[i].current)
  }

  /** Applied workflows once an update is carried out. */
  function Patch(cur: Indexed, u: Update): Indexed {
    var kept := map id | id in cur && cur[id] !in u.deleted :: cur[id];
    kept + Index(Currents(u.modified)) + Index(u.added)
  }

  // Membership

  lemma {:induction false} IndexHas(wfs: seq<Workflow>, id: string)
    ensures id in Index(wfs) <==> HasId(wfs, id)
    ensures id in Index(wfs) ==> Index(wfs)[id] in wfs && Index(wfs)[id].workflowId == id
  {
    if wfs != [] {
      var init, last := wfs[..|wfs| - 1], wfs[|wfs| - 1];
      IndexHas(init, id);
      if HasId(init, id) {
        var i :| 0 <= i < |init| && init[i].workflowId == id;
        assert wfs[i].workflowId == id;
      }
      assert HasId(wfs, last.workflowId);
      if HasId(wfs, id) && last.workflowId != id {
        var i :| 0 <= i < |wfs| && wfs[i].workflowId == id;
        assert init[i].workflowId == id;
      }
    }
  }

  lemma IndexConsistent(wfs: seq<Workflow>, wf: Workflow)
    requires ConsistentIds(wfs) && wf in wfs
    ensures wf.workflowId in Index(wfs) && Index(wfs)[wf.workflowId] == wf
  {
    IndexHas(wfs, wf.workflowId);
    assert HasId(wfs, wf.workflowId);
  }

  lemma IndexIsKeyed(wfs: seq<Workflow>)
    ensures KeyedById(Index(wfs))
  {
    forall id | id in Index(wfs) ensures Index(wfs)[id].workflowId == id {
      IndexHas(wfs, id);
    }
  }

  lemma {:induction false} NewOnesHave(wfs: seq<Workflow>, cur: Indexed, wf: Workflow)
    ensures wf in NewOnes(wfs, cur) <==> wf in wfs && wf.workflowId !in cur
  {
    if wfs != [] {
      NewOnesHave(wfs[..|wfs| - 1], cur, wf);
      assert wfs == wfs[..|wfs| - 1] + [wfs[|wfs| - 1]];
    }
  }

  lemma {:induction false} ChangesHave(wfs: seq<Workflow>, cur: Indexed, c: Change)
    ensures c in Changes(wfs, cur) <==>
            c.current in wfs && c.current.workflowId in cur && c.previous == cur[c.current.workflowId]
              && c.previous != c.current
  {
    if wfs != [] {
      ChangesHave(wfs[..|wfs| - 1], cur, c);
      assert wfs == wfs[..|wfs| - 1] + [wfs[|wfs| - 1]];
    }
  }

  lemma CurrentsHave(wfs: seq<Workflow>, cur: Indexed, wf: Workflow)
    ensures wf in Currents(Changes(wfs, cur)) <==> wf in wfs && wf.workflowId in cur && cur[wf.workflowId] != wf
  {
    var changes := Changes(wfs, cur);
    if wf in Currents(changes) {
      var i :| 0 <= i < |changes| && changes[i].current == wf;
      ChangesHave(wfs, cur, changes[i]);
    }
    if wf in wfs && wf.workflowId in cur && cur[wf.workflowId] != wf {
      var c := Change(cur[wf.workflowId], wf);
      ChangesHave(wfs, cur, c);
      var i :| 0 <= i < |changes| && changes[i] == c;
      assert Currents(changes)[i] == wf;
    }
  }

  /** Of several workflows with an identifier the last is the one indexed. */
  lemma {:induction false} IndexKeepsLast(wfs: seq<Workflow>, i: nat)
    requires i < |wfs| && forall j :: i < j < |wfs| ==> wfs[j].workflowId != wfs[i].workflowId
    ensures wfs[i].workflowId in Index(wfs) && Index(wfs)[wfs[i].workflowId] == wfs[i]
  {
    if i < |wfs| - 1 {
      IndexKeepsLast(wfs[..|wfs| - 1], i);
    }
  }

  // Which workflows, and in which order

  /** `news` stand among the configured workflows at the positions `ps`, which are all those not applied yet. */
  predicate NewAt(wfs: seq<Workflow>, cur: Indexed, news: seq<Workflow>, ps: seq<nat>) {
    && Rising(ps, |wfs|) && |news| == |ps|
    && (forall j :: 0 <= j < |ps| ==> news[j] == wfs[ps[j]])
    && (forall k :: 0 <= k < |wfs| ==> (wfs[k].workflowId !in cur <==> k in ps))
  }

  lemma OneMoreNew(wfs: seq<Workflow>, cur: Indexed, news: seq<Workflow>, ps: seq<nat>, wf: Workflow)
    returns (more: seq<nat>)
    requires NewAt(wfs, cur, news, ps)
    ensures NewAt(wfs + [wf], cur, news + (if wf.workflowId in cur then [] else [wf]), more)
  {
    more := OneMorePosition(ps, |wfs|, wf.workflowId !in cur);
  }

  lemma {:induction false} NewOnesAreExact(wfs: seq<Workflow>, cur: Indexed) returns (ps: seq<nat>)
    ensures NewAt(wfs, cur, NewOnes(wfs, cur), ps)
  {
    if wfs == [] {
      ps := [];
    } else {
      hide NewAt;
      var init, last := wfs[..|wfs| - 1], wfs[|wfs| - 1];
      var before := NewOnesAreExact(init, cur);
      ps := OneMoreNew(init, cur, NewOnes(init, cur), before, last);
      assert init + [last] == wfs;
    }
  }

  /** `changes` are from what is applied to the workflows at the positions `ps`, all those applied otherwise. */
  predicate ChangedAt(wfs: seq<Workflow>, cur: Indexed, changes: seq<Change>, ps: seq<nat>) {
    && Rising(ps, |wfs|) && |changes| == |ps|
    && (forall j :: 0 <= j < |ps| ==>
          wfs[ps[j]].workflowId in cur && changes[j] == Change(cur[wfs[ps[j]].workflowId], wfs[ps[j]]))
    && (forall k :: 0 <= k < |wfs| ==> (wfs[k].workflowId in cur && cur[wfs[k].workflowId] != wfs[k] <==> k in ps))
  }

  lemma OneMoreChange(wfs: seq<Workflow>, cur: Indexed, changes: seq<Change>, ps: seq<nat>, wf: Workflow)
    returns (more: seq<nat>)
    requires ChangedAt(wfs, cur, changes, ps)
    ensures ChangedAt(wfs + [wf], cur, changes + ChangeTo(wf, cur), more)
  {
    more := OneMorePosition(ps, |wfs|, wf.workflowId in cur && cur[wf.workflowId] != wf);
  }

  lemma {:induction false} ChangesAreExact(wfs: seq<Workflow>, cur: Indexed) returns (ps: seq<nat>)
    ensures ChangedAt(wfs, cur, Changes(wfs, cur), ps)
  {
    if wfs == [] {
      ps := [];
    } else {
      hide ChangedAt;
      var init, last := wfs[..|wfs| - 1], wfs[|wfs| - 1];
      var before := ChangesAreExact(init, cur);
      ps := OneMoreChange(init, cur, Changes(init, cur), before, last);
      assert init + [last] == wfs;
    }
  }

  // What the difference promises

  predicate Split(all: seq<Workflow>, a: seq<Workflow>, b: seq<Workflow>, c: seq<Workflow>) {
    multiset(all) == multiset(a) + multiset(b) + multiset(c)
  }

  lemma SplitOneMore(all: seq<Workflow>, a: seq<Workflow>, b: seq<Workflow>, c: seq<Workflow>, x: Workflow)
    requires Split(all, a, b, c)
    ensures Split(all + [x], a + [x], b, c) && Split(all + [x], a, b + [x], c) && Split(all + [x], a, b, c + [x])
  {
  }

  lemma CurrentsOneMore(changes: seq<Change>, c: Change)
    ensures Currents(changes + [c]) == Currents(changes) + [c.current]
  {
  }

  lemma PartsOneMore(wfs: seq<Workflow>, cur: Indexed, last: Workflow)
    ensures var all := wfs + [last];
            var isNew, same := last.workflowId !in cur, last.workflowId in cur && cur[last.workflowId] == last;
            && NewOnes(all, cur) == (if isNew then NewOnes(wfs, cur) + [last] else NewOnes(wfs, cur))
            && Currents(Changes(all, cur)) ==
               (if isNew || same then Currents(Changes(wfs, cur)) else Currents(Changes(wfs, cur)) + [last])
            && Unchanged(all, cur) == (if same then Unchanged(wfs, cur) + [last] else Unchanged(wfs, cur))
  {
    assert (wfs + [last])[..|wfs|] == wfs;
    if ChangeTo(last, cur) != [] {
      CurrentsOneMore(Changes(wfs, cur), Change(cur[last.workflowId], last));
    }
  }

  /** New, modified and unchanged workflows split the configured ones, with none lost or repeated. */
  lemma {:induction false} ConfiguredAreSplit(wfs: seq<Workflow>, cur: Indexed)
    ensures Split(wfs, NewOnes(wfs, cur), Currents(Changes(wfs, cur)), Unchanged(wfs, cur))
  {
    if wfs != [] {
      hide NewOnes, Changes, Currents, Unchanged, Split;
      var init, last := wfs[..|wfs| - 1], wfs[|wfs| - 1];
      assert wfs == init + [last];
      ConfiguredAreSplit(init, cur);
      SplitOneMore(init, NewOnes(init, cur), Currents(Changes(init, cur)), Unchanged(init, cur), last);
      PartsOneMore(init, cur, last);
    }
  }

  predicate IsPrevious(changes: seq<Change>, wf: Workflow) {
    exists i :: 0 <= i < |changes| && changes[i].previous == wf
  }

  /** Each applied workflow is deleted, or the previous form of a modified one, or configured as it is. */
  lemma AppliedAreSplit(wfs: seq<Workflow>, cur: Indexed, id: string)
    requires KeyedById(cur) && ConsistentIds(wfs) && id in cur
    ensures cur[id] in Gone(wfs, cur) <==> !HasId(wfs, id)
    ensures IsPrevious(Changes(wfs, cur), cur[id]) <==> HasId(wfs, id) && cur[id] !in wfs
  {
    if HasId(wfs, id) && cur[id] !in wfs {
      var i :| 0 <= i < |wfs| && wfs[i].workflowId == id;
      var c := Change(cur[id], wfs[i]);
      ChangesHave(wfs, cur, c);
      var k :| 0 <= k < |Changes(wfs, cur)| && Changes(wfs, cur)[k] == c;
      assert IsPrevious(Changes(wfs, cur), cur[id]);
    }
    if IsPrevious(Changes(wfs, cur), cur[id]) {
      var k :| 0 <= k < |Changes(wfs, cur)| && Changes(wfs, cur)[k].previous == cur[id];
      ChangesHave(wfs, cur, Changes(wfs, cur)[k]);
    }
  }

  /** Carrying out the difference leaves exactly the configured workflows. */
  lemma PatchGivesConfigured(wfs: seq<Workflow>, cur: Indexed)
    requires KeyedById(cur) && ConsistentIds(wfs)
    ensures Patch(cur, BucketDiff(wfs, cur)) == Index(wfs)
  {
    forall id ensures PatchedAt(wfs, cur, id) {
      PatchAgreesAt(wfs, cur, id);
    }
    var p := Patch(cur, BucketDiff(wfs, cur));
    forall id | id in p || id in Index(wfs) ensures id in p && id in Index(wfs) && p[id] == Index(wfs)[id] {
      assert PatchedAt(wfs, cur, id);
    }
  }

  predicate PatchedAt(wfs: seq<Workflow>, cur: Indexed, id: string) {
    var p := Patch(cur, BucketDiff(wfs, cur));
    if id in Index(wfs) then id in p && p[id] == Index(wfs)[id] else id !in p
  }

  lemma PatchAgreesAt(wfs: seq<Workflow>, cur: Indexed, id: string)
    requires KeyedById(cur) && ConsistentIds(wfs)
    ensures PatchedAt(wfs, cur, id)
  {
    var news, mods := NewOnes(wfs, cur), Currents(Changes(wfs, cur));
    IndexHas(wfs, id);
    IndexHas(news, id);
    IndexHas(mods, id);
    if HasId(wfs, id) {
      var wf := Index(wfs)[id];
      NewOnesHave(wfs, cur, wf);
      CurrentsHave(wfs, cur, wf);
      if id in Index(news) {
        NewOnesHave(wfs, cur, Index(news)[id]);
        IndexConsistent(wfs, Index(news)[id]);
      }
      if id in Index(mods) {
        CurrentsHave(wfs, cur, Index(mods)[id]);
        IndexConsistent(wfs, Index(mods)[id]);
      }
    } else {
      if id in Index(news) {
        NewOnesHave(wfs, cur, Index(news)[id]);
      }
      if id in Index(mods) {
        CurrentsHave(wfs, cur, Index(mods)[id]);
      }
    }
  }

  /** No update means that what is applied is what is configured, even when identifiers repeat. */
  lemma NoUpdateMeansAgreement(wfs: seq<Workflow>, cur: Indexed)
    requires KeyedById(cur) && Empty(BucketDiff(wfs, cur))
    ensures cur == Index(wfs)
  {
    forall id | id in cur || id in Index(wfs) ensures id in cur && id in Index(wfs) && cur[id] == Index(wfs)[id] {
      IndexHas(wfs, id);
      if id in cur {
        assert cur[id] !in Gone(wfs, cur);
      }
      var wf := Index(wfs)[id];
      NewOnesHave(wfs, cur, wf);
      CurrentsHave(wfs, cur, wf);
    }
  }

  lemma AgreementMeansNoUpdate(wfs: seq<Workflow>)
    requires ConsistentIds(wfs)
    ensures Empty(BucketDiff(wfs, Index(wfs)))
  {
    var cur := Index(wfs);
    var news, changes := NewOnes(wfs, cur), Changes(wfs, cur);
    if news != [] {
      NewOnesHave(wfs, cur, news[0]);
      IndexConsistent(wfs, news[0]);
    }
    if changes != [] {
      ChangesHave(wfs, cur, changes[0]);
      IndexConsistent(wfs, changes[0].current);
    }
    forall id | id in cur ensures HasId(wfs, cur[id].workflowId) {
      IndexHas(wfs, id);
    }
  }

  /** Once the configuration is applied there is nothing to update, exactly when its identifiers are consistent. */
  lemma SettlesExactly(wfs: seq<Workflow>)
    ensures Empty(BucketDiff(wfs, Index(wfs))) <==> ConsistentIds(wfs)
  {
    if ConsistentIds(wfs) {
      AgreementMeansNoUpdate(wfs);
    } else {
      var i, j :| 0 <= i < j < |wfs| && wfs[i].workflowId == wfs[j].workflowId && wfs[i] != wfs[j];
      IndexHas(wfs, wfs[i].workflowId);
      CurrentsHave(wfs, Index(wfs), wfs[i]);
      CurrentsHave(wfs, Index(wfs), wfs[j]);
    }
  }

  /** A bucket is absent from the difference exactly when configured and applied agree. */
  lemma AbsentExactlyWhenAgreeing(conf: Configured, cur: Applied, bucket: string)
    requires ConsistentIds(ConfiguredIn(conf, bucket)) && KeyedById(AppliedIn(cur, bucket))
    ensures bucket !in Diff(conf, cur) <==> AppliedIn(cur, bucket) == Index(ConfiguredIn(conf, bucket))
  {
    var wfs, idx := ConfiguredIn(conf, bucket), AppliedIn(cur, bucket);
    if Empty(BucketDiff(wfs, idx)) {
      NoUpdateMeansAgreement(wfs, idx);
    } else if idx == Index(wfs) {
      AgreementMeansNoUpdate(wfs);
    }
    if bucket !in conf && bucket !in cur {
      assert BucketDiff([], map[]) == Update([], [], {});
    }
  }

  /** Carrying out all the updates leaves exactly the configured workflows in every bucket, and no update is empty. */
  lemma DiffPatchesAll(conf: Configured, cur: Applied, bucket: string)
    requires ConsistentIds(ConfiguredIn(conf, bucket)) && KeyedById(AppliedIn(cur, bucket))
    ensures var diff := Diff(conf, cur);
            if bucket in diff
            then !Empty(diff[bucket])
                 && Patch(AppliedIn(cur, bucket), diff[bucket]) == Index(ConfiguredIn(conf, bucket))
            else AppliedIn(cur, bucket) == Index(ConfiguredIn(conf, bucket))
  {
    PatchGivesConfigured(ConfiguredIn(conf, bucket), AppliedIn(cur, bucket));
    AbsentExactlyWhenAgreeing(conf, cur, bucket);
  }

  // The computation

  lemma DiffOfUnapplied(wfs: seq<Workflow>)
    ensures BucketDiff(wfs, map[]) == Update(wfs, [], {})
  {
    NewOnesOfUnapplied(wfs);
  }

  lemma {:induction false} NewOnesOfUnapplied(wfs: seq<Workflow>)
    ensures NewOnes(wfs, map[]) == wfs && Changes(wfs, map[]) == []
  {
    if wfs != [] {
      NewOnesOfUnapplied(wfs[..|wfs| - 1]);
    }
  }

  lemma DiffOfUnconfigured(cur: Indexed)
    ensures BucketDiff([], cur) == Update([], [], cur.Values)
  {
  }

  method CompareBucket(wfs: seq<Workflow>, cur: Indexed) returns (u: Update)
    ensures u == BucketDiff(wfs, cur)
    ensures (exists ps :: NewAt(wfs, cur, u.added, ps)) && (exists ps :: ChangedAt(wfs, cur, u.modified, ps))
    ensures forall wf :: wf in u.deleted <==> exists id :: id in cur && cur[id] == wf && !HasId(wfs, wf.workflowId)
  {
    var added: seq<Workflow>, modified: seq<Change> := [], [];
    for i := 0 to |wfs|
      invariant added == NewOnes(wfs[..i], cur) && modified == Changes(wfs[..i], cur)
    {
      var wf := wfs[i];
      assert wfs[..i + 1][..i] == wfs[..i];
      if wf.workflowId !in cur {
        added := added + [wf];
      } else if wf != cur[wf.workflowId] {
        modified := modified + [Change(cur[wf.workflowId], wf)];
      }
    }
    assert wfs[..|wfs|] == wfs;
    u := Update(added, modified, set id | id in cur && !HasId(wfs, cur[id].workflowId) :: cur[id]);
    ghost var ps := NewOnesAreExact(wfs, cur);
    ps := ChangesAreExact(wfs, cur);
  }

  function NonEmpty(u: Update): Option<Update> {
    if Empty(u) then None else Some(u)
  }

  method UpdateConfigured(wfs: seq<Workflow>, cur: Applied, bucket: string) returns (u: Option<Update>)
    ensures u == NonEmpty(BucketDiff(wfs, AppliedIn(cur, bucket)))
  {
    if bucket !in cur {
      DiffOfUnapplied(wfs);
      return if |wfs| > 0 then Some(Update(wfs, [], {})) else None;
    }
    var d := CompareBucket(wfs, cur[bucket]);
    return if |d.added| > 0 || |d.modified| > 0 || d.deleted != {} then Some(d) else None;
  }

  method UpdateUnconfigured(cur: Indexed) returns (u: Option<Update>)
    ensures u == NonEmpty(BucketDiff([], cur))
  {
    DiffOfUnconfigured(cur);
    return if cur.Values != {} then Some(Update([], [], cur.Values)) else None;
  }

  /** The updates collected so far are those of the buckets in `done`. */
  ghost predicate Collected(updates: map<string, Update>, conf: Configured, cur: Applied, done: set<string>) {
    && (forall b :: b in updates <==> b in done && !Empty(BucketDiff(ConfiguredIn(conf, b), AppliedIn(cur, b))))
    && (forall b :: b in updates ==> updates[b] == BucketDiff(ConfiguredIn(conf, b), AppliedIn(cur, b)))
  }

  lemma CollectOne(updates: map<string, Update>, conf: Configured, cur: Applied, done: set<string>, b: string)
    requires Collected(updates, conf, cur, done) && b !in done
    ensures var u := NonEmpty(BucketDiff(ConfiguredIn(conf, b), AppliedIn(cur, b)));
            Collected(if u.Some? then updates[b := u.value] else updates, conf, cur, done + {b})
  {
  }

  lemma CollectedAll(updates: map<string, Update>, conf: Configured, cur: Applied, done: set<string>)
    requires Collected(updates, conf, cur, done)
    requires forall b :: b in done <==> (b in conf && conf[b].Some?) || b in cur
    ensures updates == Diff(conf, cur)
  {
    DiffOfUnapplied([]);
  }

  /** The first loop: every configured bucket. */
  method UpdatesOfConfigured(conf: Configured, cur: Applied) returns (updates: map<string, Update>)
    ensures Collected(updates, conf, cur, set b | b in conf && conf[b].Some?)
  {
    updates := map[];
    ghost var done: set<string> := {};
    var names := conf.Keys;
    while names != {}
      invariant names <= conf.Keys
      invariant done == set b | b in conf && b !in names && conf[b].Some?
      invariant Collected(updates, conf, cur, done)
      decreases names
    {
      var b :| b in names;
      names := names - {b};
      if conf[b].Some? {
        CollectOne(updates, conf, cur, done, b);
        var u := UpdateConfigured(conf[b].value, cur, b);
        if u.Some? {
          updates := updates[b := u.value];
        }
        done := done + {b};
      }
    }
    assert done == set b | b in conf && conf[b].Some?;
  }

  /** The difference; the second loop adds the buckets that are only applied. */
  method GetWorkflowUpdates(configured: Option<Configured>, applied: Option<Applied>)
      returns (updates: map<string, Update>)
    ensures updates == Diff(configured.GetOr(map[]), applied.GetOr(map[]))
    ensures forall b :: b in updates ==>
              updates[b] == BucketDiff(ConfiguredIn(configured.GetOr(map[]), b), AppliedIn(applied.GetOr(map[]), b))
  {
    var conf, cur := configured.GetOr(map[]), applied.GetOr(map[]);
    updates := UpdatesOfConfigured(conf, cur);
    ghost var done := set b | b in conf && conf[b].Some?;
    var names := cur.Keys;
    while names != {}
      invariant names <= cur.Keys
      invariant forall b :: b in done <==> (b in conf && conf[b].Some?) || (b in cur && b !in names)
      invariant Collected(updates, conf, cur, done)
      decreases names
    {
      var b :| b in names;
      names := names - {b};
      if b !in conf || conf[b].None? {
        CollectOne(updates, conf, cur, done, b);
        var u := UpdateUnconfigured(cur[b]);
        if u.Some? {
          updates := updates[b := u.value];
        }
        done := done + {b};
      }
    }
    CollectedAll(updates, conf, cur, done);
  }
}
