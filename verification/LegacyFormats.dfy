/**
  The formats that replication used before workflows: streams listed in the configuration,
  and streams by identifier in the service state. Both are converted to workflows by bucket.
 */
module LegacyFormats {
  import opened Options
  import opened Positions
  import opened WorkflowUpdates

  /** A replication stream: its identifier and its other properties, among them its source bucket. */
  datatype Stream = Stream(streamId: string, props: Props)

  /** The workflows by service, and the streams if the format is still the old one. */
  datatype Overlay = Overlay(workflows: Option<map<string, Configured>>, streams: Option<seq<Stream>>)

  datatype State = State(workflows: Option<Applied>, streams: Option<map<string, Stream>>)

  const REPLICATION: string := "replication"

  predicate HasSource(s: Stream) {
    "source" in s.props
  }

  function BucketOf(s: Stream): string {
    if HasSource(s) then s.props["source"] else ""
  }

  /** The identifier changes its name, and replaces a property that had the new one. */
  function ToWorkflow(s: Stream): Workflow {
    Workflow(s.streamId, s.props - {"workflowId"})
  }

  /** A workflow has the identifier of its stream, and its other properties but one of that name. */
  lemma ToWorkflowKeeps(s: Stream, name: string)
    ensures ToWorkflow(s).workflowId == s.streamId
    ensures name in ToWorkflow(s).props <==> name in s.props && name != "workflowId"
    ensures name in ToWorkflow(s).props ==> ToWorkflow(s).props[name] == s.props[name]
  {
  }

  // The configuration

  function OfBucket(streams: seq<Stream>, bucket: string): seq<Workflow> {
    if streams == [] then []
    else
      var last := streams[|streams| - 1];
      OfBucket(streams[..|streams| - 1], bucket) + (if BucketOf(last) == bucket then [ToWorkflow(last)] else [])
  }

  function Grouped(streams: seq<Stream>): Configured {
    map b | b in (set i | 0 <= i < |streams| :: BucketOf(streams[i])) :: Some(OfBucket(streams, b))
  }

  /** `wfs` are the workflows of the streams at the positions `ps`, which are all those of the bucket. */
  predicate OfBucketAt(streams: seq<Stream>, bucket: string, wfs: seq<Workflow>, ps: seq<nat>) {
    && Rising(ps, |streams|) && |wfs| == |ps|
    && (forall j :: 0 <= j < |ps| ==> wfs[j] == ToWorkflow(streams[ps[j]]))
    && (forall k :: 0 <= k < |streams| ==> (BucketOf(streams[k]) == bucket <==> k in ps))
  }

  lemma OneMoreOfBucket(streams: seq<Stream>, bucket: string, wfs: seq<Workflow>, ps: seq<nat>, s: Stream)
    returns (more: seq<nat>)
    requires OfBucketAt(streams, bucket, wfs, ps)
    ensures OfBucketAt(streams + [s], bucket, wfs + (if BucketOf(s) == bucket then [ToWorkflow(s)] else []), more)
  {
    hide BucketOf, ToWorkflow;
    more := OneMorePosition(ps, |streams|, BucketOf(s) == bucket);
  }

  /** The streams of a bucket are converted in their order. */
  lemma {:induction false} OfBucketIsExact(streams: seq<Stream>, bucket: string) returns (ps: seq<nat>)
    ensures OfBucketAt(streams, bucket, OfBucket(streams, bucket), ps)
  {
    if streams == [] {
      ps := [];
    } else {
      hide OfBucketAt, BucketOf, ToWorkflow;
      var init, last := streams[..|streams| - 1], streams[|streams| - 1];
      var before := OfBucketIsExact(init, bucket);
      ps := OneMoreOfBucket(init, bucket, OfBucket(init, bucket), before, last);
      assert init + [last] == streams;
    }
  }

  predicate SourceIs(s: Stream, bucket: string) {
    "source" in s.props && s.props["source"] == bucket
  }

  lemma SourceIsBucket(s: Stream, bucket: string)
    requires HasSource(s)
    ensures SourceIs(s, bucket) <==> BucketOf(s) == bucket
  {
  }

  /** The groups are the source buckets of the streams, and a stream is in the one of its source and no other. */
  ghost predicate BySource(streams: seq<Stream>, groups: Configured) {
    && (forall b :: b in groups <==> exists i :: 0 <= i < |streams| && SourceIs(streams[i], b))
    && (forall b, wf :: wf in ConfiguredIn(groups, b) <==>
          exists i :: 0 <= i < |streams| && SourceIs(streams[i], b) && ToWorkflow(streams[i]) == wf)
  }

  lemma GroupedBySource(streams: seq<Stream>)
    requires forall i :: 0 <= i < |streams| ==> HasSource(streams[i])
    ensures BySource(streams, Grouped(streams))
  {
    var groups := Grouped(streams);
    forall b, wf ensures wf in ConfiguredIn(groups, b) <==>
      exists i :: 0 <= i < |streams| && SourceIs(streams[i], b) && ToWorkflow(streams[i]) == wf
    {
      InGroup(streams, b, wf);
    }
    forall i, b | 0 <= i < |streams| ensures SourceIs(streams[i], b) <==> BucketOf(streams[i]) == b {
      SourceIsBucket(streams[i], b);
    }
    hide SourceIs, BucketOf, OfBucket, ToWorkflow;
  }

  lemma InGroup(streams: seq<Stream>, bucket: string, wf: Workflow)
    requires forall i :: 0 <= i < |streams| ==> HasSource(streams[i])
    ensures wf in ConfiguredIn(Grouped(streams), bucket) <==>
            exists i :: 0 <= i < |streams| && SourceIs(streams[i], bucket) && ToWorkflow(streams[i]) == wf
  {
    hide SourceIs, BucketOf, OfBucket, ToWorkflow, Grouped, ConfiguredIn;
    GroupedIn(streams, bucket);
    OfBucketHas(streams, bucket, wf);
    forall i | 0 <= i < |streams| ensures SourceIs(streams[i], bucket) <==> BucketOf(streams[i]) == bucket {
      SourceIsBucket(streams[i], bucket);
    }
  }

  lemma {:induction false} OfBucketNone(streams: seq<Stream>, bucket: string)
    requires forall i :: 0 <= i < |streams| ==> BucketOf(streams[i]) != bucket
    ensures OfBucket(streams, bucket) == []
  {
    if streams != [] {
      OfBucketNone(streams[..|streams| - 1], bucket);
    }
  }

  lemma GroupedIn(streams: seq<Stream>, bucket: string)
    ensures ConfiguredIn(Grouped(streams), bucket) == OfBucket(streams, bucket)
  {
    if bucket !in Grouped(streams) {
      forall i | 0 <= i < |streams| ensures BucketOf(streams[i]) != bucket {
        assert BucketOf(streams[i]) in (set i | 0 <= i < |streams| :: BucketOf(streams[i]));
      }
      OfBucketNone(streams, bucket);
    }
  }

  /** The groups once the streams before `k` have been placed. */
  ghost predicate Grouping(groups: Configured, streams: seq<Stream>, k: nat)
    requires k <= |streams|
  {
    && (forall b :: b in groups <==> exists i :: 0 <= i < k && BucketOf(streams[i]) == b)
    && (forall b :: b in groups ==> groups[b] == Some(OfBucket(streams[..k], b)))
  }

  lemma OfBucketOneMore(streams: seq<Stream>, k: nat, bucket: string)
    requires k < |streams|
    ensures OfBucket(streams[..k + 1], bucket) ==
            if BucketOf(streams[k]) == bucket then OfBucket(streams[..k], bucket) + [ToWorkflow(streams[k])]
              else OfBucket(streams[..k], bucket)
  {
    assert streams[..k + 1][..k] == streams[..k];
  }

  lemma GroupOneMore(groups: Configured, streams: seq<Stream>, k: nat)
    requires k < |streams| && Grouping(groups, streams, k)
    ensures var b := BucketOf(streams[k]);
            Grouping(groups[b := Some(ConfiguredIn(groups, b) + [ToWorkflow(streams[k])])], streams, k + 1)
  {
    var bucket := BucketOf(streams[k]);
    var more := groups[bucket := Some(ConfiguredIn(groups, bucket) + [ToWorkflow(streams[k])])];
    if bucket !in groups {
      OfBucketNone(streams[..k], bucket);
    }
    hide OfBucket, BucketOf, ToWorkflow;
    forall b | b in more ensures more[b] == Some(OfBucket(streams[..k + 1], b)) {
      OfBucketOneMore(streams, k, b);
    }
    forall b ensures b in more <==> exists i :: 0 <= i < k + 1 && BucketOf(streams[i]) == b {
      if b in groups {
        var i :| 0 <= i < k && BucketOf(streams[i]) == b;
      }
    }
  }

  method ConvertOverlayFormat(conf: Overlay) returns (r: Overlay)
    requires conf.streams.Some? ==> forall i :: 0 <= i < |conf.streams.value| ==> HasSource(conf.streams.value[i])
    ensures conf.streams.None? ==> r == conf
    ensures conf.streams.Some? ==>
              r == Overlay(Some(conf.workflows.GetOr(map[])[REPLICATION := Grouped(conf.streams.value)]), None)
    ensures conf.streams.Some? ==>
              && r.workflows.Some? && "replication" in r.workflows.value
              && BySource(conf.streams.value, r.workflows.value["replication"])
  {
    if conf.streams.None? {
      return conf;
    }
    var streams := conf.streams.value;
    var groups: Configured := map[];
    for k := 0 to |streams|
      invariant Grouping(groups, streams, k)
    {
      GroupOneMore(groups, streams, k);
      var workflow, b := ToWorkflow(streams[k]), BucketOf(streams[k]);
      if b !in groups {
        groups := groups[b := Some([])];
      }
      groups := groups[b := Some(ConfiguredIn(groups, b) + [workflow])];
    }
    assert streams[..|streams|] == streams;
    assert groups == Grouped(streams);
    GroupedBySource(streams);
    hide BySource;
    return Overlay(Some(conf.workflows.GetOr(map[])[REPLICATION := groups]), None);
  }

  // The state

  function BucketStreams(streams: map<string, Stream>, bucket: string): Indexed {
    map id | id in streams && BucketOf(streams[id]) == bucket :: ToWorkflow(streams[id])
  }

  function Nested(streams: map<string, Stream>): Applied {
    map b | b in (set id | id in streams :: BucketOf(streams[id])) :: BucketStreams(streams, b)
  }

  /** A stream is in the bucket of its source, under its key, and nothing else is there. */
  lemma NestedBySource(streams: map<string, Stream>, bucket: string, id: string)
    requires id in streams ==> HasSource(streams[id])
    ensures id in AppliedIn(Nested(streams), bucket) <==> id in streams && SourceIs(streams[id], bucket)
    ensures id in AppliedIn(Nested(streams), bucket) ==>
              AppliedIn(Nested(streams), bucket)[id] == ToWorkflow(streams[id])
  {
    NestedIn(streams, bucket);
  }

  lemma NestedIn(streams: map<string, Stream>, bucket: string)
    ensures AppliedIn(Nested(streams), bucket) == BucketStreams(streams, bucket)
  {
  }

  function DoneInBucket(streams: map<string, Stream>, done: set<string>, bucket: string): Indexed {
    map id | id in streams && id in done && BucketOf(streams[id]) == bucket :: ToWorkflow(streams[id])
  }

  /** The workflows once the streams in `done` have been placed. */
  ghost predicate Nesting(workflows: Applied, streams: map<string, Stream>, done: set<string>) {
    && (forall b :: AppliedIn(workflows, b) == DoneInBucket(streams, done, b))
    && (forall b :: b in workflows ==> workflows[b] != map[])
  }

  lemma NestOneMore(workflows: Applied, streams: map<string, Stream>, done: set<string>, id: string)
    requires id in streams && Nesting(workflows, streams, done)
    ensures var b := BucketOf(streams[id]);
            Nesting(workflows[b := AppliedIn(workflows, b)[id := ToWorkflow(streams[id])]], streams, done + {id})
  {
    var bucket := BucketOf(streams[id]);
    var more := workflows[bucket := AppliedIn(workflows, bucket)[id := ToWorkflow(streams[id])]];
    forall b ensures AppliedIn(more, b) == DoneInBucket(streams, done + {id}, b) {
      assert AppliedIn(workflows, b) == DoneInBucket(streams, done, b);
    }
    assert id in more[bucket];
  }

  lemma NestedAll(workflows: Applied, streams: map<string, Stream>)
    requires Nesting(workflows, streams, streams.Keys)
    ensures workflows == Nested(streams)
  {
    forall b ensures AppliedIn(workflows, b) == BucketStreams(streams, b) {
      assert AppliedIn(workflows, b) == DoneInBucket(streams, streams.Keys, b);
    }
    forall b | b in workflows ensures b in Nested(streams) {
      var id :| id in workflows[b];
      assert id in BucketStreams(streams, b);
    }
    forall b | b in Nested(streams) ensures b in workflows {
      var id :| id in streams && BucketOf(streams[id]) == b;
      assert id in BucketStreams(streams, b);
    }
  }

  method ConvertServiceStateFormat(state: State) returns (r: State)
    requires state.streams.Some? ==> forall id :: id in state.streams.value ==> HasSource(state.streams.value[id])
    ensures state.streams.None? ==> r == state
    ensures state.streams.Some? ==> r == State(Some(Nested(state.streams.value)), None)
  {
    if state.streams.None? {
      return state;
    }
    var streams := state.streams.value;
    var workflows: Applied := map[];
    var ids := streams.Keys;
    while ids != {}
      invariant ids <= streams.Keys
      invariant Nesting(workflows, streams, streams.Keys - ids)
      decreases ids
    {
      var id :| id in ids;
      NestOneMore(workflows, streams, streams.Keys - ids, id);
      assert streams.Keys - (ids - {id}) == streams.Keys - ids + {id};
      ids := ids - {id};
      var workflow, b := ToWorkflow(streams[id]), BucketOf(streams[id]);
      if b !in workflows {
        workflows := workflows[b := map[]];
      }
      workflows := workflows[b := workflows[b][id := workflow]];
    }
    assert streams.Keys - ids == streams.Keys;
    NestedAll(workflows, streams);
    return State(Some(workflows), None);
  }

  // Migration

  predicate DistinctIds(streams: seq<Stream>) {
    forall i, j :: 0 <= i < j < |streams| ==> streams[i].streamId != streams[j].streamId
  }

  predicate KeyedByStreamId(streams: map<string, Stream>) {
    forall id :: id in streams ==> streams[id].streamId == id
  }

  predicate HasStream(streams: seq<Stream>, id: string) {
    exists i :: 0 <= i < |streams| && streams[i].streamId == id
  }

  /** The state holds the configured streams and no other, up to a property that conversion replaces. */
  ghost predicate SameStreams(streams: seq<Stream>, stored: map<string, Stream>) {
    && (forall id :: id in stored <==> HasStream(streams, id))
    && (forall i :: 0 <= i < |streams| && streams[i].streamId in stored ==>
          ToWorkflow(stored[streams[i].streamId]) == ToWorkflow(streams[i]))
  }

  lemma OfBucketHas(streams: seq<Stream>, bucket: string, wf: Workflow)
    ensures wf in OfBucket(streams, bucket) <==>
            exists i :: 0 <= i < |streams| && BucketOf(streams[i]) == bucket && ToWorkflow(streams[i]) == wf
  {
    hide OfBucket, BucketOf, ToWorkflow;
    var wfs := OfBucket(streams, bucket);
    var ps := OfBucketIsExact(streams, bucket);
    if wf in wfs {
      var j :| 0 <= j < |wfs| && wfs[j] == wf;
      assert ps[j] in ps && BucketOf(streams[ps[j]]) == bucket;
    }
    if i :| 0 <= i < |streams| && BucketOf(streams[i]) == bucket && ToWorkflow(streams[i]) == wf {
      var j :| 0 <= j < |ps| && ps[j] == i;
      assert wfs[j] == wf;
    }
  }

  lemma GroupsAreConsistent(streams: seq<Stream>, bucket: string)
    requires DistinctIds(streams)
    ensures ConsistentIds(OfBucket(streams, bucket))
  {
    var wfs := OfBucket(streams, bucket);
    forall i, j | 0 <= i < j < |wfs| && wfs[i].workflowId == wfs[j].workflowId ensures wfs[i] == wfs[j] {
      OfBucketHas(streams, bucket, wfs[i]);
      OfBucketHas(streams, bucket, wfs[j]);
    }
  }

  lemma NestedIsKeyed(stored: map<string, Stream>, bucket: string)
    requires KeyedByStreamId(stored)
    ensures KeyedById(BucketStreams(stored, bucket))
  {
  }

  lemma SameSource(s: Stream, t: Stream)
    requires ToWorkflow(s) == ToWorkflow(t) && HasSource(s) && HasSource(t)
    ensures BucketOf(s) == BucketOf(t)
  {
    assert ToWorkflow(s).props["source"] == s.props["source"] && ToWorkflow(t).props["source"] == t.props["source"];
  }

  predicate AllHaveSource(streams: seq<Stream>, stored: map<string, Stream>) {
    && (forall i :: 0 <= i < |streams| ==> HasSource(streams[i]))
    && (forall id :: id in stored ==> HasSource(stored[id]))
  }

  /** The workflow of a configured stream is indexed under its bucket. */
  lemma ConfiguredIsIndexed(streams: seq<Stream>, i: nat)
    requires DistinctIds(streams) && i < |streams|
    ensures var m := Index(OfBucket(streams, BucketOf(streams[i])));
            streams[i].streamId in m && m[streams[i].streamId] == ToWorkflow(streams[i])
  {
    var b := BucketOf(streams[i]);
    OfBucketHas(streams, b, ToWorkflow(streams[i]));
    GroupsAreConsistent(streams, b);
    IndexConsistent(OfBucket(streams, b), ToWorkflow(streams[i]));
  }

  /** Whatever is indexed under a bucket is the workflow of a configured stream of that bucket. */
  lemma IndexedIsConfigured(streams: seq<Stream>, bucket: string, id: string) returns (i: nat)
    requires id in Index(OfBucket(streams, bucket))
    ensures i < |streams| && streams[i].streamId == id && BucketOf(streams[i]) == bucket
    ensures Index(OfBucket(streams, bucket))[id] == ToWorkflow(streams[i])
  {
    var wf := Index(OfBucket(streams, bucket))[id];
    IndexHas(OfBucket(streams, bucket), id);
    OfBucketHas(streams, bucket, wf);
    i :| 0 <= i < |streams| && BucketOf(streams[i]) == bucket && ToWorkflow(streams[i]) == wf;
  }

  lemma SameStreamsAgree(streams: seq<Stream>, stored: map<string, Stream>, bucket: string)
    requires DistinctIds(streams) && KeyedByStreamId(stored) && AllHaveSource(streams, stored)
             && SameStreams(streams, stored)
    ensures BucketStreams(stored, bucket) == Index(OfBucket(streams, bucket))
  {
    hide OfBucket, Index, ToWorkflow, BucketOf, HasSource;
    var m, n := BucketStreams(stored, bucket), Index(OfBucket(streams, bucket));
    forall id | id in m ensures id in n && n[id] == m[id] {
      assert HasStream(streams, id);
      var i :| 0 <= i < |streams| && streams[i].streamId == id;
      SameSource(stored[id], streams[i]);
      ConfiguredIsIndexed(streams, i);
    }
    forall id | id in n ensures id in m {
      var i := IndexedIsConfigured(streams, bucket, id);
      assert HasStream(streams, id);
      SameSource(stored[id], streams[i]);
    }
  }

  lemma AgreeingAreSame(streams: seq<Stream>, stored: map<string, Stream>)
    requires DistinctIds(streams) && forall b :: BucketStreams(stored, b) == Index(OfBucket(streams, b))
    ensures SameStreams(streams, stored)
  {
    forall i | 0 <= i < |streams|
      ensures streams[i].streamId in stored && ToWorkflow(stored[streams[i].streamId]) == ToWorkflow(streams[i])
    {
      ConfiguredIsIndexed(streams, i);
      assert BucketStreams(stored, BucketOf(streams[i])) == Index(OfBucket(streams, BucketOf(streams[i])));
    }
    forall id | id in stored ensures HasStream(streams, id) {
      var b := BucketOf(stored[id]);
      assert id in BucketStreams(stored, b);
      var i := IndexedIsConfigured(streams, b, id);
    }
  }

  /**
    Migration is silent exactly when it should be: after both conversions the workflow
    difference is empty if and only if the old state held the configured streams.
   */
  lemma MigrationIsSilentExactly(streams: seq<Stream>, stored: map<string, Stream>)
    requires DistinctIds(streams) && KeyedByStreamId(stored) && AllHaveSource(streams, stored)
    ensures Diff(Grouped(streams), Nested(stored)) == map[] <==> SameStreams(streams, stored)
  {
    var conf, cur := Grouped(streams), Nested(stored);
    forall b ensures b !in Diff(conf, cur) <==> BucketStreams(stored, b) == Index(OfBucket(streams, b)) {
      GroupedIn(streams, b);
      NestedIn(stored, b);
      GroupsAreConsistent(streams, b);
      NestedIsKeyed(stored, b);
      AbsentExactlyWhenAgreeing(conf, cur, b);
    }
    if SameStreams(streams, stored) {
      forall b ensures b !in Diff(conf, cur) {
        SameStreamsAgree(streams, stored, b);
      }
    } else if Diff(conf, cur) == map[] {
      AgreeingAreSame(streams, stored);
    }
  }
}
