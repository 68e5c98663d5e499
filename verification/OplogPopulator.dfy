/**
  The set of buckets the oplog populator listens to: found by a query at start-up, and kept up
  to date from then on by handling the changes of the bucket metadata one by one.
 */
module OplogPopulator {
  import opened Options
  import opened MongoQuery
  import opened BucketFilters

  datatype Extension = Lifecycle(cold: seq<string>) | Replication | Notification

  type Metastore = map<string, Json>

  datatype Change =
    | Written(bucket: string, md: Json)
    | Deleted(bucket: string)
    | Other

  function FilterOf(x: Extension): Query {
    match x
    case Lifecycle(cold) => LifecycleFilter(cold)
    case Replication => ReplicationFilter()
    case Notification => NotificationFilter()
  }

  function EnabledFor(x: Extension, md: Json): Outcome {
    match x
    case Lifecycle(cold) => LifecycleEnabled(md, cold)
    case Replication => ReplicationEnabled(md)
    case Notification => NotificationEnabled(md)
  }

  function Filters(exts: seq<Extension>): seq<Query> {
    seq(|exts|, i requires 0 <= i < |exts| => FilterOf(exts[i]))
  }

  /** Whether the start-up query returns a bucket with this metadata. */
  predicate Selected(exts: seq<Extension>, md: Json) {
    Matches(Doc(md), Or(Filters(exts)))
  }

  /** The answer of the start-up query. */
  function Answer(exts: seq<Extension>, store: Metastore): set<string> {
    set b | b in store && Selected(exts, store[b])
  }

  /** `_isBucketBackbeatEnabled`: some extension is enabled, asked in order. */
  function BackbeatEnabled(exts: seq<Extension>, md: Json): Outcome {
    if exts == [] then Returned(false)
    else
      match EnabledFor(exts[0], md)
      case Throws => Throws
      case Returned(true) => Returned(true)
      case Returned(false) => BackbeatEnabled(exts[1..], md)
  }

  function ApplyTo(store: Metastore, c: Change): Metastore {
    match c
    case Written(b, md) => store[b := md]
    case Deleted(b) => store - {b}
    case Other => store
  }

  /** One change event; a predicate that throws leaves the set as it was. */
  function Handle(exts: seq<Extension>, listened: set<string>, c: Change): set<string> {
    match c
    case Written(b, md) =>
      (match BackbeatEnabled(exts, md)
       case Throws => listened
       case Returned(true) => listened + {b}
       case Returned(false) => listened - {b})
    case Deleted(b) => listened - {b}
    case Other => listened
  }

  function StoreAfter(store: Metastore, cs: seq<Change>): Metastore {
    if cs == [] then store else ApplyTo(StoreAfter(store, cs[..|cs| - 1]), cs[|cs| - 1])
  }

  function ListenedAfter(exts: seq<Extension>, store: Metastore, cs: seq<Change>): set<string> {
    if cs == [] then Answer(exts, store) else Handle(exts, ListenedAfter(exts, store, cs[..|cs| - 1]), cs[|cs| - 1])
  }

  // Agreement of one bucket

  /** The predicate of the extension returns what its filter says. */
  predicate Agrees(x: Extension, md: Json) {
    EnabledFor(x, md) == Returned(Matches(Doc(md), FilterOf(x)))
  }

  /** The metadata is such that the filter and the predicate of an extension cannot disagree. */
  ghost predicate Sound(x: Extension, md: Json) {
    match x
    case Lifecycle(cold) => ShapedLifecycle(md) && !SomeStrayRule(cold, md)
    case Replication => ShapedReplication(md)
    case Notification => md.Obj? && (Get(md, "notificationConfiguration") == Some(Null)
                                     || (Get(md, "notificationConfiguration").Some?
                                        && Get(md, "notificationConfiguration").value.Obj?))
  }

  lemma SoundAgrees(x: Extension, md: Json)
    requires Sound(x, md)
    ensures Agrees(x, md)
  {
    match x
    case Lifecycle(cold) => LifecycleAgreesExactly(cold, md);
    case Replication => ReplicationAgrees(md);
    case Notification => NotificationAgreesExactly(md);
  }

  lemma SelectedStep(exts: seq<Extension>, md: Json)
    requires exts != []
    ensures Selected(exts, md) <==> Matches(Doc(md), FilterOf(exts[0])) || Selected(exts[1..], md)
  {
    var qs, rest := Filters(exts), Filters(exts[1..]);
    assert qs[0] == FilterOf(exts[0]);
    assert qs[1..] == rest;
    if Selected(exts, md) {
      var i :| 0 <= i < |qs| && Matches(Doc(md), qs[i]);
      assert i > 0 ==> rest[i - 1] == qs[i];
    }
    if Selected(exts[1..], md) {
      var i :| 0 <= i < |rest| && Matches(Doc(md), rest[i]);
      assert qs[i + 1] == rest[i];
    }
  }

  /** When every extension agrees on a bucket, the query and the predicate of all of them agree. */
  lemma {:induction false} AllAgree(exts: seq<Extension>, md: Json)
    requires forall i :: 0 <= i < |exts| ==> Agrees(exts[i], md)
    ensures BackbeatEnabled(exts, md) == Returned(Selected(exts, md))
  {
    if exts != [] {
      assert Agrees(exts[0], md);
      AllAgree(exts[1..], md);
      SelectedStep(exts, md);
    }
  }

  /** The first extension that does not refuse the bucket. */
  predicate FirstToDecide(exts: seq<Extension>, md: Json, k: nat) {
    && k < |exts| && EnabledFor(exts[k], md) != Returned(false)
    && forall i :: 0 <= i < k ==> EnabledFor(exts[i], md) == Returned(false)
  }

  /** Extensions are asked in order: the first that does not refuse the bucket accepts it or throws. */
  lemma {:induction false} FirstExtensionDecides(exts: seq<Extension>, md: Json)
    ensures forall k: nat :: FirstToDecide(exts, md, k) ==> BackbeatEnabled(exts, md) == EnabledFor(exts[k], md)
    ensures BackbeatEnabled(exts, md) == Returned(false) <==>
            forall i :: 0 <= i < |exts| ==> EnabledFor(exts[i], md) == Returned(false)
  {
    if exts != [] {
      var rest := exts[1..];
      FirstExtensionDecides(rest, md);
      hide EnabledFor;
      forall k: nat | FirstToDecide(exts, md, k) ensures BackbeatEnabled(exts, md) == EnabledFor(exts[k], md) {
        if k > 0 {
          assert forall i :: 0 <= i < |rest| ==> rest[i] == exts[i + 1];
          assert FirstToDecide(rest, md, k - 1);
        }
      }
      assert forall i :: 0 < i < |exts| ==> exts[i] == rest[i - 1];
      assert forall i :: 0 <= i < |rest| ==> rest[i] == exts[i + 1];
    }
  }

  // The set over any sequence of changes

  /** The membership that handling a change gives to its bucket is the one the query would give. */
  predicate KeepsRight(exts: seq<Extension>, listened: set<string>, c: Change) {
    c.Written? ==>
      match BackbeatEnabled(exts, c.md)
      case Returned(b) => b == Selected(exts, c.md)
      case Throws => (c.bucket in listened) == Selected(exts, c.md)
  }

  /**
    From a right set, handling a change gives a right set exactly when the predicate agrees
    with the query on the bucket written, or throws on one whose membership does not change.
   */
  lemma HandleIsExact(exts: seq<Extension>, store: Metastore, listened: set<string>, c: Change)
    requires listened == Answer(exts, store)
    ensures Handle(exts, listened, c) == Answer(exts, ApplyTo(store, c)) <==> KeepsRight(exts, listened, c)
  {
    var store', listened' := ApplyTo(store, c), Handle(exts, listened, c);
    if c.Written? {
      assert c.bucket in Answer(exts, store') <==> Selected(exts, c.md);
      forall b | b != c.bucket ensures b in listened' <==> b in Answer(exts, store') {
        assert b in listened <==> b in Answer(exts, store);
      }
    } else if c.Deleted? {
      assert listened' == Answer(exts, store');
    }
  }

  predicate RightAfter(exts: seq<Extension>, store: Metastore, cs: seq<Change>) {
    ListenedAfter(exts, store, cs) == Answer(exts, StoreAfter(store, cs))
  }

  /** The set is right after every one of the changes. */
  predicate RightThroughout(exts: seq<Extension>, store: Metastore, cs: seq<Change>) {
    forall k :: 0 <= k <= |cs| ==> RightAfter(exts, store, cs[..k])
  }

  /** Change `k`, where it comes, is handled as the query would. */
  predicate KeptRightAt(exts: seq<Extension>, store: Metastore, cs: seq<Change>, k: nat)
    requires k < |cs|
  {
    KeepsRight(exts, ListenedAfter(exts, store, cs[..k]), cs[k])
  }

  lemma LastChange(exts: seq<Extension>, store: Metastore, cs: seq<Change>)
    requires cs != [] && RightAfter(exts, store, cs[..|cs| - 1])
    ensures RightAfter(exts, store, cs) <==> KeptRightAt(exts, store, cs, |cs| - 1)
  {
    var init := cs[..|cs| - 1];
    HandleIsExact(exts, StoreAfter(store, init), ListenedAfter(exts, store, init), cs[|cs| - 1]);
  }

  lemma ThroughoutStep(exts: seq<Extension>, store: Metastore, cs: seq<Change>)
    requires cs != []
    ensures RightThroughout(exts, store, cs) <==>
            RightThroughout(exts, store, cs[..|cs| - 1]) && RightAfter(exts, store, cs)
  {
    var init := cs[..|cs| - 1];
    assert cs[..|cs|] == cs;
    forall k | 0 <= k <= |init| ensures init[..k] == cs[..k] {
    }
    if RightThroughout(exts, store, cs) {
      forall k | 0 <= k <= |init| ensures RightAfter(exts, store, init[..k]) {
        assert RightAfter(exts, store, cs[..k]);
      }
      assert RightAfter(exts, store, cs[..|cs|]);
    }
    if RightThroughout(exts, store, init) && RightAfter(exts, store, cs) {
      forall k | 0 <= k <= |cs| ensures RightAfter(exts, store, cs[..k]) {
        if k <= |init| {
          assert RightAfter(exts, store, init[..k]);
        }
      }
    }
  }

  lemma KeptRightEarlier(exts: seq<Extension>, store: Metastore, cs: seq<Change>, k: nat)
    requires k < |cs| - 1
    ensures KeptRightAt(exts, store, cs, k) <==> KeptRightAt(exts, store, cs[..|cs| - 1], k)
  {
    assert cs[..|cs| - 1][..k] == cs[..k];
  }

  /** The set is right all along exactly when every change, where it comes, is handled as the query would. */
  lemma {:induction false} RightThroughoutExactly(exts: seq<Extension>, store: Metastore, cs: seq<Change>)
    ensures RightThroughout(exts, store, cs) <==> forall k :: 0 <= k < |cs| ==> KeptRightAt(exts, store, cs, k)
  {
    if cs != [] {
      var init := cs[..|cs| - 1];
      RightThroughoutExactly(exts, store, init);
      ThroughoutStep(exts, store, cs);
      forall k | 0 <= k < |init| ensures KeptRightAt(exts, store, cs, k) <==> KeptRightAt(exts, store, init, k) {
        KeptRightEarlier(exts, store, cs, k);
      }
      if RightThroughout(exts, store, init) {
        assert init[..|init|] == init;
        LastChange(exts, store, cs);
      }
    }
  }

  // The same in terms of the documents written

  /** The metadata has the shape that the predicate of the extension expects. */
  ghost predicate Readable(x: Extension, md: Json) {
    match x
    case Lifecycle(_) => ShapedLifecycle(md)
    case Replication => ShapedReplication(md)
    case Notification => md.Obj?
  }

  /** The filter matches what the predicate refuses: a lifecycle rule with a stray cold list. */
  ghost predicate HasStray(x: Extension, md: Json)
    requires Readable(x, md)
  {
    x.Lifecycle? && SomeStrayRule(x.cold, md)
  }

  /** The predicate accepts what the filter does not: a notification field that is missing, or no null and no object. */
  predicate HasBare(x: Extension, md: Json) {
    && x.Notification?
    && var conf := Get(md, "notificationConfiguration");
       conf.None? || (conf.value != Null && !ObjectOrHoldsOne(conf.value))
  }

  lemma ReadableIsJudged(x: Extension, md: Json)
    requires Readable(x, md)
    ensures EnabledFor(x, md).Returned?
    ensures Matches(Doc(md), FilterOf(x)) <==>
            (EnabledFor(x, md) == Returned(true) && !HasBare(x, md)) || HasStray(x, md)
    ensures HasBare(x, md) ==> EnabledFor(x, md) == Returned(true)
  {
    match x
    case Lifecycle(cold) => LifecycleAgreesExactly(cold, md);
    case Replication => ReplicationAgrees(md);
    case Notification => NotificationAgreesExactly(md);
  }

  ghost predicate AllReadable(exts: seq<Extension>, md: Json) {
    forall i :: 0 <= i < |exts| ==> Readable(exts[i], md)
  }

  predicate SomeEnabled(exts: seq<Extension>, md: Json) {
    exists i :: 0 <= i < |exts| && EnabledFor(exts[i], md) == Returned(true)
  }

  lemma {:induction false} BackbeatEnabledIs(exts: seq<Extension>, md: Json)
    requires forall i :: 0 <= i < |exts| ==> EnabledFor(exts[i], md).Returned?
    ensures BackbeatEnabled(exts, md) == Returned(SomeEnabled(exts, md))
  {
    if exts != [] {
      var rest := exts[1..];
      BackbeatEnabledIs(rest, md);
      if SomeEnabled(rest, md) {
        var i :| 0 <= i < |rest| && EnabledFor(rest[i], md) == Returned(true);
        assert exts[i + 1] == rest[i];
      }
      if i :| 0 < i < |exts| && EnabledFor(exts[i], md) == Returned(true) {
        assert rest[i - 1] == exts[i];
      }
    }
  }

  lemma SelectedIs(exts: seq<Extension>, md: Json)
    ensures Selected(exts, md) <==> exists i :: 0 <= i < |exts| && Matches(Doc(md), FilterOf(exts[i]))
  {
    var qs := Filters(exts);
    if i :| 0 <= i < |exts| && Matches(Doc(md), FilterOf(exts[i])) {
      assert qs[i] == FilterOf(exts[i]);
    }
    if i :| 0 <= i < |qs| && Matches(Doc(md), qs[i]) {
      assert qs[i] == FilterOf(exts[i]);
    }
  }

  /** The document has no stray list while every predicate refuses it, and no bare field while no filter matches it. */
  ghost predicate WellJudged(exts: seq<Extension>, md: Json)
    requires AllReadable(exts, md)
  {
    && ((exists i :: 0 <= i < |exts| && HasStray(exts[i], md)) ==> SomeEnabled(exts, md))
    && ((exists i :: 0 <= i < |exts| && HasBare(exts[i], md)) ==> Selected(exts, md))
  }

  lemma DocumentDecides(exts: seq<Extension>, md: Json)
    requires AllReadable(exts, md)
    ensures BackbeatEnabled(exts, md).Returned?
    ensures BackbeatEnabled(exts, md) == Returned(Selected(exts, md)) <==> WellJudged(exts, md)
  {
    forall i | 0 <= i < |exts|
      ensures EnabledFor(exts[i], md).Returned?
      ensures Matches(Doc(md), FilterOf(exts[i])) <==>
              (EnabledFor(exts[i], md) == Returned(true) && !HasBare(exts[i], md)) || HasStray(exts[i], md)
      ensures HasBare(exts[i], md) ==> EnabledFor(exts[i], md) == Returned(true)
    {
      ReadableIsJudged(exts[i], md);
    }
    BackbeatEnabledIs(exts, md);
    SelectedIs(exts, md);
    hide Selected, BackbeatEnabled, EnabledFor, FilterOf, HasBare, HasStray;
  }

  /**
    Over changes that write readable metadata, the set is right all along exactly when every
    document written is well judged, whatever is listened to.
   */
  lemma RightThroughoutByDocuments(exts: seq<Extension>, store: Metastore, cs: seq<Change>)
    requires forall k :: 0 <= k < |cs| && cs[k].Written? ==> AllReadable(exts, cs[k].md)
    ensures RightThroughout(exts, store, cs) <==>
            forall k :: 0 <= k < |cs| && cs[k].Written? ==> WellJudged(exts, cs[k].md)
  {
    RightThroughoutExactly(exts, store, cs);
    forall k | 0 <= k < |cs|
      ensures KeptRightAt(exts, store, cs, k) <==> (cs[k].Written? ==> WellJudged(exts, cs[k].md)) {
      if cs[k].Written? {
        DocumentDecides(exts, cs[k].md);
      }
    }
    hide RightThroughout, KeptRightAt, WellJudged;
  }

  ghost predicate AllSound(exts: seq<Extension>, c: Change) {
    c.Written? ==> forall i :: 0 <= i < |exts| ==> Sound(exts[i], c.md)
  }

  /** Over any changes that write sound metadata, the set kept is the answer of the query run again. */
  lemma {:induction false} ListenedIsAnswer(exts: seq<Extension>, store: Metastore, cs: seq<Change>)
    requires forall k :: 0 <= k < |cs| ==> AllSound(exts, cs[k])
    ensures ListenedAfter(exts, store, cs) == Answer(exts, StoreAfter(store, cs))
  {
    if cs != [] {
      var init, c := cs[..|cs| - 1], cs[|cs| - 1];
      ListenedIsAnswer(exts, store, init);
      assert AllSound(exts, c);
      if c.Written? {
        forall i | 0 <= i < |exts| ensures Agrees(exts[i], c.md) {
          SoundAgrees(exts[i], c.md);
        }
        AllAgree(exts, c.md);
      }
      HandleIsExact(exts, StoreAfter(store, init), ListenedAfter(exts, store, init), c);
    }
  }

  /** The populator object, with the allocator as the set of buckets it has connectors for. */
  class Populator {
    const exts: seq<Extension>
    var listened: set<string>

    constructor (exts: seq<Extension>)
      ensures this.exts == exts && listened == {}
    {
      this.exts, listened := exts, {};
    }

    /** The start-up query: no query at all without extensions. */
    method GetBackbeatEnabledBuckets(store: Metastore) returns (buckets: set<string>)
      ensures buckets == Answer(exts, store)
      ensures forall b :: b in buckets <==>
                b in store && exists i :: 0 <= i < |exts| && Matches(Doc(store[b]), FilterOf(exts[i]))
    {
      forall b | b in store {
        SelectedIs(exts, store[b]);
      }
      var filters: seq<Query> := [];
      for i := 0 to |exts|
        invariant filters == Filters(exts)[..i]
      {
        filters := filters + [FilterOf(exts[i])];
      }
      assert filters == Filters(exts);
      if |filters| == 0 {
        return {};
      }
      buckets := set b | b in store && Matches(Doc(store[b]), Or(filters));
    }

    /** Start-up: listen to the answer of the query. */
    method Setup(store: Metastore)
      modifies this
      ensures listened == ListenedAfter(exts, store, [])
    {
      listened := GetBackbeatEnabledBuckets(store);
    }

    method HandleChange(c: Change)
      modifies this
      ensures listened == Handle(exts, old(listened), c)
      ensures c.Written? ==>
                (c.bucket in listened <==>
                   match BackbeatEnabled(exts, c.md) case Returned(b) => b case Throws => c.bucket in old(listened))
      ensures c.Deleted? ==> c.bucket !in listened
      ensures forall b :: c.Other? || b != c.bucket ==> (b in listened <==> b in old(listened))
    {
      match c
      case Written(b, md) =>
        var isListening := b in listened;
        var enabled := BackbeatEnabled(exts, md);
        if enabled.Throws? {
          return;
        }
        if isListening && !enabled.value {
          listened := listened - {b};
        } else if !isListening && enabled.value {
          listened := listened + {b};
        }
      case Deleted(b) =>
        if b in listened {
          listened := listened - {b};
        }
      case Other =>
    }
  }
}
