/**
  The filter stage of the log reader: every entry of every record goes through the
  extensions, which append messages to per-topic lists.
 */
module EntryFilter {
  import opened Options
  import opened Positions
  import opened Topics

  /** An entry of a record. Entries without a value are not given to the extensions. */
  datatype Entry = Entry(value: Option<string>)
  datatype Record = Record(entries: seq<Entry>)
  datatype Routed = Routed(topic: Topic, message: Message)

  /** What the extensions publish for a value, in the order they are called. */
  type Extensions = string -> seq<Routed>

  function OfTopic(routed: seq<Routed>, t: Topic): seq<Message> {
    if routed == [] then []
    else OfTopic(routed[..|routed| - 1], t) +
         (if routed[|routed| - 1].topic == t then [routed[|routed| - 1].message] else [])
  }

  function EntryRouted(x: Extensions, e: Entry): seq<Routed> {
    if e.value.None? then [] else x(e.value.value)
  }

  /** What one record publishes to a topic: its entries in order. */
  function EntriesMessages(x: Extensions, entries: seq<Entry>, t: Topic): seq<Message> {
    if entries == [] then []
    else EntriesMessages(x, entries[..|entries| - 1], t) + OfTopic(EntryRouted(x, entries[|entries| - 1]), t)
  }

  /** What a batch publishes to a topic: its records in order. */
  function BatchMessages(x: Extensions, records: seq<Record>, t: Topic): seq<Message> {
    LogMessages(records, (r: Record, u: Topic) => EntriesMessages(x, r.entries, u), t)
  }

  // What the filter stage does, position by position

  /** `ms` are the messages that stand in `routed` at the positions `ps`, which are all those for the topic. */
  predicate RoutedAt(routed: seq<Routed>, t: Topic, ms: seq<Message>, ps: seq<nat>) {
    && Rising(ps, |routed|) && |ms| == |ps|
    && (forall j :: 0 <= j < |ps| ==> routed[ps[j]] == Routed(t, ms[j]))
    && (forall k :: 0 <= k < |routed| ==> (routed[k].topic == t <==> k in ps))
  }

  lemma OneMoreRouted(routed: seq<Routed>, t: Topic, ms: seq<Message>, ps: seq<nat>, r: Routed) returns (more: seq<nat>)
    requires RoutedAt(routed, t, ms, ps)
    ensures RoutedAt(routed + [r], t, ms + (if r.topic == t then [r.message] else []), more)
  {
    more := OneMorePosition(ps, |routed|, r.topic == t);
  }

  lemma {:induction false} OfTopicIsExact(routed: seq<Routed>, t: Topic) returns (ps: seq<nat>)
    ensures RoutedAt(routed, t, OfTopic(routed, t), ps)
  {
    if routed == [] {
      ps := [];
    } else {
      hide RoutedAt;
      var init, last := routed[..|routed| - 1], routed[|routed| - 1];
      var before := OfTopicIsExact(init, t);
      ps := OneMoreRouted(init, t, OfTopic(init, t), before, last);
      assert init + [last] == routed;
    }
  }

  /** What an entry publishes to a topic: each message that the extensions give for it, once and in their order. */
  ghost predicate EntryPublishes(x: Extensions, e: Entry, t: Topic, ms: seq<Message>) {
    match e.value
    case None => ms == []
    case Some(value) => exists ps :: RoutedAt(x(value), t, ms, ps)
  }

  lemma EntryIsExact(x: Extensions, e: Entry, t: Topic)
    ensures EntryPublishes(x, e, t, OfTopic(EntryRouted(x, e), t))
  {
    if e.value.Some? {
      var ps := OfTopicIsExact(x(e.value.value), t);
    }
  }

  /** Entry `at.0` has a value, for which the message `at.1` of the extensions is this one. */
  predicate GivenAt(x: Extensions, entries: seq<Entry>, at: (nat, nat), r: Routed) {
    && at.0 < |entries| && entries[at.0].value.Some?
    && at.1 < |x(entries[at.0].value.value)| && x(entries[at.0].value.value)[at.1] == r
  }

  /** The entries of a record publish `ms`: each message given for one of them, once, in the order of entries. */
  ghost predicate EntriesAt(x: Extensions, entries: seq<Entry>, t: Topic, ms: seq<Message>, ps: seq<(nat, nat)>) {
    && RisingPairs(ps) && |ms| == |ps|
    && (forall j :: 0 <= j < |ps| ==> GivenAt(x, entries, ps[j], Routed(t, ms[j])))
    && (forall at: (nat, nat), m :: GivenAt(x, entries, at, Routed(t, m)) ==> at in ps)
  }

  function InEntry(n: nat, ps: seq<nat>): seq<(nat, nat)> {
    seq(|ps|, j requires 0 <= j < |ps| => (n, ps[j]))
  }

  lemma OneMoreEntryAt(x: Extensions, entries: seq<Entry>, t: Topic, ms: seq<Message>, ps: seq<(nat, nat)>, e: Entry)
    returns (more: seq<(nat, nat)>)
    requires EntriesAt(x, entries, t, ms, ps)
    ensures EntriesAt(x, entries + [e], t, ms + OfTopic(EntryRouted(x, e), t), more)
  {
    var n, all := |entries|, entries + [e];
    var qs := OfTopicIsExact(EntryRouted(x, e), t);
    more := ps + InEntry(n, qs);
    var routed, all_ms := EntryRouted(x, e), ms + OfTopic(EntryRouted(x, e), t);
    forall j | 0 <= j < |ps| ensures ps[j].0 < n {
      assert GivenAt(x, entries, ps[j], Routed(t, ms[j]));
    }
    forall j | 0 <= j < |more| ensures GivenAt(x, all, more[j], Routed(t, all_ms[j])) {
      if j < |ps| {
        assert GivenAt(x, entries, ps[j], Routed(t, ms[j]));
      } else {
        assert routed[qs[j - |ps|]] == Routed(t, OfTopic(routed, t)[j - |ps|]);
      }
    }
    forall at: (nat, nat), m | GivenAt(x, all, at, Routed(t, m)) ensures at in more {
      if at.0 < n {
        assert GivenAt(x, entries, at, Routed(t, m));
      } else {
        assert routed[at.1].topic == t;
        var j :| 0 <= j < |qs| && qs[j] == at.1;
        assert more[|ps| + j] == at;
      }
    }
  }

  lemma {:induction false} EntriesAreExact(x: Extensions, entries: seq<Entry>, t: Topic) returns (ps: seq<(nat, nat)>)
    ensures EntriesAt(x, entries, t, EntriesMessages(x, entries, t), ps)
  {
    if entries == [] {
      ps := [];
    } else {
      hide EntriesAt;
      var init, last := entries[..|entries| - 1], entries[|entries| - 1];
      var before := EntriesAreExact(x, init, t);
      ps := OneMoreEntryAt(x, init, t, EntriesMessages(x, init, t), before, last);
      assert init + [last] == entries;
    }
  }

  ghost predicate EntriesPublish(x: Extensions, entries: seq<Entry>, t: Topic, ms: seq<Message>) {
    exists ps :: EntriesAt(x, entries, t, ms, ps)
  }

  /** What a batch publishes to a topic: record after record, what the entries of each publish. */
  ghost predicate BatchCut(x: Extensions, records: seq<Record>, t: Topic, ms: seq<Message>, cuts: seq<nat>) {
    && Cuts(cuts, |records|, |ms|)
    && forall i :: 0 <= i < |records| ==> EntriesPublish(x, records[i].entries, t, ms[cuts[i]..cuts[i + 1]])
  }

  ghost predicate BatchPublishes(x: Extensions, records: seq<Record>, t: Topic, ms: seq<Message>) {
    exists cuts :: BatchCut(x, records, t, ms, cuts)
  }

  lemma BatchIsExact(x: Extensions, records: seq<Record>, t: Topic)
    ensures BatchPublishes(x, records, t, BatchMessages(x, records, t))
  {
    var f := (r: Record, u: Topic) => EntriesMessages(x, r.entries, u);
    var cuts := LogMessagesAreExact(records, f, t);
    SameBatch(x, records, f, t);
    forall i | 0 <= i < |records|
      ensures EntriesPublish(x, records[i].entries, t, BatchMessages(x, records, t)[cuts[i]..cuts[i + 1]])
    {
      var ps := EntriesAreExact(x, records[i].entries, t);
    }
    assert BatchCut(x, records, t, BatchMessages(x, records, t), cuts);
  }

  lemma {:induction false} SameBatch(x: Extensions, records: seq<Record>, f: (Record, Topic) -> seq<Message>, t: Topic)
    requires forall r, u :: f(r, u) == EntriesMessages(x, r.entries, u)
    ensures BatchMessages(x, records, t) == LogMessages(records, f, t)
  {
    if records != [] {
      SameBatch(x, records[..|records| - 1], f, t);
    }
  }

  lemma OneMore(given: map<Topic, seq<Message>>, held: map<Topic, seq<Message>>, routed: seq<Routed>, j: nat, t: Topic)
    requires j < |routed| && Contents(held, t) == Contents(given, t) + OfTopic(routed[..j], t)
    ensures Contents(Append(held, routed[j].topic, [routed[j].message]), t) ==
            Contents(given, t) + OfTopic(routed[..j + 1], t)
  {
    assert routed[..j + 1][..j] == routed[..j];
  }

  method PublishAll(given: map<Topic, seq<Message>>, routed: seq<Routed>) returns (out: map<Topic, seq<Message>>)
    ensures forall t :: Contents(out, t) == Contents(given, t) + OfTopic(routed, t)
  {
    out := given;
    for j := 0 to |routed|
      invariant forall t :: Contents(out, t) == Contents(given, t) + OfTopic(routed[..j], t)
    {
      forall t {
        OneMore(given, out, routed, j, t);
      }
      out := Append(out, routed[j].topic, [routed[j].message]);
    }
    assert routed[..|routed|] == routed;
  }

  lemma OneMoreEntry(x: Extensions, given: seq<Message>, held: seq<Message>, more: seq<Message>, entries: seq<Entry>,
      i: nat, t: Topic)
    requires i < |entries| && held == given + EntriesMessages(x, entries[..i], t)
    requires more == held + OfTopic(EntryRouted(x, entries[i]), t)
    ensures more == given + EntriesMessages(x, entries[..i + 1], t)
  {
    assert entries[..i + 1][..i] == entries[..i];
  }

  /** An entry without a value publishes nothing. */
  method FilterEntry(x: Extensions, given: map<Topic, seq<Message>>, e: Entry) returns (out: map<Topic, seq<Message>>)
    ensures forall t :: Contents(out, t) == Contents(given, t) + OfTopic(EntryRouted(x, e), t)
    ensures forall t :: Contents(given, t) <= Contents(out, t)
                        && EntryPublishes(x, e, t, Contents(out, t)[|Contents(given, t)|..])
  {
    forall t {
      EntryIsExact(x, e, t);
    }
    if e.value.None? {
      return given;
    }
    out := PublishAll(given, x(e.value.value));
  }

  method FilterEntries(x: Extensions, given: map<Topic, seq<Message>>, entries: seq<Entry>)
    returns (out: map<Topic, seq<Message>>)
    ensures forall t :: Contents(out, t) == Contents(given, t) + EntriesMessages(x, entries, t)
    ensures forall t :: Contents(given, t) <= Contents(out, t)
                        && EntriesPublish(x, entries, t, Contents(out, t)[|Contents(given, t)|..])
  {
    out := given;
    for i := 0 to |entries|
      invariant forall t :: Contents(out, t) == Contents(given, t) + EntriesMessages(x, entries[..i], t)
    {
      ghost var held := out;
      out := FilterEntry(x, out, entries[i]);
      forall t ensures Contents(out, t) == Contents(given, t) + EntriesMessages(x, entries[..i + 1], t) {
        OneMoreEntry(x, Contents(given, t), Contents(held, t), Contents(out, t), entries, i, t);
      }
    }
    assert entries[..|entries|] == entries;
    forall t ensures EntriesPublish(x, entries, t, EntriesMessages(x, entries, t)) {
      var ps := EntriesAreExact(x, entries, t);
    }
  }

  /** The whole stage: each topic list is what the records publish to it, in log order. */
  method ProcessFilterEntries(x: Extensions, records: seq<Record>) returns (entriesToPublish: map<Topic, seq<Message>>)
    ensures forall t :: Contents(entriesToPublish, t) == BatchMessages(x, records, t)
    ensures forall t :: BatchPublishes(x, records, t, Contents(entriesToPublish, t))
  {
    hide BatchPublishes;
    entriesToPublish := map[];
    for i := 0 to |records|
      invariant forall t :: Contents(entriesToPublish, t) == BatchMessages(x, records[..i], t)
    {
      entriesToPublish := FilterEntries(x, entriesToPublish, records[i].entries);
      assert records[..i + 1][..i] == records[..i];
    }
    assert records[..|records|] == records;
    forall t {
      BatchIsExact(x, records, t);
    }
  }
}
