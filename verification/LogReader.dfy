/**
  The log reader over a raft log: read a batch of records, filter their entries
  into per-topic lists, publish every list, and only then save the offset. The
  process may crash at any step, and a failed batch is read again.
 */
module LogReader {
  import opened Options
  import opened Positions
  import opened Delivery
  import opened Subsequences
  import opened Topics
  import opened EntryFilter

  /** What the extensions publish for a record; whether the log is a bucketd one. */
  datatype Config = Config(publishes: (Record, Topic) -> seq<Message>, bucketd: bool)

  /** The reader with the given extensions. */
  function WithExtensions(x: Extensions, bucketd: bool): Config {
    Config((r: Record, t: Topic) => EntriesMessages(x, r.entries, t), bucketd)
  }

  datatype Phase =
    | Down
    | Idle
    | Sending(count: nat, pending: set<Topic>)
    | Saving(next: Option<nat>)

  /** The offset node in Zookeeper: no data yet, data that is not a number, or an offset. */
  datatype Node = Missing | Invalid | Offset(value: nat)

  /**
    `start` is the offset taken by the last set-up that found none stored, and `first` the one
    taken by the first set-up of all.
   */
  datatype State = State(
    log: seq<Record>, topics: map<Topic, seq<Message>>,
    zkOffset: Node, logOffset: nat, start: nat, first: Option<nat>, phase: Phase)

  datatype Event =
    | Commit(record: Record)
    | Setup(ok: bool)
    | Read(count: nat, topics: set<Topic>)
    | ReadNothing
    | SendDone(topic: Topic, events: seq<SendEvent>)
    | EndSend
    | Stray(topic: Topic, messages: seq<Message>)
    | WriteOffset(applied: bool)
    | Corrupt
    | BatchError
    | Crash

  function Init(): State {
    State([], map[], Missing, 1, 1, None, Down)
  }

  /** What the records with sequence numbers from `lo` up to, not including, `hi` publish to a topic. */
  function Between(c: Config, log: seq<Record>, lo: nat, hi: nat, t: Topic): seq<Message>
    requires 1 <= lo <= hi <= |log| + 1
  {
    LogMessages(log[lo - 1..hi - 1], c.publishes, t)
  }

  predicate InLog(s: State, count: nat) {
    1 <= s.logOffset && s.logOffset + count <= |s.log| + 1
  }

  /** The messages of the batch being sent. */
  function Sent(c: Config, s: State, t: Topic): seq<Message>
    requires s.phase.Sending? && InLog(s, s.phase.count)
  {
    Between(c, s.log, s.logOffset, s.logOffset + s.phase.count, t)
  }

  /** The messages whose report came without error. */
  function Arrived(ms: seq<Message>, reports: seq<bool>): seq<Message>
    requires |reports| <= |ms|
  {
    if reports == [] then []
    else
      var i := |reports| - 1;
      Arrived(ms, reports[..i]) + (if reports[i] then [ms[i]] else [])
  }

  /** The send of one topic succeeded. */
  function Acknowledged(s: State, t: Topic): State
    requires s.phase.Sending?
  {
    s.(phase := s.phase.(pending := s.phase.pending - {t}))
  }

  /**
    The offset a set-up takes: the stored one; 1 if what is stored is no number; and without
    any, after the last record of a bucketd log that can be read, else 1.
   */
  function StartOffset(c: Config, s: State, ok: bool): nat {
    if s.zkOffset.Offset? then s.zkOffset.value
    else if s.zkOffset.Missing? && c.bucketd && ok then |s.log| + 1
    else 1
  }

  ghost predicate Enabled(c: Config, s: State, e: Event) {
    match e
    case Commit(_) => true
    case Setup(_) => s.phase.Down?
    case Read(n, topics) =>
      && s.phase.Idle? && InLog(s, n)
      && forall t :: t in topics <==> Between(c, s.log, s.logOffset, s.logOffset + n, t) != []
    case ReadNothing => s.phase.Idle?
    case SendDone(t, events) =>
      && s.phase.Sending? && InLog(s, s.phase.count) && t in s.phase.pending
      && Possible(|Sent(c, s, t)|, events)
      && AfterEvents(|Sent(c, s, t)|, events).outcome != Waiting
    case EndSend => s.phase.Sending? && s.phase.pending == {}
    case Stray(t, ms) => forall m :: m in ms ==> m in LogMessages(s.log, c.publishes, t)
    case WriteOffset(_) => s.phase.Saving?
    case Corrupt => true
    case BatchError => s.phase.Sending?
    case Crash => true
  }

  ghost function Step(c: Config, s: State, e: Event): State
    requires Enabled(c, s, e)
  {
    match e
    case Commit(r) => s.(log := s.log + [r])
    case Setup(ok) =>
      var n := StartOffset(c, s, ok);
      s.(logOffset := n, start := if s.zkOffset.Offset? then s.start else n,
        first := Some(s.first.GetOr(n)), phase := Idle)
    case Read(n, topics) => s.(phase := Sending(n, topics))
    case ReadNothing => s.(phase := Saving(None))
    case SendDone(t, events) =>
      var ms := Sent(c, s, t);
      var delivered := s.(topics := Append(s.topics, t, Arrived(ms, ReportsOf(events))));
      if AfterEvents(|ms|, events).outcome == Success then Acknowledged(delivered, t)
      else delivered.(phase := Idle)
    case EndSend => s.(phase := Saving(Some(s.logOffset + s.phase.count)))
    case Stray(t, ms) => s.(topics := Append(s.topics, t, ms))
    case WriteOffset(applied) =>
      var next := s.phase.next;
      if next.Some? && next.value != s.logOffset then
        s.(logOffset := next.value, zkOffset := if applied then Offset(next.value) else s.zkOffset, phase := Idle)
      else s.(phase := Idle)
    case Corrupt => s.(zkOffset := Invalid)
    case BatchError => s.(phase := Idle)
    case Crash => s.(phase := Down)
  }

  ghost predicate Run(c: Config, s: State, es: seq<Event>)
    decreases |es|
  {
    es == [] || (Enabled(c, s, es[0]) && Run(c, Step(c, s, es[0]), es[1..]))
  }

  ghost function Exec(c: Config, s: State, es: seq<Event>): State
    requires Run(c, s, es)
    decreases |es|
  {
    if es == [] then s else Exec(c, Step(c, s, es[0]), es[1..])
  }

  /** A set-up that finds no stored offset. */
  predicate FreshSetup(s: State, e: Event) {
    e.Setup? && !s.zkOffset.Offset?
  }

  // What was delivered

  /** All that the log publishes to `t` from `lo` up to `hi` was delivered, in log order. */
  predicate DeliveredTo(c: Config, log: seq<Record>, topics: map<Topic, seq<Message>>, lo: nat, hi: nat, t: Topic)
    requires 1 <= lo <= hi <= |log| + 1
  {
    IsSub(Between(c, log, lo, hi, t), Contents(topics, t))
  }

  ghost predicate Delivered(c: Config, log: seq<Record>, topics: map<Topic, seq<Message>>, lo: nat, hi: nat)
    requires 1 <= lo <= hi <= |log| + 1
  {
    forall t :: DeliveredTo(c, log, topics, lo, hi, t)
  }

  /** Nothing is taken away from the log or from a topic. */
  ghost predicate Grows(log: seq<Record>, topics: map<Topic, seq<Message>>, log': seq<Record>,
      topics': map<Topic, seq<Message>>) {
    log <= log' && forall t :: Contents(topics, t) <= Contents(topics', t)
  }

  lemma DeliveredToStays(c: Config, log: seq<Record>, topics: map<Topic, seq<Message>>,
                         log': seq<Record>, topics': map<Topic, seq<Message>>, lo: nat, hi: nat, t: Topic)
    requires 1 <= lo <= hi <= |log| + 1 && DeliveredTo(c, log, topics, lo, hi, t) && Grows(log, topics, log', topics')
    ensures DeliveredTo(c, log', topics', lo, hi, t)
  {
    hide IsSub, LogMessages;
    assert log'[lo - 1..hi - 1] == log[lo - 1..hi - 1];
    var more := Contents(topics', t)[|Contents(topics, t)|..];
    SubMore(Between(c, log, lo, hi, t), Contents(topics, t), more);
    assert Contents(topics', t) == Contents(topics, t) + more;
  }

  lemma DeliveredNothing(c: Config, log: seq<Record>, topics: map<Topic, seq<Message>>, lo: nat)
    requires 1 <= lo <= |log| + 1
    ensures Delivered(c, log, topics, lo, lo)
  {
    assert log[lo - 1..lo - 1] == [];
  }

  /** What was delivered from somewhere was delivered from anywhere later. */
  lemma DeliveredFromLater(c: Config, log: seq<Record>, topics: map<Topic, seq<Message>>, lo: nat, mid: nat, hi: nat)
    requires 1 <= lo <= mid <= hi <= |log| + 1 && Delivered(c, log, topics, lo, hi)
    ensures Delivered(c, log, topics, mid, hi)
  {
    hide IsSub, LogMessages;
    forall t ensures DeliveredTo(c, log, topics, mid, hi, t) {
      assert DeliveredTo(c, log, topics, lo, hi, t);
      LogMessagesSplit(log, c.publishes, lo - 1, mid - 1, hi - 1, t);
      SubSuffix(Between(c, log, lo, mid, t), Between(c, log, mid, hi, t), Contents(topics, t));
    }
  }

  /** A topic that received its part of the batch is delivered up to the end of the batch. */
  lemma BatchDelivered(c: Config, log: seq<Record>, before: seq<Message>, lo: nat, mid: nat, hi: nat, t: Topic)
    requires 1 <= lo <= mid <= hi <= |log| + 1 && IsSub(Between(c, log, lo, mid, t), before)
    ensures IsSub(Between(c, log, lo, hi, t), before + Between(c, log, mid, hi, t))
  {
    hide IsSub, LogMessages;
    LogMessagesSplit(log, c.publishes, lo - 1, mid - 1, hi - 1, t);
    SubBoth(Between(c, log, lo, mid, t), before, Between(c, log, mid, hi, t));
  }

  // What every step keeps

  /** `hi` is an offset of the log up to which everything from `lo` on was delivered, except to the pending topics. */
  ghost predicate Reached(c: Config, log: seq<Record>, topics: map<Topic, seq<Message>>, lo: nat, hi: nat,
      pending: set<Topic>) {
    1 <= lo <= hi <= |log| + 1 && forall t :: t !in pending ==> DeliveredTo(c, log, topics, lo, hi, t)
  }

  /**
    The offsets a reader holds: the stored one, its own, the one to save, and the end of its batch
    while topics are pending.
   */
  predicate Holds(s: State, hi: nat, pending: set<Topic>) {
    || (s.zkOffset == Offset(hi) && pending == {})
    || (!s.phase.Down? && s.logOffset == hi && pending == {})
    || (s.phase == Saving(Some(hi)) && pending == {})
    || (s.phase.Sending? && hi == s.logOffset + s.phase.count && pending == s.phase.pending)
  }

  /** No later offset is stored than the reader's own, and none is saved before it. */
  predicate InOrder(s: State) {
    && (s.zkOffset.Offset? && !s.phase.Down? ==> s.zkOffset.value <= s.logOffset)
    && (s.phase.Saving? && s.phase.next.Some? ==> s.logOffset <= s.phase.next.value)
  }

  /** What is published from `base` on was delivered up to every offset that the reader holds. */
  ghost predicate Inv(c: Config, s: State, base: nat) {
    1 <= base && InOrder(s)
    && forall hi, pending :: Holds(s, hi, pending) ==> Reached(c, s.log, s.topics, base, hi, pending)
  }

  lemma ReachedIsDelivered(c: Config, log: seq<Record>, topics: map<Topic, seq<Message>>, lo: nat, hi: nat)
    requires 1 <= lo <= hi <= |log| + 1
    ensures Reached(c, log, topics, lo, hi, {}) <==> Delivered(c, log, topics, lo, hi)
  {
  }

  lemma StoredIsDelivered(c: Config, s: State, base: nat)
    requires Inv(c, s, base) && s.zkOffset.Offset?
    ensures base <= s.zkOffset.value <= |s.log| + 1 && Delivered(c, s.log, s.topics, base, s.zkOffset.value)
  {
    assert Holds(s, s.zkOffset.value, {});
    ReachedIsDelivered(c, s.log, s.topics, base, s.zkOffset.value);
  }

  lemma ReachedStays(c: Config, log: seq<Record>, topics: map<Topic, seq<Message>>,
                     log': seq<Record>, topics': map<Topic, seq<Message>>, lo: nat, hi: nat, pending: set<Topic>)
    requires Grows(log, topics, log', topics') && Reached(c, log, topics, lo, hi, pending)
    ensures Reached(c, log', topics', lo, hi, pending)
  {
    forall t | t !in pending ensures DeliveredTo(c, log', topics', lo, hi, t) {
      DeliveredToStays(c, log, topics, log', topics', lo, hi, t);
    }
  }

  /** When nothing is taken away from the log or from a topic, and the rest is the same. */
  lemma GrowthKeeps(c: Config, s: State, base: nat, log': seq<Record>, topics': map<Topic, seq<Message>>)
    requires Inv(c, s, base) && Grows(s.log, s.topics, log', topics')
    ensures Inv(c, s.(log := log', topics := topics'), base)
  {
    hide Grows, Reached;
    var s' := s.(log := log', topics := topics');
    forall hi, pending | Holds(s', hi, pending) ensures Reached(c, log', topics', base, hi, pending) {
      assert Holds(s, hi, pending);
      ReachedStays(c, s.log, s.topics, log', topics', base, hi, pending);
    }
  }

  /** The same when the reader holds no offset that it did not hold. */
  lemma HoldingLessKeeps(c: Config, s: State, s': State, base: nat)
    requires Inv(c, s, base) && s'.log == s.log && s'.topics == s.topics && InOrder(s')
    requires forall hi, pending :: Holds(s', hi, pending) ==> Holds(s, hi, pending)
    ensures Inv(c, s', base)
  {
    hide Reached, Holds, InOrder;
  }

  lemma ReadKeeps(c: Config, s: State, n: nat, topics: set<Topic>, base: nat)
    requires Inv(c, s, base) && Enabled(c, s, Read(n, topics))
    ensures Inv(c, Step(c, s, Read(n, topics)), base)
  {
    var mid, hi := s.logOffset, s.logOffset + n;
    assert Holds(s, mid, {});
    assert Reached(c, s.log, s.topics, base, mid, {});
    hide IsSub, LogMessages;
    forall t | t !in topics ensures DeliveredTo(c, s.log, s.topics, base, hi, t) {
      assert DeliveredTo(c, s.log, s.topics, base, mid, t);
      BatchDelivered(c, s.log, Contents(s.topics, t), base, mid, hi, t);
      assert Contents(s.topics, t) + Between(c, s.log, mid, hi, t) == Contents(s.topics, t);
    }
    BatchKeeps(c, s, Step(c, s, Read(n, topics)), base, hi, topics);
  }

  /** Or when the only new one is the end of a batch. */
  lemma BatchKeeps(c: Config, s: State, s': State, base: nat, end: nat, topics: set<Topic>)
    requires Inv(c, s, base) && s'.log == s.log && s'.topics == s.topics && InOrder(s')
    requires Reached(c, s.log, s.topics, base, end, topics)
    requires forall hi, pending :: Holds(s', hi, pending) ==> Holds(s, hi, pending) || (hi == end && pending == topics)
    ensures Inv(c, s', base)
  {
    hide Reached, Holds, InOrder;
  }

  /** `arrived` stand in `ms` at the positions `ps`, which are all those reported without error. */
  predicate ArrivedAt(ms: seq<Message>, reports: seq<bool>, arrived: seq<Message>, ps: seq<nat>)
    requires |reports| <= |ms|
  {
    && Rising(ps, |reports|) && |arrived| == |ps|
    && (forall j :: 0 <= j < |ps| ==> arrived[j] == ms[ps[j]])
    && (forall k :: 0 <= k < |reports| ==> (reports[k] <==> k in ps))
  }

  lemma OneMoreArrives(ms: seq<Message>, reports: seq<bool>, arrived: seq<Message>, ps: seq<nat>, ok: bool)
    returns (more: seq<nat>)
    requires |reports| < |ms| && ArrivedAt(ms, reports, arrived, ps)
    ensures ArrivedAt(ms, reports + [ok], arrived + (if ok then [ms[|reports|]] else []), more)
  {
    more := OneMorePosition(ps, |reports|, ok);
  }

  lemma {:induction false} ArrivedIsExact(ms: seq<Message>, reports: seq<bool>) returns (ps: seq<nat>)
    requires |reports| <= |ms|
    ensures ArrivedAt(ms, reports, Arrived(ms, reports), ps)
  {
    if reports == [] {
      ps := [];
    } else {
      hide ArrivedAt;
      var init, last := reports[..|reports| - 1], reports[|reports| - 1];
      var before := ArrivedIsExact(ms, init);
      ps := OneMoreArrives(ms, init, Arrived(ms, init), before, last);
      assert init + [last] == reports;
    }
  }

  lemma {:induction false} AllArrived(ms: seq<Message>, reports: seq<bool>)
    requires |reports| <= |ms| && false !in reports
    ensures Arrived(ms, reports) == ms[..|reports|]
  {
    if reports != [] {
      AllArrived(ms, reports[..|reports| - 1]);
      assert reports[|reports| - 1] in reports;
    }
  }

  lemma SuccessMeansAllArrived(ms: seq<Message>, events: seq<SendEvent>)
    requires Possible(|ms|, events) && AfterEvents(|ms|, events).outcome == Success
    ensures Arrived(ms, ReportsOf(events)) == ms
  {
    OutcomeIsExact(|ms|, events);
    ReportsAreEvents(events);
    AllArrived(ms, ReportsOf(events));
    assert ms[..|ReportsOf(events)|] == ms;
  }

  lemma ReachedOneMore(c: Config, log: seq<Record>, topics: map<Topic, seq<Message>>, lo: nat, hi: nat,
      pending: set<Topic>, t: Topic)
    requires Reached(c, log, topics, lo, hi, pending) && DeliveredTo(c, log, topics, lo, hi, t)
    ensures Reached(c, log, topics, lo, hi, pending - {t})
  {
    hide DeliveredTo;
  }

  lemma SuccessKeeps(c: Config, s: State, t: Topic, base: nat)
    requires Inv(c, s, base) && s.phase.Sending? && InLog(s, s.phase.count)
    ensures Inv(c, Acknowledged(s.(topics := Append(s.topics, t, Sent(c, s, t))), t), base)
  {
    hide IsSub, LogMessages;
    var topics', hi := Append(s.topics, t, Sent(c, s, t)), s.logOffset + s.phase.count;
    var s1 := s.(topics := topics');
    assert Holds(s, s.logOffset, {}) && Reached(c, s.log, s.topics, base, s.logOffset, {});
    assert DeliveredTo(c, s.log, s.topics, base, s.logOffset, t);
    BatchDelivered(c, s.log, Contents(s.topics, t), base, s.logOffset, hi, t);
    GrowthKeeps(c, s, base, s.log, topics');
    assert Holds(s1, hi, s.phase.pending) && Reached(c, s.log, topics', base, hi, s.phase.pending);
    ReachedOneMore(c, s.log, topics', base, hi, s.phase.pending, t);
    hide Reached, DeliveredTo, Inv;
    BatchKeeps(c, s1, Acknowledged(s1, t), base, hi, s.phase.pending - {t});
  }

  lemma SendDoneKeeps(c: Config, s: State, t: Topic, events: seq<SendEvent>, base: nat)
    requires Inv(c, s, base) && Enabled(c, s, SendDone(t, events))
    ensures Inv(c, Step(c, s, SendDone(t, events)), base)
  {
    var ms := Sent(c, s, t);
    if AfterEvents(|ms|, events).outcome == Success {
      SuccessMeansAllArrived(ms, events);
      SuccessKeeps(c, s, t, base);
    } else {
      GrowthKeeps(c, s, base, s.log, Append(s.topics, t, Arrived(ms, ReportsOf(events))));
    }
  }

  lemma StepKeeps(c: Config, s: State, e: Event, base: nat)
    requires Inv(c, s, base) && Enabled(c, s, e) && !FreshSetup(s, e)
    ensures Inv(c, Step(c, s, e), base) && Step(c, s, e).start == s.start
  {
    hide Inv, Reached;
    if e.Commit? {
      GrowthKeeps(c, s, base, s.log + [e.record], s.topics);
    } else if e.Stray? {
      GrowthKeeps(c, s, base, s.log, Append(s.topics, e.topic, e.messages));
    } else if e.Read? {
      ReadKeeps(c, s, e.count, e.topics, base);
    } else if e.SendDone? {
      SendDoneKeeps(c, s, e.topic, e.events, base);
    } else {
      InvIsInOrder(c, s, base);
      HoldingLessKeeps(c, s, Step(c, s, e), base);
    }
  }

  lemma InvIsInOrder(c: Config, s: State, base: nat)
    requires Inv(c, s, base)
    ensures InOrder(s)
  {
  }

  /** A set-up without a stored offset starts over. */
  lemma FreshSetupKeeps(c: Config, s: State, ok: bool)
    requires s.phase.Down? && !s.zkOffset.Offset?
    ensures Inv(c, Step(c, s, Setup(ok)), StartOffset(c, s, ok)) && Step(c, s, Setup(ok)).start == StartOffset(c, s, ok)
  {
    var n := StartOffset(c, s, ok);
    DeliveredNothing(c, s.log, s.topics, n);
    ReachedIsDelivered(c, s.log, s.topics, n, n);
  }

  lemma {:induction false} RunKeeps(c: Config, s: State, es: seq<Event>)
    requires Inv(c, s, s.start) && Run(c, s, es)
    ensures Inv(c, Exec(c, s, es), Exec(c, s, es).start)
    decreases |es|
  {
    if es != [] {
      if FreshSetup(s, es[0]) {
        FreshSetupKeeps(c, s, es[0].ok);
      } else {
        StepKeeps(c, s, es[0], s.start);
      }
      RunKeeps(c, Step(c, s, es[0]), es[1..]);
    }
  }

  /** The starts taken by set-ups: the last one without a stored offset, and the first. */
  predicate IsStart(s: State, n: nat) {
    n == s.start || s.first == Some(n)
  }

  /** A reader that stores an offset or is up has started, within the log, and at 1 unless it is a bucketd one. */
  ghost predicate Starts(c: Config, s: State) {
    && (s.zkOffset.Offset? || !s.phase.Down? ==> s.first.Some?)
    && forall n: nat :: IsStart(s, n) ==> 1 <= n <= |s.log| + 1 && (c.bucketd || n == 1)
  }

  lemma StepKeepsStarts(c: Config, s: State, e: Event)
    requires Starts(c, s) && Enabled(c, s, e)
    ensures Starts(c, Step(c, s, e))
  {
    assert IsStart(s, s.start) && (s.first.Some? ==> IsStart(s, s.first.value));
  }

  lemma {:induction false} RunKeepsStarts(c: Config, s: State, es: seq<Event>)
    requires Starts(c, s) && Run(c, s, es)
    ensures Starts(c, Exec(c, s, es))
    decreases |es|
  {
    if es != [] {
      StepKeepsStarts(c, s, es[0]);
      RunKeepsStarts(c, Step(c, s, es[0]), es[1..]);
    }
  }

  lemma InitHolds(c: Config)
    ensures Inv(c, Init(), Init().start) && Starts(c, Init())
  {
  }

  // What the reader promises

  /**
    In every run, all that the records from the last start up to the stored offset publish was
    delivered, each topic in log order, whatever failed or crashed meanwhile. If that start is
    not past the first one, all from the first one on was.
   */
  lemma OffsetSafety(c: Config, es: seq<Event>)
    requires Run(c, Init(), es) && Exec(c, Init(), es).zkOffset.Offset?
    ensures OffsetIsSafe(c, Exec(c, Init(), es))
  {
    hide *;
    InitHolds(c);
    RunKeeps(c, Init(), es);
    RunKeepsStarts(c, Init(), es);
    StartsAreSafe(c, Exec(c, Init(), es));
  }

  /**
    From the last start up to the stored offset, and from the first one unless the last is past
    it, everything was delivered; and a source that is not bucketd has one start, 1.
   */
  ghost predicate OffsetIsSafe(c: Config, s: State)
    requires s.zkOffset.Offset?
  {
    && s.start <= s.zkOffset.value && (c.bucketd || s.first == Some(s.start))
    && forall lo: nat :: IsStart(s, lo) && s.start <= lo <= s.zkOffset.value ==>
       Reached(c, s.log, s.topics, lo, s.zkOffset.value, {})
  }

  lemma StartsAreSafe(c: Config, s: State)
    requires Inv(c, s, s.start) && Starts(c, s) && s.zkOffset.Offset?
    ensures OffsetIsSafe(c, s)
  {
    var stored := s.zkOffset.value;
    StoredIsDelivered(c, s, s.start);
    assert IsStart(s, s.start) && IsStart(s, s.first.value);
    forall lo: nat | IsStart(s, lo) && s.start <= lo <= stored ensures Reached(c, s.log, s.topics, lo, stored, {}) {
      DeliveredFromLater(c, s.log, s.topics, s.start, lo, stored);
      ReachedIsDelivered(c, s.log, s.topics, lo, stored);
    }
  }

  lemma LastStartIsSafe(c: Config, s: State, t: Topic)
    requires s.zkOffset.Offset? && OffsetIsSafe(c, s)
    ensures 1 <= s.start <= s.zkOffset.value <= |s.log| + 1
            && DeliveredTo(c, s.log, s.topics, s.start, s.zkOffset.value, t)
  {
    hide DeliveredTo;
    assert IsStart(s, s.start);
    assert Reached(c, s.log, s.topics, s.start, s.zkOffset.value, {});
  }

  /** So no message of a record below the stored offset is missing. */
  lemma NoMessageLost(c: Config, es: seq<Event>, i: nat, t: Topic, m: Message)
    requires Run(c, Init(), es)
    requires var s := Exec(c, Init(), es);
             && s.zkOffset.Offset? && s.start <= i < s.zkOffset.value && 1 <= i <= |s.log|
             && m in c.publishes(s.log[i - 1], t)
    ensures m in Contents(Exec(c, Init(), es).topics, t)
  {
    OffsetSafety(c, es);
    hide Init, Exec, Run, Step, IsSub, LogMessages;
    var s := Exec(c, Init(), es);
    LastStartIsSafe(c, s, t);
    InDelivered(c, s.log, s.topics, s.start, s.zkOffset.value, i, t, m);
  }

  lemma LogHasMessage(c: Config, log: seq<Record>, lo: nat, i: nat, hi: nat, t: Topic, m: Message)
    requires lo < i <= hi <= |log| && m in c.publishes(log[i - 1], t)
    ensures m in LogMessages(log[lo..hi], c.publishes, t)
  {
    LastOfLog(log[lo..i], c.publishes, t, m);
    LogMessagesSplit(log, c.publishes, lo, i, hi, t);
  }

  lemma LastOfLog(log: seq<Record>, publishes: (Record, Topic) -> seq<Message>, t: Topic, m: Message)
    requires log != [] && m in publishes(log[|log| - 1], t)
    ensures m in LogMessages(log, publishes, t)
  {
  }

  lemma InDelivered(c: Config, log: seq<Record>, topics: map<Topic, seq<Message>>, lo: nat, hi: nat, i: nat,
      t: Topic, m: Message)
    requires 1 <= lo <= i < hi <= |log| + 1 && DeliveredTo(c, log, topics, lo, hi, t) && m in c.publishes(log[i - 1], t)
    ensures m in Contents(topics, t)
  {
    hide IsSub, LogMessages;
    LogHasMessage(c, log, lo - 1, i, hi - 1, t, m);
    SubMember(Between(c, log, lo, hi, t), Contents(topics, t), m);
  }

  /** What an event appends to a topic: the messages of a send that arrived, or stray ones. */
  ghost function Appended(c: Config, s: State, e: Event, t: Topic): seq<Message>
    requires Enabled(c, s, e)
  {
    match e
    case SendDone(u, events) => if u == t then Arrived(Sent(c, s, t), ReportsOf(events)) else []
    case Stray(u, ms) => if u == t then ms else []
    case _ => []
  }

  ghost function Deliveries(c: Config, s: State, es: seq<Event>, t: Topic): seq<Message>
    requires Run(c, s, es)
    decreases |es|
  {
    if es == [] then [] else Appended(c, s, es[0], t) + Deliveries(c, Step(c, s, es[0]), es[1..], t)
  }

  function Committed(e: Event): seq<Record> {
    if e.Commit? then [e.record] else []
  }

  function Commits(es: seq<Event>): seq<Record> {
    if es == [] then [] else Committed(es[0]) + Commits(es[1..])
  }

  lemma StepAppends(c: Config, s: State, e: Event, t: Topic)
    requires Enabled(c, s, e)
    ensures Contents(Step(c, s, e).topics, t) == Contents(s.topics, t) + Appended(c, s, e, t)
    ensures Step(c, s, e).log == s.log + Committed(e)
  {
    hide LogMessages, Arrived, Possible, AfterEvents;
  }

  lemma CommitsOfFirst(es: seq<Event>)
    requires es != []
    ensures Commits(es) == Committed(es[0]) + Commits(es[1..])
  {
  }

  lemma DeliveriesOfFirst(c: Config, s: State, es: seq<Event>, t: Topic)
    requires es != [] && Run(c, s, es)
    ensures Enabled(c, s, es[0]) && Run(c, Step(c, s, es[0]), es[1..])
    ensures Exec(c, s, es) == Exec(c, Step(c, s, es[0]), es[1..])
    ensures Deliveries(c, s, es, t) == Appended(c, s, es[0], t) + Deliveries(c, Step(c, s, es[0]), es[1..], t)
  {
    hide Step, Enabled, Appended;
  }

  lemma Assoc<T>(a: seq<T>, b: seq<T>, c: seq<T>)
    ensures (a + b) + c == a + (b + c)
  {
  }

  /** A topic holds what was delivered to it, and the log what was committed, in order; nothing is taken away. */
  lemma {:induction false} TopicsAreDeliveries(c: Config, s: State, es: seq<Event>, t: Topic)
    requires Run(c, s, es)
    ensures Contents(Exec(c, s, es).topics, t) == Contents(s.topics, t) + Deliveries(c, s, es, t)
    ensures Exec(c, s, es).log == s.log + Commits(es)
    decreases |es|
  {
    if es != [] {
      hide *;
      DeliveriesOfFirst(c, s, es, t);
      CommitsOfFirst(es);
      var s', rest := Step(c, s, es[0]), es[1..];
      StepAppends(c, s, es[0], t);
      TopicsAreDeliveries(c, s', rest, t);
      Assoc(Contents(s.topics, t), Appended(c, s, es[0], t), Deliveries(c, s', rest, t));
      Assoc(s.log, Committed(es[0]), Commits(rest));
    }
  }

  /** The batch ends without a save: it was given up, or the send of a topic did not succeed. */
  ghost predicate BatchFails(c: Config, s: State, e: Event)
    requires Enabled(c, s, e)
  {
    e.BatchError? || (e.SendDone? && AfterEvents(|Sent(c, s, e.topic)|, e.events).outcome != Success)
  }

  lemma FailureKeepsOffsets(c: Config, s: State, e: Event)
    requires Enabled(c, s, e) && BatchFails(c, s, e)
    ensures var s' := Step(c, s, e);
            s'.log == s.log && s'.logOffset == s.logOffset && s'.zkOffset == s.zkOffset && s'.phase.Idle?
  {
    hide LogMessages, Arrived, Possible, AfterEvents, ReportsOf, Append;
  }

  /** What an idle reader would send is what one sending from the same offset sends. */
  lemma SameBatchAgain(c: Config, s: State, s': State, topics: set<Topic>)
    requires s.phase.Sending? && InLog(s, s.phase.count) && forall t :: t in topics <==> Sent(c, s, t) != []
    requires s'.log == s.log && s'.logOffset == s.logOffset && s'.phase.Idle?
    ensures Enabled(c, s', Read(s.phase.count, topics))
    ensures forall t :: Sent(c, Step(c, s', Read(s.phase.count, topics)), t) == Sent(c, s, t)
  {
    hide LogMessages;
    var lo, hi := s.logOffset, s.logOffset + s.phase.count;
    forall t ensures t in topics <==> Between(c, s'.log, lo, hi, t) != [] {
      assert Sent(c, s, t) == Between(c, s.log, lo, hi, t);
    }
  }

  /** A batch that fails is read again, from the same offset and to the same topics. */
  lemma FailedBatchIsReadAgain(c: Config, s: State, topics: set<Topic>, e: Event)
    requires Enabled(c, s, e) && BatchFails(c, s, e) && InLog(s, s.phase.count)
    requires forall t :: t in topics <==> Sent(c, s, t) != []
    ensures var s' := Step(c, s, e);
            && s'.logOffset == s.logOffset && s'.zkOffset == s.zkOffset
            && Enabled(c, s', Read(s.phase.count, topics))
            && forall t :: Sent(c, Step(c, s', Read(s.phase.count, topics)), t) == Sent(c, s, t)
  {
    assert s.phase.Sending?;
    hide *;
    FailureKeepsOffsets(c, s, e);
    SameBatchAgain(c, s, Step(c, s, e), topics);
  }

  /**
    A save whose next offset is not the one in memory advances the memory to it. If it was
    applied, a crash right after it starts there again; if not, where it would have before.
    Without such an offset nothing changes.
   */
  lemma SavedOffsetSurvives(c: Config, s: State, applied: bool, ok: bool)
    requires Enabled(c, s, WriteOffset(applied))
    ensures var s' := Step(c, s, WriteOffset(applied)); var n := s.phase.next;
            && s'.phase.Idle?
            && (if n.Some? && n.value != s.logOffset
                then && s'.logOffset == n.value
                     && (applied ==> Step(c, Step(c, s', Crash), Setup(ok)).logOffset == n.value)
                     && (!applied ==> s'.zkOffset == s.zkOffset)
                else s'.logOffset == s.logOffset && s'.zkOffset == s.zkOffset)
  {
  }

  /** A batch sent to all its topics moves the offset to its end. */
  lemma EndOfBatch(c: Config, s: State, applied: bool)
    requires Enabled(c, s, EndSend)
    ensures Step(c, Step(c, s, EndSend), WriteOffset(applied)).logOffset == s.logOffset + s.phase.count
  {
  }

  /**
    Once an offset is stored, no continuation lowers it or moves the start, unless the node is
    overwritten with garbage.
   */
  lemma {:induction false} StoredOffsetGrows(c: Config, s: State, es: seq<Event>)
    requires Inv(c, s, s.start) && Run(c, s, es) && s.zkOffset.Offset? && Corrupt !in es
    ensures Exec(c, s, es).zkOffset.Offset? && s.zkOffset.value <= Exec(c, s, es).zkOffset.value
    ensures Exec(c, s, es).start == s.start
    decreases |es|
  {
    if es != [] {
      StepKeeps(c, s, es[0], s.start);
      StoredOffsetGrows(c, Step(c, s, es[0]), es[1..]);
    }
  }

  // The first start

  /** No set-up of a run from `s` finds the offset missing. */
  ghost predicate NoFreshSetup(c: Config, s: State, es: seq<Event>)
    requires Run(c, s, es)
    decreases |es|
  {
    es == [] || (!FreshSetup(s, es[0]) && NoFreshSetup(c, Step(c, s, es[0]), es[1..]))
  }

  /** Every run from `s` up to the next fresh set-up has delivered, once an offset is stored, all from `lo` up to it. */
  ghost predicate Covers(c: Config, s: State, lo: nat)
    requires 1 <= lo
  {
    forall es :: Run(c, s, es) && NoFreshSetup(c, s, es) ==> Covered(c, Exec(c, s, es), lo)
  }

  ghost predicate Covered(c: Config, s: State, lo: nat)
    requires 1 <= lo
  {
    s.zkOffset.Offset? && lo <= s.zkOffset.value <= |s.log| + 1 ==> Delivered(c, s.log, s.topics, lo, s.zkOffset.value)
  }

  lemma {:induction false} RunKeepsBase(c: Config, s: State, es: seq<Event>, base: nat)
    requires Inv(c, s, base) && Run(c, s, es) && NoFreshSetup(c, s, es)
    ensures Inv(c, Exec(c, s, es), base)
    decreases |es|
  {
    if es != [] {
      StepKeeps(c, s, es[0], base);
      RunKeepsBase(c, Step(c, s, es[0]), es[1..], base);
    }
  }

  lemma BaseCovers(c: Config, s: State, base: nat, lo: nat)
    requires Inv(c, s, base) && base <= lo
    ensures Covers(c, s, lo)
  {
    forall es | Run(c, s, es) && NoFreshSetup(c, s, es) ensures Covered(c, Exec(c, s, es), lo) {
      RunKeepsBase(c, s, es, base);
      BaseIsCovered(c, Exec(c, s, es), base, lo);
    }
  }

  lemma BaseIsCovered(c: Config, s: State, base: nat, lo: nat)
    requires Inv(c, s, base) && base <= lo
    ensures Covered(c, s, lo)
  {
    if s.zkOffset.Offset? && lo <= s.zkOffset.value {
      StoredIsDelivered(c, s, base);
      DeliveredFromLater(c, s.log, s.topics, base, lo, s.zkOffset.value);
    }
  }

  /** A record without entries publishes nothing. */
  const EMPTY_RECORD := Record([])

  lemma OneRecord(c: Config, r: Record, t: Topic)
    ensures LogMessages([r], c.publishes, t) == c.publishes(r, t)
  {
    assert [r][..0] == [];
    assert LogMessages([], c.publishes, t) == [];
  }

  lemma EmptyRecordPublishesNothing(x: Extensions, bucketd: bool, log: seq<Record>, lo: nat, t: Topic)
    requires 1 <= lo <= |log| + 1
    ensures var c := WithExtensions(x, bucketd);
            && Between(c, log + [EMPTY_RECORD], lo, |log| + 2, t) == Between(c, log, lo, |log| + 1, t)
            && Between(c, log + [EMPTY_RECORD], |log| + 1, |log| + 2, t) == []
  {
    var c, more := WithExtensions(x, bucketd), log + [EMPTY_RECORD];
    OneRecord(c, EMPTY_RECORD, t);
    hide LogMessages;
    assert more[lo - 1..|log| + 1] == log[lo - 1..] + [EMPTY_RECORD];
    assert log[lo - 1..|log|] == log[lo - 1..];
    assert more[|log|..|log| + 1] == [EMPTY_RECORD];
    LogMessagesConcat(log[lo - 1..], [EMPTY_RECORD], c.publishes, t);
  }

  lemma RunFirst(c: Config, s: State, e: Event, es: seq<Event>)
    requires Enabled(c, s, e) && Run(c, Step(c, s, e), es)
    ensures Run(c, s, [e] + es) && Exec(c, s, [e] + es) == Exec(c, Step(c, s, e), es)
    ensures !FreshSetup(s, e) && NoFreshSetup(c, Step(c, s, e), es) ==> NoFreshSetup(c, s, [e] + es)
  {
    assert ([e] + es)[1..] == es;
  }

  /** From an idle reader at the end of the log, a record without entries is enough for an offset to be stored. */
  lemma SaveNothing(x: Extensions, bucketd: bool, s: State) returns (es: seq<Event>)
    requires s.phase.Idle? && s.logOffset == |s.log| + 1
    ensures var c := WithExtensions(x, bucketd);
            && Run(c, s, es) && NoFreshSetup(c, s, es)
            && Exec(c, s, es) == s.(log := s.log + [EMPTY_RECORD], logOffset := |s.log| + 2,
                                 zkOffset := Offset(|s.log| + 2))
  {
    var c := WithExtensions(x, bucketd);
    var s1 := Step(c, s, Commit(EMPTY_RECORD));
    var lo, hi := s1.logOffset, s1.logOffset + 1;
    forall t ensures Between(c, s1.log, lo, hi, t) == [] {
      EmptyRecordPublishesNothing(x, bucketd, s.log, |s.log| + 1, t);
    }
    var s2 := Step(c, s1, Read(1, {}));
    var s3 := Step(c, s2, EndSend);
    var s4 := Step(c, s3, WriteOffset(true));
    RunFirst(c, s3, WriteOffset(true), []);
    RunFirst(c, s2, EndSend, [WriteOffset(true)] + []);
    RunFirst(c, s1, Read(1, {}), [EndSend] + ([WriteOffset(true)] + []));
    RunFirst(c, s, Commit(EMPTY_RECORD), [Read(1, {})] + ([EndSend] + ([WriteOffset(true)] + [])));
    es := [Commit(EMPTY_RECORD)] + ([Read(1, {})] + ([EndSend] + ([WriteOffset(true)] + [])));
  }

  /** What the records past `lo` publish and was not delivered before a set-up past them is not delivered after it. */
  lemma SkippedIsLost(x: Extensions, bucketd: bool, s: State, lo: nat)
    requires s.phase.Idle? && s.logOffset == |s.log| + 1 && 1 <= lo <= |s.log| + 1
    requires !Delivered(WithExtensions(x, bucketd), s.log, s.topics, lo, |s.log| + 1)
    ensures !Covers(WithExtensions(x, bucketd), s, lo)
  {
    hide IsSub, LogMessages, Run, Step;
    var c := WithExtensions(x, bucketd);
    var es := SaveNothing(x, bucketd, s);
    var t :| !DeliveredTo(c, s.log, s.topics, lo, |s.log| + 1, t);
    EmptyRecordPublishesNothing(x, bucketd, s.log, lo, t);
    var s' := Exec(c, s, es);
    assert !DeliveredTo(c, s'.log, s'.topics, lo, |s.log| + 2, t);
    assert !Covered(c, s', lo);
  }

  /** The set-up takes an offset past `lo`, and skips records. */
  predicate Skips(c: Config, s: State, ok: bool, lo: nat) {
    c.bucketd && ok && s.zkOffset.Missing? && lo <= |s.log|
  }

  /**
    When a set-up finds no stored offset, everything from `lo`, say from the first start, up to
    the offset stored next is delivered in all its completions if and only if: the source is not
    bucketd, or the log cannot be read then, or it has no record from `lo` on, or all that these
    publish was delivered already.
   */
  lemma SetupCoversExactly(x: Extensions, bucketd: bool, s: State, ok: bool, lo: nat)
    requires s.phase.Down? && !s.zkOffset.Offset? && 1 <= lo <= |s.log| + 1
    ensures var c := WithExtensions(x, bucketd);
            Covers(c, Step(c, s, Setup(ok)), lo) <==>
              !Skips(c, s, ok, lo) || Delivered(c, s.log, s.topics, lo, |s.log| + 1)
  {
    var c := WithExtensions(x, bucketd);
    var s' := Step(c, s, Setup(ok));
    FreshSetupKeeps(c, s, ok);
    if !Skips(c, s, ok, lo) {
      BaseCovers(c, s', StartOffset(c, s, ok), lo);
    } else if Delivered(c, s.log, s.topics, lo, |s.log| + 1) {
      BaseCovers(c, s', lo, lo);
    } else {
      SkippedIsLost(x, bucketd, s', lo);
    }
  }

  /** Nothing is published by the records from `lo` on. */
  ghost predicate Silent(c: Config, log: seq<Record>, lo: nat)
    requires 1 <= lo <= |log| + 1
  {
    var hi := |log| + 1;
    forall t :: Between(c, log, lo, hi, t) == []
  }

  lemma SilentIsDelivered(c: Config, log: seq<Record>, lo: nat)
    requires 1 <= lo <= |log| + 1
    ensures Delivered(c, log, map[], lo, |log| + 1) <==> Silent(c, log, lo)
  {
    var hi := |log| + 1;
    forall t ensures DeliveredTo(c, log, map[], lo, hi, t) <==> Between(c, log, lo, hi, t) == [] {
    }
  }

  /**
    Known before the set-up: whatever was delivered until then, everything from `lo` on is
    delivered if and only if the set-up skips no record that publishes something.
   */
  lemma SetupIsSafeExactly(x: Extensions, bucketd: bool, s: State, ok: bool, lo: nat)
    requires s.phase.Down? && !s.zkOffset.Offset? && 1 <= lo <= |s.log| + 1
    ensures var c := WithExtensions(x, bucketd);
            (forall topics :: Covers(c, Step(c, s.(topics := topics), Setup(ok)), lo)) <==>
              !Skips(c, s, ok, lo) || Silent(c, s.log, lo)
  {
    var c := WithExtensions(x, bucketd);
    forall topics ensures Covers(c, Step(c, s.(topics := topics), Setup(ok)), lo) <==>
                          !Skips(c, s, ok, lo) || Delivered(c, s.log, topics, lo, |s.log| + 1)
    {
      SetupCoversExactly(x, bucketd, s.(topics := topics), ok, lo);
    }
    SilentIsDelivered(c, s.log, lo);
    if Silent(c, s.log, lo) {
      var hi := |s.log| + 1;
      forall topics ensures Delivered(c, s.log, topics, lo, hi) {
      }
    }
    assert Covers(c, Step(c, s.(topics := map[]), Setup(ok)), lo) <==>
           !Skips(c, s, ok, lo) || Delivered(c, s.log, map[], lo, |s.log| + 1);
  }

  /** A bucketd reader starts, a record is committed, and the reader crashes before its first save. */
  lemma CrashBeforeFirstSave(x: Extensions, r: Record)
    ensures var c, es := WithExtensions(x, true), [Setup(true), Commit(r), Crash];
            Run(c, Init(), es) && Exec(c, Init(), es) == State([r], map[], Missing, 1, 1, Some(1), Down)
  {
    var c := WithExtensions(x, true);
    var s1 := State([], map[], Missing, 1, 1, Some(1), Idle);
    assert Step(c, Init(), Setup(true)) == s1;
    var s2 := Step(c, s1, Commit(r));
    assert [] + [r] == [r];
    RunFirst(c, s2, Crash, []);
    RunFirst(c, s1, Commit(r), [Crash] + []);
    RunFirst(c, Init(), Setup(true), [Commit(r)] + ([Crash] + []));
    assert [Setup(true)] + ([Commit(r)] + ([Crash] + [])) == [Setup(true), Commit(r), Crash];
  }

  /** It happens, to any record that publishes something: the set-up after that crash skips it for good. */
  lemma RestartSkipsARecord(x: Extensions, r: Record, t: Topic)
    requires EntriesMessages(x, r.entries, t) != []
    ensures var c, es := WithExtensions(x, true), [Setup(true), Commit(r), Crash];
            && Run(c, Init(), es) && Exec(c, Init(), es).first == Some(1)
            && Enabled(c, Exec(c, Init(), es), Setup(true))
            && !Covers(c, Step(c, Exec(c, Init(), es), Setup(true)), 1)
  {
    var c := WithExtensions(x, true);
    CrashBeforeFirstSave(x, r);
    SkippedRecord(c, r, t);
    hide Exec, Run, Step, Init, DeliveredTo;
    SetupCoversExactly(x, true, Exec(c, Init(), [Setup(true), Commit(r), Crash]), true, 1);
  }

  lemma SkippedRecord(c: Config, r: Record, t: Topic)
    requires c.publishes(r, t) != []
    ensures !DeliveredTo(c, [r], map[], 1, 2, t)
  {
    OneRecord(c, r, t);
    assert [r][0..1] == [r];
  }

  // The filter stage

  /** What the filter stage prepares for a batch is what the log publishes. */
  lemma {:induction false} FilterStageIsLog(x: Extensions, bucketd: bool, records: seq<Record>, t: Topic)
    ensures BatchMessages(x, records, t) == LogMessages(records, WithExtensions(x, bucketd).publishes, t)
  {
    SamePublishes(x, bucketd, records, (r: Record, u: Topic) => EntriesMessages(x, r.entries, u), t);
  }

  lemma {:induction false} SamePublishes(x: Extensions, bucketd: bool, records: seq<Record>,
      f: (Record, Topic) -> seq<Message>, t: Topic)
    requires forall r, u :: f(r, u) == EntriesMessages(x, r.entries, u)
    ensures LogMessages(records, f, t) == LogMessages(records, WithExtensions(x, bucketd).publishes, t)
  {
    if records != [] {
      SamePublishes(x, bucketd, records[..|records| - 1], f, t);
    }
  }

  /** The lists that the filter stage prepared are the messages of the batch, and the topics to send to are theirs. */
  lemma FilterEnables(x: Extensions, bucketd: bool, s: State, records: seq<Record>,
      entries: map<Topic, seq<Message>>, toSend: set<Topic>)
    requires s.phase.Idle? && InLog(s, |records|) && records == s.log[s.logOffset - 1..s.logOffset - 1 + |records|]
    requires forall t :: Contents(entries, t) == BatchMessages(x, records, t)
    requires toSend == set t | t in entries && entries[t] != []
    ensures var c := WithExtensions(x, bucketd);
            && Enabled(c, s, Read(|records|, toSend))
            && forall t :: Contents(entries, t) == Sent(c, Step(c, s, Read(|records|, toSend)), t)
  {
    hide LogMessages, BatchMessages;
    var c, lo, hi := WithExtensions(x, bucketd), s.logOffset, s.logOffset + |records|;
    forall t ensures Contents(entries, t) == Between(c, s.log, lo, hi, t) {
      FilterStageIsLog(x, bucketd, records, t);
    }
    forall t ensures t in toSend <==> Between(c, s.log, lo, hi, t) != [] {
      assert t in toSend <==> Contents(entries, t) != [];
    }
  }

  lemma FilteredIsDelivered(x: Extensions, bucketd: bool, log: seq<Record>, topics: map<Topic, seq<Message>>,
      lo: nat, hi: nat, t: Topic)
    requires 1 <= lo <= hi <= |log| + 1 && DeliveredTo(WithExtensions(x, bucketd), log, topics, lo, hi, t)
    ensures IsSub(BatchMessages(x, log[lo - 1..hi - 1], t), Contents(topics, t))
  {
    hide IsSub, LogMessages, BatchMessages, WithExtensions;
    FilterStageIsLog(x, bucketd, log[lo - 1..hi - 1], t);
  }

  /**
    Offset safety for the real filter stage: what it makes of the records from the last start up to
    the stored offset was delivered.
   */
  lemma FilteredOffsetSafety(x: Extensions, bucketd: bool, es: seq<Event>, t: Topic)
    requires Run(WithExtensions(x, bucketd), Init(), es)
             && Exec(WithExtensions(x, bucketd), Init(), es).zkOffset.Offset?
    ensures var s := Exec(WithExtensions(x, bucketd), Init(), es);
            && 1 <= s.start <= s.zkOffset.value <= |s.log| + 1
            && IsSub(BatchMessages(x, s.log[s.start - 1..s.zkOffset.value - 1], t), Contents(s.topics, t))
  {
    hide *;
    var s := Exec(WithExtensions(x, bucketd), Init(), es);
    OffsetSafety(WithExtensions(x, bucketd), es);
    LastStartIsSafe(WithExtensions(x, bucketd), s, t);
    FilteredIsDelivered(x, bucketd, s.log, s.topics, s.start, s.zkOffset.value, t);
  }

  /** The reader object: its offset, the node it keeps in Zookeeper, and where its batch stands. */
  class Reader {
    const bucketd: bool
    var logOffset: nat
    var zkOffset: Node
    var phase: Phase
    ghost var start: nat
    ghost var first: Option<nat>

    /** The protocol state around this reader. */
    ghost function View(log: seq<Record>, topics: map<Topic, seq<Message>>): State
      reads this
    {
      State(log, topics, zkOffset, logOffset, start, first, phase)
    }

    constructor (bucketd: bool)
      ensures View([], map[]) == Init() && this.bucketd == bucketd
    {
      this.bucketd := bucketd;
      logOffset, zkOffset, start, first, phase := 1, Missing, 1, None, Down;
    }

    /** The offset to start from. `cseq` is the answer about the last record, if it could be had. */
    method SetupOffset(cseq: Option<nat>, ghost c: Config, ghost log: seq<Record>,
        ghost topics: map<Topic, seq<Message>>)
      requires phase.Down? && c.bucketd == bucketd && (cseq.Some? ==> cseq.value == |log|)
      modifies this
      ensures View(log, topics) == Step(c, old(View(log, topics)), Setup(cseq.Some?))
      ensures zkOffset == old(zkOffset)
      ensures logOffset == match zkOffset
                           case Offset(stored) => stored
                           case Invalid => 1
                           case Missing => if bucketd && cseq.Some? then cseq.value + 1 else 1
    {
      phase := Idle;
      logOffset := 1;
      match zkOffset {
        case Offset(stored) =>
          logOffset := stored;
        case Invalid =>
        case Missing =>
          if bucketd && cseq.Some? {
            logOffset := cseq.value + 1;
          }
      }
      if !zkOffset.Offset? {
        start := logOffset;
      }
      first := Some(first.GetOr(logOffset));
    }

    /** The records read are filtered into the lists to publish, and the batch is sent. */
    method FilterBatch(x: Extensions, records: seq<Record>, ghost c: Config, ghost log: seq<Record>,
        ghost topics: map<Topic, seq<Message>>)
      returns (entriesToPublish: map<Topic, seq<Message>>)
      requires phase.Idle? && c == WithExtensions(x, c.bucketd)
      requires 1 <= logOffset && logOffset + |records| <= |log| + 1
               && records == log[logOffset - 1..logOffset - 1 + |records|]
      modifies this
      ensures var toSend := set t | t in entriesToPublish && entriesToPublish[t] != [];
              Enabled(c, old(View(log, topics)), Read(|records|, toSend))
                && View(log, topics) == Step(c, old(View(log, topics)), Read(|records|, toSend))
      ensures forall t :: Contents(entriesToPublish, t) == Sent(c, View(log, topics), t)
      ensures forall t :: BatchPublishes(x, records, t, Contents(entriesToPublish, t))
      ensures phase.Sending? && phase.count == |records|
      ensures forall t :: t in phase.pending <==> Contents(entriesToPublish, t) != []
    {
      entriesToPublish := ProcessFilterEntries(x, records);
      var toSend := set t | t in entriesToPublish && entriesToPublish[t] != [];
      FilterEnables(x, c.bucketd, View(log, topics), records, entriesToPublish, toSend);
      phase := Sending(|records|, toSend);
    }

    /** The batch was published: its end is the next offset, unless the read answered without a start. */
    method EndPublish(infoStart: Option<nat>, nbRecords: nat, ghost c: Config, ghost log: seq<Record>,
        ghost topics: map<Topic, seq<Message>>)
      requires infoStart.Some? ==> infoStart.value == logOffset && phase == Sending(nbRecords, {})
      requires infoStart.None? ==> phase.Idle?
      modifies this
      ensures View(log, topics) == Step(c, old(View(log, topics)), if infoStart.Some? then EndSend else ReadNothing)
      ensures phase == Saving(if infoStart.Some? then Some(infoStart.value + nbRecords) else None)
      ensures logOffset == old(logOffset) && zkOffset == old(zkOffset)
    {
      phase := Saving(if infoStart.Some? then Some(infoStart.value + nbRecords) else None);
    }

    method ProcessSaveLogOffset(applied: bool, ghost c: Config, ghost log: seq<Record>,
        ghost topics: map<Topic, seq<Message>>)
      requires phase.Saving?
      modifies this
      ensures View(log, topics) == Step(c, old(View(log, topics)), WriteOffset(applied))
      ensures var next := old(phase.next); var moves := next.Some? && next.value != old(logOffset);
              && logOffset == (if moves then next.value else old(logOffset))
              && zkOffset == (if moves && applied then Offset(next.value) else old(zkOffset))
    {
      var next := phase.next;
      if next.Some? && next.value != logOffset {
        logOffset := next.value;
        if applied {
          zkOffset := Offset(logOffset);
        }
      }
      phase := Idle;
    }
  }
}
