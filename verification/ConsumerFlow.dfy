/**
  Flow control of the consumer: how many messages it asks for, and why it keeps asking.
  Deliveries, task ends, timers and next-tick callbacks come in any order, and the
  circuit breaker may be tripped or nominal at each attempt.
 */
module ConsumerFlow {
  import opened Options
  import opened Flags

  /**
    `requests` are the sizes of the consume calls not answered yet. A retry timer that
    is armed again without being cleared stays in `timers`, only the `handle` moves on.
   */
  datatype State = State(
    concurrency: nat, running: nat, queued: nat,
    pendingRequests: int, requests: seq<nat>,
    timers: set<nat>, handle: Option<nat>, nextTimer: nat, ticks: nat)

  datatype Event =
    | Tick(nominal: bool)
    | TimerFires(timer: nat, nominal: bool)
    | Delivery(request: nat, error: bool, entries: nat, wellFormed: nat)
    | StartTask
    | FinishTask

  function Sum(ns: seq<nat>): nat {
    if ns == [] then 0 else Sum(ns[..|ns| - 1]) + ns[|ns| - 1]
  }

  lemma {:induction false} SumConcat(a: seq<nat>, b: seq<nat>)
    ensures Sum(a + b) == Sum(a) + Sum(b)
  {
    if b == [] {
      assert a + b == a;
    } else {
      SumConcat(a, b[..|b| - 1]);
      assert (a + b)[..|a + b| - 1] == a + b[..|b| - 1];
    }
  }

  lemma SumWithout(ns: seq<nat>, i: nat)
    requires i < |ns|
    ensures Sum(ns) == Sum(ns[..i] + ns[i + 1..]) + ns[i]
  {
    SumConcat(ns[..i], ns[i + 1..]);
    SumConcat(ns[..i + 1], ns[i + 1..]);
    assert ns == ns[..i + 1] + ns[i + 1..];
    assert ns[..i + 1][..i] == ns[..i];
  }

  function AvailableSlots(s: State): nat {
    var n := s.concurrency - s.running - s.queued - s.pendingRequests;
    if n > 0 then n else 0
  }

  function ScheduleNextTryConsume(s: State): State {
    s.(timers := s.timers + {s.nextTimer}, handle := Some(s.nextTimer), nextTimer := s.nextTimer + 1)
  }

  function TryConsume(s: State, nominal: bool): State {
    var s1 := if s.handle.Some? then s.(timers := s.timers - {s.handle.value}, handle := None) else s;
    if !nominal then ScheduleNextTryConsume(s1)
    else
      var n := AvailableSlots(s1);
      if n == 0 then s1 else s1.(pendingRequests := s1.pendingRequests + n, requests := s1.requests + [n])
  }

  /** The consumer right after `subscribe`. */
  function Subscribed(concurrency: nat, nominal: bool): State {
    TryConsume(State(concurrency, 0, 0, 0, [], {}, None, 0, 0), nominal)
  }

  predicate Enabled(s: State, e: Event) {
    match e
    case Tick(_) => s.ticks > 0
    case TimerFires(t, _) => t in s.timers
    case Delivery(r, error, n, m) => r < |s.requests| && (error ==> n == 0) && m <= n <= s.requests[r]
    case StartTask => s.queued > 0 && s.running < s.concurrency
    case FinishTask => s.running > 0
  }

  function Step(s: State, e: Event): State
    requires Enabled(s, e)
  {
    match e
    case Tick(nominal) => TryConsume(s.(ticks := s.ticks - 1), nominal)
    case TimerFires(t, nominal) => TryConsume(s.(timers := s.timers - {t}), nominal)
    case Delivery(r, error, n, m) =>
      var asked := s.requests[r];
      var s1 := s.(pendingRequests := s.pendingRequests - asked,
                   requests := s.requests[..r] + s.requests[r + 1..],
                   queued := s.queued + (if error then 0 else m));
      if error || n < asked then ScheduleNextTryConsume(s1) else s1
    case StartTask => s.(queued := s.queued - 1, running := s.running + 1)
    case FinishTask => s.(running := s.running - 1, ticks := s.ticks + 1)
  }

  predicate Run(s: State, es: seq<Event>)
    decreases |es|
  {
    es == [] || (Enabled(s, es[0]) && Run(Step(s, es[0]), es[1..]))
  }

  function Exec(s: State, es: seq<Event>): State
    requires Run(s, es)
    decreases |es|
  {
    if es == [] then s else Exec(Step(s, es[0]), es[1..])
  }

  predicate Bounded(s: State) {
    && s.concurrency >= 1
    && s.pendingRequests == Sum(s.requests)
    && (forall i :: 0 <= i < |s.requests| ==> s.requests[i] >= 1)
    && s.running + s.queued + s.pendingRequests <= s.concurrency
  }

  /** Something is still to happen: a task, a consume request, a retry timer or a next-tick retry. */
  predicate Alive(s: State) {
    s.running + s.queued > 0 || s.requests != [] || s.timers != {} || s.ticks > 0
  }

  /** A full delivery with no usable entry, and nothing else going on. */
  predicate OnlyMalformed(s: State, e: Event) {
    && e.Delivery? && e.request < |s.requests|
    && !e.error && e.entries == s.requests[e.request] && e.wellFormed == 0
    && s.running + s.queued == 0 && |s.requests| == 1 && s.timers == {} && s.ticks == 0
  }

  lemma TryConsumeKeeps(s: State, nominal: bool)
    requires Bounded(s)
    ensures Bounded(TryConsume(s, nominal)) && Alive(TryConsume(s, nominal))
  {
    var s1 := if s.handle.Some? then s.(timers := s.timers - {s.handle.value}, handle := None) else s;
    SumConcat(s1.requests, [AvailableSlots(s1)]);
    assert [AvailableSlots(s1)][..0] == [];
    assert s.nextTimer in ScheduleNextTryConsume(s1).timers;
  }

  lemma DeliveryKeepsBound(s: State, r: nat, error: bool, n: nat, m: nat)
    requires Bounded(s) && Enabled(s, Delivery(r, error, n, m))
    ensures Bounded(Step(s, Delivery(r, error, n, m)))
  {
    SumWithout(s.requests, r);
    hide Sum;
  }

  lemma DeliveryIsExact(s: State, r: nat, error: bool, n: nat, m: nat)
    requires Bounded(s) && Enabled(s, Delivery(r, error, n, m))
    ensures Bounded(Step(s, Delivery(r, error, n, m)))
    ensures Alive(Step(s, Delivery(r, error, n, m))) <==> !OnlyMalformed(s, Delivery(r, error, n, m))
  {
    DeliveryKeepsBound(s, r, error, n, m);
    hide Sum, Bounded;
    assert s.nextTimer in s.timers + {s.nextTimer};
    assert |s.requests[..r] + s.requests[r + 1..]| == |s.requests| - 1;
  }

  /**
    Every step keeps the bound, and something outstanding, except one: the delivery of
    exactly as many entries as asked, all malformed, while nothing else is going on.
   */
  lemma StepIsExact(s: State, e: Event)
    requires Bounded(s) && Enabled(s, e)
    ensures Bounded(Step(s, e))
    ensures Alive(Step(s, e)) <==> !OnlyMalformed(s, e)
  {
    match e
    case Tick(nominal) => TryConsumeKeeps(s.(ticks := s.ticks - 1), nominal);
    case TimerFires(t, nominal) => TryConsumeKeeps(s.(timers := s.timers - {t}), nominal);
    case Delivery(r, error, n, m) => DeliveryIsExact(s, r, error, n, m);
    case StartTask =>
    case FinishTask =>
  }

  /** No delivery of the run brings only malformed entries to an otherwise idle consumer. */
  predicate SomeWellFormed(s: State, es: seq<Event>)
    requires Run(s, es)
    decreases |es|
  {
    es == [] || (!OnlyMalformed(s, es[0]) && SomeWellFormed(Step(s, es[0]), es[1..]))
  }

  lemma {:induction false} RunKeeps(s: State, es: seq<Event>)
    requires Bounded(s) && Run(s, es)
    ensures Bounded(Exec(s, es))
    decreases |es|
  {
    if es != [] {
      StepIsExact(s, es[0]);
      RunKeeps(Step(s, es[0]), es[1..]);
    }
  }

  /** A run ends with something outstanding exactly when no delivery of it stalled the consumer. */
  lemma {:induction false} AliveExactly(s: State, es: seq<Event>)
    requires Bounded(s) && Alive(s) && Run(s, es)
    ensures Alive(Exec(s, es)) <==> SomeWellFormed(s, es)
    decreases |es|
  {
    if es != [] {
      StepIsExact(s, es[0]);
      if OnlyMalformed(s, es[0]) {
        StalledForGood(Step(s, es[0]), es[1..]);
      } else {
        AliveExactly(Step(s, es[0]), es[1..]);
      }
    }
  }

  lemma SubscribedHolds(concurrency: nat, nominal: bool)
    requires concurrency >= 1
    ensures var s := Subscribed(concurrency, nominal); Bounded(s) && Alive(s) && s.concurrency == concurrency
  {
    TryConsumeKeeps(State(concurrency, 0, 0, 0, [], {}, None, 0, 0), nominal);
  }

  /**
    In every run tasks running or queued, and messages asked for, stay within the concurrency;
    and the run ends with something outstanding if and only if none of its deliveries brought
    only malformed entries, as many as asked, to an otherwise idle consumer.
   */
  lemma FlowControl(concurrency: nat, nominal: bool, es: seq<Event>)
    requires concurrency >= 1 && Run(Subscribed(concurrency, nominal), es)
    ensures var s := Exec(Subscribed(concurrency, nominal), es);
            WithinConcurrency(s) && s.concurrency == concurrency
    ensures Alive(Exec(Subscribed(concurrency, nominal), es)) <==> SomeWellFormed(Subscribed(concurrency, nominal), es)
  {
    hide *;
    SubscribedHolds(concurrency, nominal);
    RunKeeps(Subscribed(concurrency, nominal), es);
    BoundedIsWithin(Exec(Subscribed(concurrency, nominal), es));
    AliveExactly(Subscribed(concurrency, nominal), es);
    ConcurrencyFixed(Subscribed(concurrency, nominal), es);
  }

  predicate WithinConcurrency(s: State) {
    s.running + s.queued + Sum(s.requests) <= s.concurrency
  }

  lemma BoundedIsWithin(s: State)
    requires Bounded(s)
    ensures WithinConcurrency(s)
  {
  }

  /** Asking for the free slots fills the pipeline exactly, and there are none exactly when it is full. */
  lemma SlotsFillThePipeline(s: State)
    requires Bounded(s)
    ensures s.running + s.queued + Sum(s.requests) + AvailableSlots(s) == s.concurrency
    ensures var s' := TryConsume(s, true);
            s'.running + s'.queued + Sum(s'.requests) == s'.concurrency
  {
    var n := AvailableSlots(s);
    SumConcat(s.requests, [n]);
    assert [n][..0] == [];
  }

  lemma {:induction false} ConcurrencyFixed(s: State, es: seq<Event>)
    requires Run(s, es)
    ensures Exec(s, es).concurrency == s.concurrency
    decreases |es|
  {
    if es != [] {
      ConcurrencyFixed(Step(s, es[0]), es[1..]);
    }
  }

  /** Once nothing is outstanding nothing ever happens again: the consumer is stalled for good. */
  lemma StalledForGood(s: State, es: seq<Event>)
    requires !Alive(s) && Run(s, es)
    ensures es == []
  {
  }

  // Conservation

  /** The well-formed entries that the deliveries of a run brought. */
  function Delivered(es: seq<Event>): nat {
    if es == [] then 0
    else (if es[0].Delivery? && !es[0].error then es[0].wellFormed else 0) + Delivered(es[1..])
  }

  function Started(es: seq<Event>): nat {
    if es == [] then 0 else (if es[0].StartTask? then 1 else 0) + Started(es[1..])
  }

  function Finished(es: seq<Event>): nat {
    if es == [] then 0 else (if es[0].FinishTask? then 1 else 0) + Finished(es[1..])
  }

  function Ticked(es: seq<Event>): nat {
    if es == [] then 0 else (if es[0].Tick? then 1 else 0) + Ticked(es[1..])
  }

  lemma {:induction false} Books(s: State, es: seq<Event>)
    requires Run(s, es)
    ensures var s' := Exec(s, es);
            && s'.queued == s.queued + Delivered(es) - Started(es)
            && s'.running == s.running + Started(es) - Finished(es)
            && s'.ticks == s.ticks + Finished(es) - Ticked(es)
    decreases |es|
  {
    if es != [] {
      StepBooks(s, es[0]);
      hide Step, Enabled;
      Books(Step(s, es[0]), es[1..]);
    }
  }

  lemma StepBooks(s: State, e: Event)
    requires Enabled(s, e)
    ensures var s' := Step(s, e);
            && s'.queued ==
               s.queued + (if e.Delivery? && !e.error then e.wellFormed else 0) - (if e.StartTask? then 1 else 0)
            && s'.running == s.running + (if e.StartTask? then 1 else 0) - (if e.FinishTask? then 1 else 0)
            && s'.ticks == s.ticks + (if e.FinishTask? then 1 else 0) - (if e.Tick? then 1 else 0)
  {
  }

  /**
    In every run the well-formed entries delivered are the tasks finished, running and queued,
    none lost or made up; and each task finished has led, or will lead, to one retry to consume.
   */
  lemma EntriesAreConserved(concurrency: nat, nominal: bool, es: seq<Event>)
    requires Run(Subscribed(concurrency, nominal), es)
    ensures var s := Exec(Subscribed(concurrency, nominal), es);
            && Delivered(es) == Finished(es) + s.running + s.queued
            && Started(es) == Finished(es) + s.running
            && Finished(es) == Ticked(es) + s.ticks
  {
    Books(Subscribed(concurrency, nominal), es);
    hide Exec, Run;
  }

  /** Timers are numbered as they are armed. */
  predicate Numbered(s: State) {
    forall t :: t in s.timers ==> t < s.nextTimer
  }

  lemma {:induction false} GoneTimer(s: State, es: seq<Event>, t: nat)
    requires Numbered(s) && Run(s, es) && t < s.nextTimer && t !in s.timers
    ensures forall i :: 0 <= i < |es| ==> !(es[i].TimerFires? && es[i].timer == t)
    decreases |es|
  {
    if es != [] {
      StepKeepsNumbers(s, es[0], t);
      GoneTimer(Step(s, es[0]), es[1..], t);
      forall i | 0 < i < |es| ensures !(es[i].TimerFires? && es[i].timer == t) {
        assert es[i] == es[1..][i - 1];
      }
    }
  }

  lemma StepKeepsNumbers(s: State, e: Event, t: nat)
    requires Numbered(s) && Enabled(s, e)
    ensures var s' := Step(s, e);
            && Numbered(s') && s.nextTimer <= s'.nextTimer
            && (t < s.nextTimer && (t !in s.timers || (e.TimerFires? && e.timer == t)) ==> t !in s'.timers)
  {
  }

  /** A retry timer fires at most once. */
  lemma {:induction false} TimersFireOnce(s: State, es: seq<Event>)
    requires Numbered(s) && Run(s, es)
    ensures forall i, j :: 0 <= i < j < |es| && es[i].TimerFires? && es[j].TimerFires? ==> es[i].timer != es[j].timer
    decreases |es|
  {
    if es != [] {
      var s', rest := Step(s, es[0]), es[1..];
      StepKeepsNumbers(s, es[0], if es[0].TimerFires? then es[0].timer else 0);
      TimersFireOnce(s', rest);
      if es[0].TimerFires? {
        GoneTimer(s', rest, es[0].timer);
      }
      forall i, j | 0 <= i < j < |es| && es[i].TimerFires? && es[j].TimerFires? ensures es[i].timer != es[j].timer {
        assert es[j] == rest[j - 1];
        if i > 0 {
          assert es[i] == rest[i - 1];
        }
      }
    }
  }

  lemma FirstRequest(concurrency: nat)
    requires concurrency >= 1
    ensures Subscribed(concurrency, true) == State(concurrency, 0, 0, concurrency, [concurrency], {}, None, 0, 0)
  {
    assert [] + [concurrency] == [concurrency];
  }

  /** The stall exists: a consumer whose first request is answered in full by malformed entries. */
  lemma MalformedDeliveryStalls(concurrency: nat)
    requires concurrency >= 1
    ensures var s := Subscribed(concurrency, true); var e := Delivery(0, false, concurrency, 0);
            Enabled(s, e) && !Alive(Step(s, e))
  {
    FirstRequest(concurrency);
    SubscribedHolds(concurrency, true);
    hide Subscribed, TryConsume, Step;
    DeliveryIsExact(Subscribed(concurrency, true), 0, false, concurrency, 0);
  }

  /** The consumer object: the counters and handles its handlers update. */
  class Consumer {
    const concurrency: nat
    var running: nat
    var queued: nat
    var pendingRequests: int
    var requests: seq<nat>
    var timers: set<nat>
    var handle: Option<nat>
    var nextTimer: nat
    var ticks: nat

    ghost function View(): State
      reads this
    {
      State(concurrency, running, queued, pendingRequests, requests, timers, handle, nextTimer, ticks)
    }

    constructor (concurrency: nat)
      ensures View() == State(concurrency, 0, 0, 0, [], {}, None, 0, 0)
    {
      this.concurrency := concurrency;
      running, queued, pendingRequests, requests := 0, 0, 0, [];
      timers, handle, nextTimer, ticks := {}, None, 0, 0;
    }

    method GetAvailableSlots() returns (n: nat)
      ensures n == AvailableSlots(View())
    {
      var slots := concurrency - running - queued - pendingRequests;
      n := if slots > 0 then slots else 0;
    }

    method ScheduleNext()
      modifies this
      ensures View() == ScheduleNextTryConsume(old(View()))
    {
      timers := timers + {nextTimer};
      handle := Some(nextTimer);
      nextTimer := nextTimer + 1;
    }

    method DoTryConsume(nominal: bool)
      modifies this
      ensures View() == TryConsume(old(View()), nominal)
      ensures running == old(running) && queued == old(queued) && ticks == old(ticks)
      ensures var kept := if old(handle).Some? then old(timers) - {old(handle).value} else old(timers);
              if nominal then timers == kept && handle == None && nextTimer == old(nextTimer)
              else timers == kept + {old(nextTimer)} && handle == Some(old(nextTimer))
                   && nextTimer == old(nextTimer) + 1
      ensures var free := concurrency - running - queued - old(pendingRequests);
              if nominal && free > 0
              then requests == old(requests) + [free] && pendingRequests == old(pendingRequests) + free
              else requests == old(requests) && pendingRequests == old(pendingRequests)
    {
      if handle.Some? {
        timers := timers - {handle.value};
        handle := None;
      }
      if !nominal {
        ScheduleNext();
        return;
      }
      var n := GetAvailableSlots();
      if n == 0 {
        return;
      }
      pendingRequests := pendingRequests + n;
      requests := requests + [n];
    }

    /** The callback of a consume call: an error, or entries of which some are well formed. */
    method OnConsumed(request: nat, error: bool, entries: seq<bool>)
      requires request < |requests| && (error ==> entries == []) && |entries| <= requests[request]
      modifies this
      ensures View() == Step(old(View()), Delivery(request, error, |entries|, Count(entries)))
      ensures running == old(running) && ticks == old(ticks) && (error ==> queued == old(queued))
      ensures !error ==> queued == old(queued) + Count(entries)
      ensures pendingRequests == old(pendingRequests) - old(requests[request])
      ensures requests == old(requests[..request] + requests[request + 1..])
      ensures if error || |entries| < old(requests[request])
              then timers == old(timers) + {old(nextTimer)} && handle == Some(old(nextTimer))
              else timers == old(timers) && handle == old(handle)
    {
      var asked := requests[request];
      pendingRequests := pendingRequests - asked;
      requests := requests[..request] + requests[request + 1..];
      label answered:
      if !error {
        for i := 0 to |entries|
          invariant View() == old@answered(View()).(queued := old(queued) + Count(entries[..i]))
        {
          assert entries[..i + 1][..i] == entries[..i];
          if entries[i] {
            queued := queued + 1;
          }
        }
        assert entries[..|entries|] == entries;
      }
      if error || |entries| < asked {
        ScheduleNext();
      }
    }

    method OnEntryProcessingDone()
      requires running > 0
      modifies this
      ensures View() == Step(old(View()), FinishTask)
      ensures running == old(running) - 1 && queued == old(queued) && ticks == old(ticks) + 1
      ensures requests == old(requests) && pendingRequests == old(pendingRequests) && timers == old(timers)
    {
      running := running - 1;
      ticks := ticks + 1;
    }
  }
}
