/**
  `BackbeatTask.retry`: run an action again while it fails with a retryable error, until the
  retries are used up or the time is. An attempt may call back several times.
 */
module TaskRetry {
  import opened Options

  /** How an attempt calls back. */
  datatype Response = Ok | NotRetryable | Retryable

  /** Why a call of `done` was made: without error when finished, else with one. */
  datatype Reason = Finished | Refused | RetriesMaxedOut | TimeoutReached

  /**
    `runs` counts the runs of the action and `silent` those that have not called back yet;
    `delays` counts the retries scheduled and not run; `closings` counts the callbacks that
    ended in `done`, of which only the first calls it.
   */
  datatype State = State(
    maxRetries: Option<nat>, noTimeout: bool,
    nbRetries: nat, cbCalled: bool,
    runs: nat, silent: nat, delays: nat, callbacks: nat, closings: nat,
    dones: seq<Reason>)

  /** A callback is the first of its attempt, or another one of an attempt that already called back. */
  datatype Event =
    | Callback(first: bool, response: Response, timeUp: bool)
    | RetryTimer

  /** The bound in force: the argument of the call if it is not zero, else the task's own, if any. */
  function MaxRetries(args: nat, params: Option<nat>): Option<nat> {
    if args != 0 then Some(args) else params
  }

  function Init(maxRetries: Option<nat>, noTimeout: bool): State {
    State(maxRetries, noTimeout, 0, false, 1, 1, 0, 0, 0, [])
  }

  function DoneOnce(s: State, reason: Reason): State {
    var s1 := s.(closings := s.closings + 1);
    if s.cbCalled then s1 else s1.(cbCalled := true, dones := s1.dones + [reason])
  }

  function HandleRes(s: State, response: Response, timeUp: bool): State {
    match response
    case Ok => DoneOnce(s, Finished)
    case NotRetryable => DoneOnce(s, Refused)
    case Retryable =>
      var retriesMaxedOut := s.maxRetries.Some? && s.nbRetries >= s.maxRetries.value;
      var timeoutReached := !s.noTimeout && timeUp;
      if retriesMaxedOut || (timeoutReached && s.nbRetries > 0) then
        DoneOnce(s, if retriesMaxedOut then RetriesMaxedOut else TimeoutReached)
      else s.(nbRetries := s.nbRetries + 1, delays := s.delays + 1)
  }

  predicate Enabled(s: State, e: Event) {
    match e
    case Callback(first, _, _) => if first then s.silent > 0 else s.runs > s.silent
    case RetryTimer => s.delays > 0
  }

  function Received(s: State, first: bool): State
    requires first ==> s.silent > 0
  {
    s.(silent := if first then s.silent - 1 else s.silent, callbacks := s.callbacks + 1)
  }

  function Step(s: State, e: Event): State
    requires Enabled(s, e)
  {
    match e
    case Callback(first, response, timeUp) => HandleRes(Received(s, first), response, timeUp)
    case RetryTimer => s.(delays := s.delays - 1, runs := s.runs + 1, silent := s.silent + 1)
  }

  predicate Run(s: State, es: seq<Event>)
    decreases |es|
  {
    es == [] || (Enabled(s, es[0]) && Run(Step(s, es[0]), es[1..]))
  }

  function Exec(s: State, es: seq<Event>): State
    requires Run(s, es)
    decreases |es|
  {
    if es == [] then s else Exec(Step(s, es[0]), es[1..])
  }

  /** The invariant, with `handling` callbacks received and not dealt with. */
  predicate Balanced(s: State, handling: nat) {
    && s.runs + s.delays == s.nbRetries + 1
    && (s.maxRetries.Some? ==> s.nbRetries <= s.maxRetries.value)
    && s.callbacks == s.nbRetries + s.closings + handling
    && s.silent <= s.runs <= s.silent + s.callbacks
    && (s.cbCalled <==> s.closings > 0)
    && |s.dones| == (if s.cbCalled then 1 else 0)
    && (TimeoutReached in s.dones ==> s.nbRetries > 0)
  }

  /** Every callback either scheduled one retry or closed, so callbacks, retries and runs are tied. */
  predicate Inv(s: State) {
    Balanced(s, 0)
  }

  lemma HandleKeeps(s: State, response: Response, timeUp: bool)
    requires Balanced(s, 1)
    ensures Balanced(HandleRes(s, response, timeUp), 0) && HandleRes(s, response, timeUp).maxRetries == s.maxRetries
  {
  }

  lemma StepKeeps(s: State, e: Event)
    requires Inv(s) && Enabled(s, e)
    ensures Inv(Step(s, e)) && Step(s, e).maxRetries == s.maxRetries
  {
    if e.Callback? {
      HandleKeeps(Received(s, e.first), e.response, e.timeUp);
    }
  }

  lemma {:induction false} RunKeeps(s: State, es: seq<Event>)
    requires Inv(s) && Run(s, es)
    ensures Inv(Exec(s, es)) && Exec(s, es).maxRetries == s.maxRetries
    decreases |es|
  {
    if es != [] {
      StepKeeps(s, es[0]);
      RunKeeps(Step(s, es[0]), es[1..]);
    }
  }

  lemma InitHolds(maxRetries: Option<nat>, noTimeout: bool)
    ensures Inv(Init(maxRetries, noTimeout)) && SingleThread(Init(maxRetries, noTimeout))
  {
  }

  /** However attempts call back, the action runs at most `maxRetries + 1` times, and `done` is called at most once. */
  lemma RetryBound(maxRetries: nat, noTimeout: bool, es: seq<Event>)
    requires Run(Init(Some(maxRetries), noTimeout), es)
    ensures var s := Exec(Init(Some(maxRetries), noTimeout), es);
            s.runs + s.delays <= maxRetries + 1 && |s.dones| <= 1
  {
    InitHolds(Some(maxRetries), noTimeout);
    RunKeeps(Init(Some(maxRetries), noTimeout), es);
  }

  /**
    With or without a bound: once no retry is scheduled and every attempt called back, `done` was
    called exactly once.
   */
  lemma DoneExactlyOnce(maxRetries: Option<nat>, noTimeout: bool, es: seq<Event>)
    requires Run(Init(maxRetries, noTimeout), es)
    requires var s := Exec(Init(maxRetries, noTimeout), es);
             s.delays == 0 && s.silent == 0
    ensures |Exec(Init(maxRetries, noTimeout), es).dones| == 1
  {
    InitHolds(maxRetries, noTimeout);
    RunKeeps(Init(maxRetries, noTimeout), es);
  }

  /** Giving up for lack of time happens only after at least one retry. */
  lemma TimeoutOnlyAfterARetry(maxRetries: Option<nat>, noTimeout: bool, es: seq<Event>)
    requires Run(Init(maxRetries, noTimeout), es)
    ensures var s := Exec(Init(maxRetries, noTimeout), es);
            TimeoutReached in s.dones ==> s.nbRetries > 0
  {
    InitHolds(maxRetries, noTimeout);
    RunKeeps(Init(maxRetries, noTimeout), es);
  }

  /** The retries made so far are the bound. */
  predicate MaxedOut(s: State) {
    s.maxRetries.Some? && s.nbRetries >= s.maxRetries.value
  }

  /**
    Exactly when an event makes `done` be called: at the first callback that does not schedule a
    retry. And with what: by the response, and if it was retryable by the bound before the time.
   */
  lemma DoneTellsWhy(s: State, e: Event)
    requires Enabled(s, e)
    ensures var dones := Step(s, e).dones;
            if s.cbCalled || !e.Callback? || Schedules(s, e) then dones == s.dones
            else
              && dones == s.dones + [dones[|s.dones|]]
              && var reason := dones[|s.dones|];
              && (reason == Finished <==> e.response == Ok)
              && (reason == Refused <==> e.response == NotRetryable)
              && (reason == RetriesMaxedOut <==> e.response == Retryable && MaxedOut(s))
              && (reason == TimeoutReached <==>
                    e.response == Retryable && !MaxedOut(s) && !s.noTimeout && e.timeUp && s.nbRetries > 0)
  {
  }

  function Retried(es: seq<Event>): nat {
    if es == [] then 0 else (if es[0].RetryTimer? then 1 else 0) + Retried(es[1..])
  }

  function CalledBack(es: seq<Event>): nat {
    if es == [] then 0 else (if es[0].Callback? then 1 else 0) + CalledBack(es[1..])
  }

  function Scheduled(s: State, es: seq<Event>): nat
    requires Run(s, es)
    decreases |es|
  {
    if es == [] then 0 else (if Schedules(s, es[0]) then 1 else 0) + Scheduled(Step(s, es[0]), es[1..])
  }

  lemma StepBooks(s: State, e: Event)
    requires Enabled(s, e)
    ensures var s' := Step(s, e);
            && s'.runs == s.runs + (if e.RetryTimer? then 1 else 0)
            && s'.callbacks == s.callbacks + (if e.Callback? then 1 else 0)
            && s'.nbRetries == s.nbRetries + (if Schedules(s, e) then 1 else 0)
            && s'.delays == s.delays + (if Schedules(s, e) then 1 else 0) - (if e.RetryTimer? then 1 else 0)
            && s'.silent == s.silent + (if e.RetryTimer? then 1 else 0) - (if e.Callback? && e.first then 1 else 0)
  {
  }

  /** The action runs again for each retry that came due, and callbacks that schedule one are retries due or delayed. */
  lemma {:induction false} RunsAreRetries(s: State, es: seq<Event>)
    requires Run(s, es)
    ensures var s' := Exec(s, es);
            && s'.runs == s.runs + Retried(es) && s'.callbacks == s.callbacks + CalledBack(es)
            && s'.nbRetries == s.nbRetries + Scheduled(s, es)
            && s'.delays == s.delays + Scheduled(s, es) - Retried(es)
    decreases |es|
  {
    if es != [] {
      StepBooks(s, es[0]);
      hide Step, Enabled, Schedules;
      RunsAreRetries(Step(s, es[0]), es[1..]);
    }
  }

  // Runs of the action after `done`

  /** No attempt of the run calls back a second time. */
  predicate OnceEach(es: seq<Event>) {
    forall i :: 0 <= i < |es| ==> (es[i].Callback? ==> es[i].first)
  }

  /** One thing is outstanding or over: an attempt, a scheduled retry, or the whole call. */
  predicate SingleThread(s: State) {
    s.silent + s.delays + s.closings == 1
  }

  lemma StepKeepsSingleThread(s: State, e: Event)
    requires SingleThread(s) && Enabled(s, e) && (e.Callback? ==> e.first)
    ensures SingleThread(Step(s, e))
  {
  }

  lemma {:induction false} RunKeepsSingleThread(s: State, es: seq<Event>)
    requires SingleThread(s) && Run(s, es) && OnceEach(es)
    ensures SingleThread(Exec(s, es))
    decreases |es|
  {
    if es != [] {
      StepKeepsSingleThread(s, es[0]);
      RunKeepsSingleThread(Step(s, es[0]), es[1..]);
    }
  }

  lemma DoneIsOver(s: State, es: seq<Event>, more: seq<Event>)
    requires Inv(s) && SingleThread(s) && Run(s, es) && OnceEach(es) && Exec(s, es).cbCalled
    requires Run(Exec(s, es), more) && OnceEach(more)
    ensures Exec(s, es).silent == 0 && Exec(s, es).delays == 0 && more == []
  {
    RunKeeps(s, es);
    RunKeepsSingleThread(s, es);
  }

  /**
    When every attempt calls back at most once, `done` is the end: nothing is outstanding, and nothing
    more can happen.
   */
  lemma NothingAfterDone(maxRetries: Option<nat>, noTimeout: bool, es: seq<Event>, more: seq<Event>)
    requires Run(Init(maxRetries, noTimeout), es) && OnceEach(es) && Exec(Init(maxRetries, noTimeout), es).cbCalled
    requires Run(Exec(Init(maxRetries, noTimeout), es), more) && OnceEach(more)
    ensures var s := Exec(Init(maxRetries, noTimeout), es); s.silent == 0 && s.delays == 0
    ensures more == []
  {
    hide *;
    InitHolds(maxRetries, noTimeout);
    DoneIsOver(Init(maxRetries, noTimeout), es, more);
  }

  /** The callback schedules a retry: its error is retryable, and there are retries and time left. */
  predicate Schedules(s: State, e: Event) {
    && e.Callback? && e.response == Retryable
    && (s.maxRetries.Some? ==> s.nbRetries < s.maxRetries.value)
    && (s.noTimeout || !e.timeUp || s.nbRetries == 0)
  }

  predicate SomeSchedules(s: State, es: seq<Event>)
    requires Run(s, es)
    decreases |es|
  {
    es != [] && (Schedules(s, es[0]) || SomeSchedules(Step(s, es[0]), es[1..]))
  }

  /** Runs made and retries scheduled only grow, and grow exactly when a callback schedules one. */
  lemma {:induction false} RunsGrowExactly(s: State, es: seq<Event>)
    requires Run(s, es)
    ensures s.runs + s.delays <= Exec(s, es).runs + Exec(s, es).delays
    ensures s.runs + s.delays < Exec(s, es).runs + Exec(s, es).delays <==> SomeSchedules(s, es)
    decreases |es|
  {
    if es != [] {
      RunsGrowExactly(Step(s, es[0]), es[1..]);
    }
  }

  /**
    What follows `done`, or any other point: once no retry is left scheduled, the action was
    run again exactly when one was scheduled then, or a later callback scheduled one.
   */
  lemma RunsAgainExactly(s: State, more: seq<Event>)
    requires Run(s, more) && Exec(s, more).delays == 0
    ensures Exec(s, more).runs > s.runs <==> s.delays > 0 || SomeSchedules(s, more)
  {
    RunsGrowExactly(s, more);
  }

  /** Some continuation runs the action again. */
  ghost predicate CanRunAgain(s: State) {
    exists more :: Run(s, more) && Exec(s, more).runs > s.runs
  }

  lemma RetryIsEnough(s: State)
    requires s.delays > 0
    ensures CanRunAgain(s)
  {
    RunFirst(s, RetryTimer, []);
  }

  lemma SchedulingIsEnough(s: State)
    requires Inv(s) && (s.maxRetries.Some? ==> s.nbRetries < s.maxRetries.value)
    ensures CanRunAgain(s)
  {
    if s.delays > 0 {
      RetryIsEnough(s);
    } else {
      var e := Callback(s.silent > 0, Retryable, false);
      RunFirst(Step(s, e), RetryTimer, []);
      RunFirst(s, e, [RetryTimer] + []);
    }
  }

  lemma NoRetryLeft(s: State, more: seq<Event>)
    requires Inv(s) && s.delays == 0 && s.maxRetries == Some(s.nbRetries) && Run(s, more)
    ensures Exec(s, more).runs <= s.runs
  {
    RunKeeps(s, more);
  }

  predicate HasRetry(s: State) {
    s.delays > 0 || s.maxRetries.None? || s.nbRetries < s.maxRetries.value
  }

  lemma CanRunAgainExactly(s: State)
    requires Inv(s)
    ensures CanRunAgain(s) <==> HasRetry(s)
  {
    if s.delays > 0 {
      RetryIsEnough(s);
    } else if HasRetry(s) {
      SchedulingIsEnough(s);
    } else {
      forall more | Run(s, more) ensures Exec(s, more).runs <= s.runs {
        NoRetryLeft(s, more);
      }
    }
  }

  /** After `done` the action can run again exactly when a retry is scheduled already or some are left. */
  lemma CanRunAfterDoneExactly(maxRetries: Option<nat>, noTimeout: bool, es: seq<Event>)
    requires Run(Init(maxRetries, noTimeout), es) && Exec(Init(maxRetries, noTimeout), es).cbCalled
    ensures CanRunAgain(Exec(Init(maxRetries, noTimeout), es)) <==> HasRetry(Exec(Init(maxRetries, noTimeout), es))
  {
    hide *;
    InitHolds(maxRetries, noTimeout);
    RunKeeps(Init(maxRetries, noTimeout), es);
    CanRunAgainExactly(Exec(Init(maxRetries, noTimeout), es));
  }

  lemma RunThree(s: State, e1: Event, e2: Event, e3: Event)
    requires Enabled(s, e1) && Enabled(Step(s, e1), e2) && Enabled(Step(Step(s, e1), e2), e3)
    ensures Run(s, [e1, e2, e3]) && Exec(s, [e1, e2, e3]) == Step(Step(Step(s, e1), e2), e3)
  {
    var s1, s2 := Step(s, e1), Step(Step(s, e1), e2);
    RunFirst(s2, e3, []);
    RunFirst(s1, e2, [e3]);
    RunFirst(s, e1, [e2, e3]);
    assert [e3] + [] == [e3] && [e2] + [e3] == [e2, e3] && [e1] + [e2, e3] == [e1, e2, e3];
  }

  lemma RunFirst(s: State, e: Event, es: seq<Event>)
    requires Enabled(s, e) && Run(Step(s, e), es)
    ensures Run(s, [e] + es) && Exec(s, [e] + es) == Exec(Step(s, e), es)
  {
    assert ([e] + es)[1..] == es;
  }

  /** One way: `done` is called, and a second callback fails and schedules a retry. */
  lemma FailureAfterDoneRunsAgain(maxRetries: Option<nat>, noTimeout: bool, timeUp: bool)
    requires maxRetries != Some(0)
    ensures var s := Init(maxRetries, noTimeout);
            var e1, e2 := Callback(true, Ok, timeUp), Callback(false, Retryable, timeUp);
            && Run(s, [e1, e2, RetryTimer])
            && |Step(s, e1).dones| == 1 && Step(s, e1).runs == 1
            && Exec(s, [e1, e2, RetryTimer]).runs == 2
  {
    var s, e1, e2 := Init(maxRetries, noTimeout), Callback(true, Ok, timeUp), Callback(false, Retryable, timeUp);
    var s1 := State(maxRetries, noTimeout, 0, true, 1, 0, 0, 1, 1, [Finished]);
    assert Step(s, e1) == s1;
    var s2 := s1.(nbRetries := 1, delays := 1, callbacks := 2);
    assert Step(s1, e2) == s2;
    RunThree(s, e1, e2, RetryTimer);
  }

  /** The other: the retry is scheduled first, and a second callback calls `done` before it runs. */
  lemma DoneBeforeRetryRunsAgain(maxRetries: Option<nat>, noTimeout: bool, timeUp: bool)
    requires maxRetries != Some(0)
    ensures var s := Init(maxRetries, noTimeout);
            var e1, e2 := Callback(true, Retryable, timeUp), Callback(false, Ok, timeUp);
            && Run(s, [e1, e2, RetryTimer])
            && |Step(Step(s, e1), e2).dones| == 1 && Step(Step(s, e1), e2).runs == 1
            && Exec(s, [e1, e2, RetryTimer]).runs == 2
  {
    var s, e1, e2 := Init(maxRetries, noTimeout), Callback(true, Retryable, timeUp), Callback(false, Ok, timeUp);
    var s1 := State(maxRetries, noTimeout, 1, false, 1, 0, 1, 1, 0, []);
    assert Step(s, e1) == s1;
    var s2 := s1.(cbCalled := true, callbacks := 2, closings := 1, dones := [Finished]);
    assert Step(s1, e2) == s2;
    RunThree(s, e1, e2, RetryTimer);
  }

  /** The variables of one call and the closures that change them. */
  class Retry {
    const maxRetries: Option<nat>
    const noTimeout: bool
    var nbRetries: nat
    var cbCalled: bool
    var runs: nat
    ghost var silent: nat
    var delays: nat
    ghost var callbacks: nat
    ghost var closings: nat
    var dones: seq<Reason>

    ghost function View(): State
      reads this
    {
      State(maxRetries, noTimeout, nbRetries, cbCalled, runs, silent, delays, callbacks, closings, dones)
    }

    constructor (args: nat, params: Option<nat>, noTimeout: bool)
      ensures View() == Init(MaxRetries(args, params), noTimeout)
      ensures maxRetries == (if args > 0 then Some(args) else params) && this.noTimeout == noTimeout
      ensures nbRetries == 0 && runs == 1 && delays == 0 && dones == [] && !cbCalled
    {
      maxRetries := if args != 0 then Some(args) else params;
      this.noTimeout := noTimeout;
      nbRetries, cbCalled, runs, silent, delays, callbacks, closings, dones := 0, false, 1, 1, 0, 0, 0, [];
    }

    method CallDoneOnce(reason: Reason)
      modifies this
      ensures View() == DoneOnce(old(View()), reason)
    {
      closings := closings + 1;
      if !cbCalled {
        cbCalled := true;
        dones := dones + [reason];
      }
    }

    method Handle(response: Response, timeUp: bool)
      modifies this
      ensures View() == HandleRes(old(View()), response, timeUp)
      ensures old(cbCalled) ==> dones == old(dones) && cbCalled
      ensures !old(cbCalled) && response == Ok ==> dones == old(dones) + [Finished] && cbCalled
      ensures !old(cbCalled) && response == NotRetryable ==> dones == old(dones) + [Refused] && cbCalled
      ensures response != Retryable ==> nbRetries == old(nbRetries) && delays == old(delays)
      ensures response == Retryable ==>
                var n := old(nbRetries);
                if maxRetries.Some? && n >= maxRetries.value
                then nbRetries == n && delays == old(delays)
                     && (!old(cbCalled) ==> dones == old(dones) + [RetriesMaxedOut])
                else if timeUp && !noTimeout && n > 0
                then nbRetries == n && delays == old(delays)
                     && (!old(cbCalled) ==> dones == old(dones) + [TimeoutReached])
                else nbRetries == n + 1 && delays == old(delays) + 1
                     && dones == old(dones) && cbCalled == old(cbCalled)
    {
      if response != Ok {
        if response == NotRetryable {
          CallDoneOnce(Refused);
          return;
        }
        var retriesMaxedOut := maxRetries.Some? && nbRetries >= maxRetries.value;
        var timeoutReached := !noTimeout && timeUp;
        if retriesMaxedOut || (timeoutReached && nbRetries > 0) {
          CallDoneOnce(if retriesMaxedOut then RetriesMaxedOut else TimeoutReached);
          return;
        }
        nbRetries := nbRetries + 1;
        delays := delays + 1;
        return;
      }
      CallDoneOnce(Finished);
    }

    method OnCallback(ghost first: bool, response: Response, timeUp: bool)
      requires Enabled(View(), Callback(first, response, timeUp))
      modifies this
      ensures View() == Step(old(View()), Callback(first, response, timeUp))
    {
      silent, callbacks := if first then silent - 1 else silent, callbacks + 1;
      assert View() == Received(old(View()), first);
      Handle(response, timeUp);
    }
  }
}
