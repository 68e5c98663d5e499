/**
  Revocation of the partitions: the consumer waits for its processing queue to drain, or
  for a timer shortly before it would be evicted, then commits and un-assigns.

  Each revocation builds its own callback, which acts once. A revocation that comes while
  another one waits takes over the drain hook and the timer handle, but does not stop the
  timer of the first.
 */
module ConsumerRebalance {
  import opened Options
  import opened Flags

  datatype Status = IDLE | DRAINED | TIMEOUT

  /**
    Revocations are numbered: `called` tells whose callback has acted, and `armed` whose timer
    runs. `drainHook` and `handle` name the revocation of the queue's drain callback and of the
    timer that can be cleared. `publishing` counts the un-assignments that wait for offsets to
    be published. `reports` records, for each completed revocation, its status and the tasks
    then left.
   */
  datatype State = State(
    running: nat, queued: nat, publishOffsets: bool,
    called: seq<bool>, armed: seq<bool>, drainHook: Option<nat>, handle: Option<nat>,
    publishing: nat, commits: nat, unassigns: nat, disconnects: nat,
    reports: seq<(Status, nat)>)

  datatype Event =
    | Revoke
    | Consume(count: nat)
    | StartTask
    | FinishTask
    | TimerFires(revocation: nat)
    | OffsetsPublished

  function Init(publishOffsets: bool): State {
    State(0, 0, publishOffsets, [], [], None, None, 0, 0, 0, 0, [])
  }

  function Busy(s: State): nat {
    s.running + s.queued
  }

  /** Only the timer that can be cleared stops. */
  lemma DisarmIs(armed: seq<bool>, timer: Option<nat>, id: nat)
    requires id < |armed|
    ensures |Disarm(armed, timer)| == |armed| && Disarm(armed, timer)[id] == (armed[id] && timer != Some(id))
  {
  }

  function Disarm(armed: seq<bool>, timer: Option<nat>): seq<bool> {
    if timer.Some? && timer.value < |armed| then armed[timer.value := false] else armed
  }

  /**
    The callback of a revocation: reset the hook and the timer, commit, then un-assign now or when
    offsets are published.
   */
  function Unassign(s: State, id: nat, status: Status): State
    requires id < |s.called|
  {
    if s.called[id] then s
    else
      s.(called := s.called[id := true], drainHook := None, armed := Disarm(s.armed, s.handle), handle := None,
         commits := s.commits + 1, reports := s.reports + [(status, Busy(s))],
         publishing := if s.publishOffsets then s.publishing + 1 else s.publishing,
         unassigns := if s.publishOffsets then s.unassigns else s.unassigns + 1)
  }

  predicate Enabled(s: State, e: Event) {
    match e
    case Revoke => true
    case Consume(_) => true
    case StartTask => s.queued > 0
    case FinishTask => s.running > 0 && (s.drainHook.Some? ==> s.drainHook.value < |s.called|)
    case TimerFires(id) => id < |s.armed| == |s.called| && s.armed[id]
    case OffsetsPublished => s.publishing > 0
  }

  function Step(s: State, e: Event): State
    requires Enabled(s, e)
  {
    match e
    case Revoke =>
      var id := |s.called|;
      var s1 := s.(called := s.called + [false], armed := s.armed + [false]);
      if Busy(s) == 0 then Unassign(s1, id, IDLE)
      else s1.(drainHook := Some(id), armed := s.armed + [true], handle := Some(id))
    case Consume(n) => s.(queued := s.queued + n)
    case StartTask => s.(queued := s.queued - 1, running := s.running + 1)
    case FinishTask =>
      var s1 := s.(running := s.running - 1);
      if Busy(s1) == 0 && s1.drainHook.Some? then Unassign(s1, s1.drainHook.value, DRAINED) else s1
    case TimerFires(id) =>
      var s1 := Unassign(s.(armed := s.armed[id := false]), id, TIMEOUT);
      s1.(disconnects := s1.disconnects + 1)
    case OffsetsPublished => s.(publishing := s.publishing - 1, unassigns := s.unassigns + 1)
  }

  predicate Run(s: State, es: seq<Event>)
    decreases |es|
  {
    es == [] || (Enabled(s, es[0]) && Run(Step(s, es[0]), es[1..]))
  }

  function Exec(s: State, es: seq<Event>): State
    requires Run(s, es)
    decreases |es|
  {
    if es == [] then s else Exec(Step(s, es[0]), es[1..])
  }

  function Timeouts(reports: seq<(Status, nat)>): nat {
    if reports == [] then 0
    else Timeouts(reports[..|reports| - 1]) + (if reports[|reports| - 1].0 == TIMEOUT then 1 else 0)
  }

  // What every step keeps, whatever revocations overlap

  /**
    The counters tell how many callbacks acted; only the timer makes the consumer disconnect, and only
    a timeout leaves tasks.
   */
  predicate Accounts(s: State) {
    && s.commits == |s.reports| == Count(s.called)
    && s.unassigns == s.commits - s.publishing
    && s.disconnects == Timeouts(s.reports)
    && (forall i :: 0 <= i < |s.reports| && s.reports[i].0 != TIMEOUT ==> s.reports[i].1 == 0)
  }

  /** A timer runs only for a callback that has not acted, and so does the hook, with tasks left. */
  predicate Handlers(s: State) {
    && |s.armed| == |s.called| && s.handle == s.drainHook
    && (s.drainHook.Some? ==>
          s.drainHook.value < |s.called| && s.armed[s.drainHook.value] && !s.called[s.drainHook.value] && Busy(s) > 0)
    && (forall id :: 0 <= id < |s.called| && s.armed[id] ==> !s.called[id])
  }

  predicate Inv(s: State) {
    Accounts(s) && Handlers(s)
  }

  lemma ReportAdded(reports: seq<(Status, nat)>, status: Status, left: nat)
    ensures Timeouts(reports + [(status, left)]) == Timeouts(reports) + (if status == TIMEOUT then 1 else 0)
  {
    assert (reports + [(status, left)])[..|reports|] == reports;
  }

  lemma UnassignAccounts(s: State, id: nat, status: Status)
    requires Accounts(s) && id < |s.called| && !s.called[id] && (status == TIMEOUT || Busy(s) == 0)
    ensures var s' := Unassign(s, id, status);
            Accounts(if status == TIMEOUT then s'.(disconnects := s'.disconnects + 1) else s')
  {
    ReportAdded(s.reports, status, Busy(s));
    CountSet(s.called, id);
  }

  lemma StepKeepsAccounts(s: State, e: Event)
    requires Inv(s) && Enabled(s, e)
    ensures Accounts(Step(s, e))
  {
    match e
    case Revoke =>
      CountSnoc(s.called, false);
      var s1 := s.(called := s.called + [false], armed := s.armed + [false]);
      if Busy(s) == 0 {
        UnassignAccounts(s1, |s.called|, IDLE);
      }
    case FinishTask =>
      var s1 := s.(running := s.running - 1);
      if Busy(s1) == 0 && s1.drainHook.Some? {
        UnassignAccounts(s1, s1.drainHook.value, DRAINED);
      }
    case TimerFires(id) => UnassignAccounts(s.(armed := s.armed[id := false]), id, TIMEOUT);
    case Consume(_) =>
    case StartTask =>
    case OffsetsPublished =>
  }

  lemma StepKeepsHandlers(s: State, e: Event)
    requires Handlers(s) && Enabled(s, e)
    ensures Handlers(Step(s, e))
  {
  }

  lemma StepKeeps(s: State, e: Event)
    requires Inv(s) && Enabled(s, e)
    ensures Inv(Step(s, e))
  {
    StepKeepsAccounts(s, e);
    StepKeepsHandlers(s, e);
  }

  lemma {:induction false} RunKeeps(s: State, es: seq<Event>)
    requires Inv(s) && Run(s, es)
    ensures Inv(Exec(s, es))
    decreases |es|
  {
    if es != [] {
      StepKeeps(s, es[0]);
      RunKeeps(Step(s, es[0]), es[1..]);
    }
  }

  lemma InitHolds(publishOffsets: bool)
    ensures Inv(Init(publishOffsets)) && Alone(Init(publishOffsets)) && Init(publishOffsets).drainHook.None?
  {
  }

  /**
    In every run, overlapping revocations or not: commits are the revocations whose callback
    acted, each once; each is then un-assigned once; idle and drained are reported with no task
    left; and the consumer disconnects once for each timeout and never otherwise.
   */
  lemma RevocationsAccountedFor(publishOffsets: bool, es: seq<Event>)
    requires Run(Init(publishOffsets), es)
    ensures Accounts(Exec(Init(publishOffsets), es))
  {
    hide Init, Exec, Run, Step, Accounts, Handlers;
    InitHolds(publishOffsets);
    RunKeeps(Init(publishOffsets), es);
  }

  // The books of a run

  function Consumed(es: seq<Event>): nat {
    if es == [] then 0 else (if es[0].Consume? then es[0].count else 0) + Consumed(es[1..])
  }

  function Started(es: seq<Event>): nat {
    if es == [] then 0 else (if es[0].StartTask? then 1 else 0) + Started(es[1..])
  }

  function Finished(es: seq<Event>): nat {
    if es == [] then 0 else (if es[0].FinishTask? then 1 else 0) + Finished(es[1..])
  }

  function TimedOut(es: seq<Event>): nat {
    if es == [] then 0 else (if es[0].TimerFires? then 1 else 0) + TimedOut(es[1..])
  }

  function Published(es: seq<Event>): nat {
    if es == [] then 0 else (if es[0].OffsetsPublished? then 1 else 0) + Published(es[1..])
  }

  lemma StepBooks(s: State, e: Event)
    requires Enabled(s, e)
    ensures var s' := Step(s, e);
            && s'.queued == s.queued + (if e.Consume? then e.count else 0) - (if e.StartTask? then 1 else 0)
            && s'.running == s.running + (if e.StartTask? then 1 else 0) - (if e.FinishTask? then 1 else 0)
            && s'.disconnects == s.disconnects + (if e.TimerFires? then 1 else 0)
            && s'.publishOffsets == s.publishOffsets
            && (s.publishOffsets ==> s'.unassigns == s.unassigns + (if e.OffsetsPublished? then 1 else 0))
            && (!s.publishOffsets ==>
                  s'.publishing <= s.publishing && s'.unassigns - s.unassigns >= s'.commits - s.commits
                  && (s.publishing == 0 ==> s'.unassigns - s.unassigns == s'.commits - s.commits))
  {
    hide Disarm;
  }

  lemma {:induction false} Books(s: State, es: seq<Event>)
    requires Run(s, es)
    ensures var s' := Exec(s, es);
            && s'.queued == s.queued + Consumed(es) - Started(es)
            && s'.running == s.running + Started(es) - Finished(es)
            && s'.disconnects == s.disconnects + TimedOut(es)
            && (s.publishOffsets ==> s'.unassigns == s.unassigns + Published(es))
            && (!s.publishOffsets && s.publishing == 0 ==>
                  s'.publishing == 0 && s'.unassigns - s.unassigns == s'.commits - s.commits)
    decreases |es|
  {
    if es != [] {
      StepBooks(s, es[0]);
      hide Step, Enabled;
      Books(Step(s, es[0]), es[1..]);
    }
  }

  /**
    In every run: without offsets to publish, each commit is followed by its un-assignment at once,
    and with them each un-assignment is made by one publication; the tasks of the queue are the
    messages consumed and not finished; and each timer that fires disconnects once.
   */
  lemma UnassignsExactly(publishOffsets: bool, es: seq<Event>)
    requires Run(Init(publishOffsets), es)
    ensures var s := Exec(Init(publishOffsets), es);
            && (if publishOffsets then s.unassigns == Published(es)
                else s.publishing == 0 && s.unassigns == s.commits)
            && Busy(s) == Consumed(es) - Finished(es) && s.running == Started(es) - Finished(es)
            && s.disconnects == TimedOut(es)
  {
    Books(Init(publishOffsets), es);
    hide Exec, Run;
  }

  /** What an event reports: idle at a revocation without tasks, drained at the end of the last, else a timeout. */
  function Reported(s: State, e: Event): seq<(Status, nat)> {
    match e
    case Revoke => if Busy(s) == 0 then [(IDLE, 0)] else []
    case FinishTask => if Busy(s) == 1 && s.drainHook.Some? then [(DRAINED, 0)] else []
    case TimerFires(_) => [(TIMEOUT, Busy(s))]
    case _ => []
  }

  lemma ReportsAreExact(s: State, e: Event)
    requires Inv(s) && Enabled(s, e)
    ensures Step(s, e).reports == s.reports + Reported(s, e)
  {
    hide Count, Timeouts, Disarm;
  }

  // Revocations that do not overlap

  /** Every revocation has completed, except the one whose hook and timer are set. */
  predicate Alone(s: State) {
    && |s.armed| == |s.called|
    && (forall id :: 0 <= id < |s.called| && !s.called[id] ==> s.drainHook == Some(id))
    && Count(s.called) == |s.called| - (if s.drainHook.Some? then 1 else 0)
  }

  /** No revocation was forgotten: each has completed, or has a timer that will complete it. */
  predicate NoneForgotten(s: State) {
    |s.armed| == |s.called| && forall id :: 0 <= id < |s.called| ==> s.called[id] || s.armed[id]
  }

  /** The last revocation that had not completed does. */
  lemma LastCompletes(s: State, id: nat, status: Status)
    requires |s.armed| == |s.called| && id < |s.called| && !s.called[id] && Count(s.called) == |s.called| - 1
    requires forall j :: 0 <= j < |s.called| && j != id ==> s.called[j]
    ensures Alone(Unassign(s, id, status)) && Unassign(s, id, status).drainHook.None?
  {
    CountSet(s.called, id);
    hide Count;
  }

  lemma RevokeKeepsAlone(s: State)
    requires Handlers(s) && Alone(s) && s.drainHook.None?
    ensures Alone(Step(s, Revoke))
  {
    CountSnoc(s.called, false);
    var s1 := s.(called := s.called + [false], armed := s.armed + [false]);
    if Busy(s) == 0 {
      LastCompletes(s1, |s.called|, IDLE);
    }
    hide Count;
  }

  lemma DrainKeepsAlone(s: State)
    requires Handlers(s) && Alone(s) && Enabled(s, FinishTask)
    ensures Alone(Step(s, FinishTask))
  {
    var s1 := s.(running := s.running - 1);
    if Busy(s1) == 0 && s.drainHook.Some? {
      LastCompletes(s1, s.drainHook.value, DRAINED);
    }
    hide Count;
  }

  lemma TimerKeepsAlone(s: State, id: nat)
    requires Handlers(s) && Alone(s) && Enabled(s, TimerFires(id))
    ensures Alone(Step(s, TimerFires(id)))
  {
    LastCompletes(s.(armed := s.armed[id := false]), id, TIMEOUT);
    hide Count, Unassign;
  }

  lemma AloneStep(s: State, e: Event)
    requires Inv(s) && Alone(s) && Enabled(s, e) && (e.Revoke? ==> s.drainHook.None?)
    ensures Alone(Step(s, e))
  {
    if e.Revoke? {
      RevokeKeepsAlone(s);
    } else if e.FinishTask? {
      DrainKeepsAlone(s);
    } else if e.TimerFires? {
      TimerKeepsAlone(s, e.revocation);
    }
  }

  /** No revocation of the run comes while another one waits. */
  predicate OneAtATime(s: State, es: seq<Event>)
    requires Run(s, es)
    decreases |es|
  {
    es == [] || ((es[0].Revoke? ==> s.drainHook.None?) && OneAtATime(Step(s, es[0]), es[1..]))
  }

  lemma {:induction false} RunKeepsAlone(s: State, es: seq<Event>)
    requires Inv(s) && Alone(s) && Run(s, es) && OneAtATime(s, es)
    ensures Alone(Exec(s, es))
    decreases |es|
  {
    if es != [] {
      StepKeeps(s, es[0]);
      AloneStep(s, es[0]);
      RunKeepsAlone(Step(s, es[0]), es[1..]);
    }
  }

  /** When revocations come one at a time, each was committed once, except the one still waiting. */
  lemma RevocationsComplete(publishOffsets: bool, es: seq<Event>)
    requires Run(Init(publishOffsets), es) && OneAtATime(Init(publishOffsets), es)
    ensures var s := Exec(Init(publishOffsets), es); s.commits == |s.called| - (if s.drainHook.Some? then 1 else 0)
    ensures NoneForgotten(Exec(Init(publishOffsets), es))
  {
    hide *;
    InitHolds(publishOffsets);
    RunKeeps(Init(publishOffsets), es);
    RunKeepsAlone(Init(publishOffsets), es);
    AloneCommits(Exec(Init(publishOffsets), es));
  }

  lemma AloneCommits(s: State)
    requires Inv(s) && Alone(s)
    ensures s.commits == |s.called| - (if s.drainHook.Some? then 1 else 0) && NoneForgotten(s)
  {
  }

  /** The timer fires, or the last task ends. */
  predicate DrainsOrTimesOut(s: State, e: Event) {
    e.TimerFires? || (e.FinishTask? && Busy(s) == 1)
  }

  predicate Completes(s: State, s': State) {
    s'.commits == s.commits + 1 && s'.drainHook.None?
  }

  predicate StillWaits(s: State, s': State) {
    s'.commits == s.commits && s'.drainHook == s.drainHook && Busy(s') > 0
  }

  /** A waiting revocation completes at the drain or at the timer, whichever comes first, and at nothing else. */
  lemma CompletesExactlyOnDrainOrTimer(s: State, e: Event)
    requires Inv(s) && s.drainHook.Some? && Enabled(s, e) && !e.Revoke?
    ensures if DrainsOrTimesOut(s, e) then Completes(s, Step(s, e)) else StillWaits(s, Step(s, e))
  {
    hide Count, Timeouts;
  }

  /** At some point of the run the timer fires or the last task ends. */
  predicate EventuallyDrains(s: State, es: seq<Event>)
    requires Run(s, es)
    decreases |es|
  {
    es != [] && (DrainsOrTimesOut(s, es[0]) || EventuallyDrains(Step(s, es[0]), es[1..]))
  }

  lemma RestingStep(s: State, e: Event)
    requires Inv(s) && Alone(s) && s.drainHook.None? && Enabled(s, e) && !e.Revoke?
    ensures Step(s, e).commits == s.commits && Step(s, e).drainHook.None?
  {
    hide Count, Timeouts;
  }

  lemma {:induction false} RestsWithoutRevocation(s: State, es: seq<Event>)
    requires Inv(s) && Alone(s) && Run(s, es) && s.drainHook.None? && Revoke !in es
    ensures Exec(s, es).commits == s.commits && Exec(s, es).drainHook.None?
    decreases |es|
  {
    if es != [] {
      StepKeeps(s, es[0]);
      AloneStep(s, es[0]);
      RestingStep(s, es[0]);
      RestsWithoutRevocation(Step(s, es[0]), es[1..]);
    }
  }

  /**
    From a waiting revocation, over any tasks ending, messages consumed and timers until the
    next one: it is committed once if the queue drains or the timer fires, and else still waits.
   */
  lemma {:induction false} OneRevocation(s: State, es: seq<Event>)
    requires Inv(s) && Alone(s) && Run(s, es) && s.drainHook.Some? && Revoke !in es
    ensures Exec(s, es).commits == s.commits + (if EventuallyDrains(s, es) then 1 else 0)
    ensures Exec(s, es).drainHook.Some? <==> !EventuallyDrains(s, es)
    decreases |es|
  {
    if es != [] {
      StepKeeps(s, es[0]);
      AloneStep(s, es[0]);
      CompletesExactlyOnDrainOrTimer(s, es[0]);
      if DrainsOrTimesOut(s, es[0]) {
        RestsWithoutRevocation(Step(s, es[0]), es[1..]);
      } else {
        OneRevocation(Step(s, es[0]), es[1..]);
      }
    }
  }

  // Revocations that overlap

  /** Until the next revocation, none is ever forgotten. */
  ghost predicate NeverForgets(s: State) {
    forall es :: Run(s, es) && Revoke !in es ==> NoneForgotten(Exec(s, es))
  }

  lemma {:induction false} NoRevokeIsOneAtATime(s: State, es: seq<Event>)
    requires Run(s, es) && Revoke !in es
    ensures OneAtATime(s, es)
    decreases |es|
  {
    if es != [] {
      NoRevokeIsOneAtATime(Step(s, es[0]), es[1..]);
    }
  }

  lemma AloneNeverForgets(s: State)
    requires Inv(s) && Alone(s)
    ensures NeverForgets(s)
  {
    forall es | Run(s, es) && Revoke !in es ensures NoneForgotten(Exec(s, es)) {
      NoRevokeIsOneAtATime(s, es);
      RunKeeps(s, es);
      RunKeepsAlone(s, es);
      AloneCommits(Exec(s, es));
    }
  }

  /** The timer of the first revocation clears the handlers of the second. */
  lemma FirstTimerForgetsSecond(s: State)
    requires Inv(s) && s.drainHook.Some?
    ensures var s1 := Step(s, Revoke); var e := TimerFires(s.drainHook.value);
            Enabled(s1, e) && !NoneForgotten(Step(s1, e))
  {
    var s1, first := Step(s, Revoke), s.drainHook.value;
    assert s1.called == s.called + [false] && s1.armed == s.armed + [true] && s1.handle == Some(|s.called|);
    var s2 := Step(s1, TimerFires(first));
    assert !s2.called[|s.called|] && !s2.armed[|s.called|];
  }

  lemma RunOne(s: State, e: Event)
    requires Enabled(s, e)
    ensures Run(s, [e]) && Exec(s, [e]) == Step(s, e)
  {
    var es := [e];
    assert es[0] == e && es[1..] == [];
    assert Run(Step(s, e), []);
  }

  lemma OverlapForgets(s: State)
    requires Inv(s) && s.drainHook.Some?
    ensures !NeverForgets(Step(s, Revoke))
  {
    FirstTimerForgetsSecond(s);
    var s1, e := Step(s, Revoke), TimerFires(s.drainHook.value);
    RunOne(s1, e);
    hide NoneForgotten, Step, Run, Exec;
    assert Revoke !in [e];
  }

  /**
    A revocation that arrives is completed, drained or timed out, as all the earlier ones,
    whatever happens until the next, if and only if none was waiting when it arrived.
   */
  lemma RevokeIsSafeExactly(s: State)
    requires Inv(s) && Alone(s)
    ensures NeverForgets(Step(s, Revoke)) <==> s.drainHook.None?
  {
    if s.drainHook.None? {
      StepKeeps(s, Revoke);
      AloneStep(s, Revoke);
      AloneNeverForgets(Step(s, Revoke));
    } else {
      OverlapForgets(s);
    }
  }

  lemma OverlapAfter(s: State, n: nat)
    requires Inv(s) && Alone(s) && s.drainHook.None? && n >= 1
    ensures Run(s, [Consume(n), Revoke]) && !NeverForgets(Step(Exec(s, [Consume(n), Revoke]), Revoke))
  {
    var s1 := Step(s, Consume(n));
    var s2 := Step(s1, Revoke);
    StepKeeps(s, Consume(n));
    StepKeeps(s1, Revoke);
    assert s2.drainHook == Some(|s.called|);
    OverlapForgets(s2);
    RunOne(s1, Revoke);
    hide Inv, Alone, Step, NeverForgets;
    var es := [Consume(n), Revoke];
    assert es[0] == Consume(n) && es[1..] == [Revoke];
  }

  /** It happens: a consumer with tasks is asked to revoke, and then to revoke again. */
  lemma OverlapHappens(publishOffsets: bool, n: nat)
    requires n >= 1
    ensures var es := [Consume(n), Revoke];
            Run(Init(publishOffsets), es) && !NeverForgets(Step(Exec(Init(publishOffsets), es), Revoke))
  {
    hide *;
    InitHolds(publishOffsets);
    OverlapAfter(Init(publishOffsets), n);
  }

  /** The handlers of the revocation, as the object runs them. */
  class Rebalance {
    var running: nat
    var queued: nat
    const publishOffsets: bool
    var called: seq<bool>
    var armed: seq<bool>
    var drainHook: Option<nat>
    var handle: Option<nat>
    var publishing: nat
    var commits: nat
    var unassigns: nat
    var disconnects: nat
    var reports: seq<(Status, nat)>

    ghost function View(): State
      reads this
    {
      State(running, queued, publishOffsets, called, armed, drainHook, handle, publishing, commits, unassigns,
        disconnects, reports)
    }

    constructor (publishOffsets: bool)
      ensures View() == Init(publishOffsets)
    {
      this.publishOffsets := publishOffsets;
      running, queued, called, armed, drainHook, handle := 0, 0, [], [], None, None;
      publishing, commits, unassigns, disconnects, reports := 0, 0, 0, 0, [];
    }

    /** The drain hook is removed, and the timer that can be cleared is. */
    method ResetHandlers()
      modifies this`drainHook, this`armed, this`handle
      ensures drainHook == None && handle == None && armed == Disarm(old(armed), old(handle))
    {
      drainHook := None;
      if handle.Some? && handle.value < |armed| {
        armed := armed[handle.value := false];
      }
      handle := None;
    }

    /** The callback built at a revocation; it acts only the first time. */
    method DoUnassign(id: nat, status: Status)
      requires id < |called|
      modifies this
      ensures View() == Unassign(old(View()), id, status)
      ensures called == old(called)[id := true] && running == old(running) && queued == old(queued)
      ensures disconnects == old(disconnects)
      ensures old(called[id]) ==>
                && reports == old(reports) && commits == old(commits) && unassigns == old(unassigns)
                && publishing == old(publishing) && armed == old(armed)
                && drainHook == old(drainHook) && handle == old(handle)
      ensures !old(called[id]) ==>
                && reports == old(reports) + [(status, running + queued)] && commits == old(commits) + 1
                && unassigns == old(unassigns) + (if publishOffsets then 0 else 1)
                && publishing == old(publishing) + (if publishOffsets then 1 else 0)
                && drainHook == None && handle == None
                && armed == Disarm(old(armed), old(handle))
    {
      if called[id] {
        return;
      }
      called := called[id := true];
      reports := reports + [(status, running + queued)];
      ResetHandlers();
      hide Disarm;
      commits := commits + 1;
      if publishOffsets {
        publishing := publishing + 1;
      } else {
        unassigns := unassigns + 1;
      }
    }

    method OnRevoke()
      modifies this
      ensures View() == Step(old(View()), Revoke)
      ensures old(running + queued) == 0 ==>
                && commits == old(commits) + 1 && reports == old(reports) + [(IDLE, 0)]
                && called == old(called) + [true] && drainHook == None && handle == None
      ensures old(running + queued) > 0 ==>
                && commits == old(commits) && reports == old(reports) && called == old(called) + [false]
                && armed == old(armed) + [true] && drainHook == handle == Some(old(|called|))
    {
      var id := |called|;
      called := called + [false];
      if running + queued == 0 {
        armed := armed + [false];
        DoUnassign(id, IDLE);
        return;
      }
      drainHook := Some(id);
      armed := armed + [true];
      handle := Some(id);
    }

    /** The queue calls its drain hook when the last task ends. */
    method OnTaskEnd()
      requires Handlers(View()) && running > 0
      modifies this
      ensures View() == Step(old(View()), FinishTask)
      ensures running == old(running) - 1 && queued == old(queued) && disconnects == old(disconnects)
      ensures if running + queued == 0 && old(drainHook).Some?
              then reports == old(reports) + [(DRAINED, 0)] && commits == old(commits) + 1 && drainHook == None
              else reports == old(reports) && commits == old(commits) && drainHook == old(drainHook)
    {
      running := running - 1;
      if running + queued == 0 && drainHook.Some? {
        DoUnassign(drainHook.value, DRAINED);
      }
    }

    method OnTimer(id: nat)
      requires Handlers(View()) && id < |armed| && armed[id]
      modifies this
      ensures View() == Step(old(View()), TimerFires(id))
      ensures reports == old(reports) + [(TIMEOUT, running + queued)] && commits == old(commits) + 1
      ensures disconnects == old(disconnects) + 1 && running == old(running) && queued == old(queued)
    {
      armed := armed[id := false];
      DoUnassign(id, TIMEOUT);
      disconnects := disconnects + 1;
    }
  }
}
