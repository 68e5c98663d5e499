/**
  `mapLimitWaitPendingIfError`: a map over a collection with a bounded number of calls in
  flight which, on an error, starts nothing more but waits for the calls in flight.

  The iteratee may call back at once or later, and its calls may end in any order; while the
  starting loop is on the stack, callbacks and loop turns alternate in any way.
 */
module BoundedMap {
  import opened Options
  import opened Naturals
  import opened Flags

  type Result = string
  type Error = string

  /**
    `starts` lists the indices given to the iteratee, in order, and `inFlight` tells which of
    these calls have not called back. `errors` are the errors received in order of arrival, and
    `firings` the errors the final callback was called with.
   */
  datatype State = State(
    length: nat, limit: nat, looping: bool,
    nextIdx: nat, nPending: int, results: seq<Option<Result>>, pendingError: Option<Error>,
    starts: seq<nat>, inFlight: seq<bool>, errors: seq<Error>,
    firings: seq<Option<Error>>)

  datatype Event =
    | LoopTurn
    | Callback(call: nat, err: Option<Error>, res: Result)

  function Init(length: nat, limit: nat): State {
    State(length, limit, length > 0, 0, 0, seq(length, _ => None), None, [], [], [], if length == 0 then [None] else [])
  }

  function ProcessNext(s: State): State {
    s.(nextIdx := s.nextIdx + 1, nPending := s.nPending + 1,
       starts := s.starts + [s.nextIdx], inFlight := s.inFlight + [true])
  }

  function Fire(s: State): State {
    if s.nPending == 0 then s.(firings := s.firings + [s.pendingError]) else s
  }

  predicate Enabled(s: State, e: Event) {
    match e
    case LoopTurn => s.looping
    case Callback(call, _, _) =>
      call < |s.inFlight| == |s.starts| && s.inFlight[call] && s.starts[call] < |s.results|
  }

  /** A call has called back, and its result is recorded under its index. */
  function Ended(s: State, call: nat, res: Result): State
    requires call < |s.inFlight| == |s.starts| && s.starts[call] < |s.results|
  {
    s.(nPending := s.nPending - 1, results := s.results[s.starts[call] := Some(res)],
       inFlight := s.inFlight[call := false])
  }

  function Step(s: State, e: Event): State
    requires Enabled(s, e)
  {
    match e
    case LoopTurn =>
      if s.nextIdx < Min(s.length, s.limit) then ProcessNext(s) else s.(looping := false)
    case Callback(call, err, res) =>
      var s1 := Ended(s, call, res);
      if err.Some? then
        Fire(s1.(nextIdx := s1.length,
                 pendingError := if s1.pendingError.None? then err else s1.pendingError,
                 errors := s1.errors + [err.value]))
      else if s1.nextIdx < s1.length then ProcessNext(s1)
      else Fire(s1)
  }

  predicate Run(s: State, es: seq<Event>)
    decreases |es|
  {
    es == [] || (Enabled(s, es[0]) && Run(Step(s, es[0]), es[1..]))
  }

  function Exec(s: State, es: seq<Event>): State
    requires Run(s, es)
    decreases |es|
  {
    if es == [] then s else Exec(Step(s, es[0]), es[1..])
  }

  /** The call is over: nothing is left on the stack or in flight. */
  predicate Quiescent(s: State) {
    !s.looping && forall i :: 0 <= i < |s.inFlight| ==> !s.inFlight[i]
  }

  /**
    The calls made: at most `limit` in flight, started in order and each index at most once,
    and a result recorded under its own index for exactly the ones that ended.
   */
  predicate CallsInOrder(length: nat, limit: nat, starts: seq<nat>, inFlight: seq<bool>, results: seq<Option<Result>>) {
    && Count(inFlight) <= limit
    && |starts| == |inFlight| <= length && |results| == length
    && (forall i :: 0 <= i < |starts| ==> starts[i] == i)
    && (forall i :: 0 <= i < length ==> (results[i].Some? <==> i < |inFlight| && !inFlight[i]))
  }

  /** The promises of the function, in any state of any run. */
  predicate Promises(s: State) {
    && CallsInOrder(s.length, s.limit, s.starts, s.inFlight, s.results)
    // the callback fires at most once, when nothing is pending, with the first error
    && |s.firings| <= 1
    && (s.firings != [] ==>
          && Count(s.inFlight) == 0
          && s.firings[0] == (if s.errors == [] then None else Some(s.errors[0]))
          && (s.errors == [] ==> |s.starts| == s.length))
  }

  predicate Inv(s: State) {
    && Promises(s)
    && s.nPending == Count(s.inFlight)
    && s.pendingError == (if s.errors == [] then None else Some(s.errors[0]))
    && s.nextIdx == (if s.errors == [] then |s.starts| else s.length)
    && (s.firings != [] <==> s.nPending == 0 && s.nextIdx == s.length)
    && (s.nPending == 0 && s.nextIdx < s.length ==> s.starts == [] && (s.looping || s.limit == 0))
  }

  lemma NextInOrder(length: nat, limit: nat, starts: seq<nat>, inFlight: seq<bool>, results: seq<Option<Result>>)
    requires CallsInOrder(length, limit, starts, inFlight, results)
    requires |starts| < length && Count(inFlight) < limit
    ensures CallsInOrder(length, limit, starts + [|starts|], inFlight + [true], results)
    ensures Count(inFlight + [true]) == Count(inFlight) + 1
  {
    CountSnoc(inFlight, true);
  }

  lemma EndInOrder(length: nat, limit: nat, starts: seq<nat>, inFlight: seq<bool>, results: seq<Option<Result>>,
      call: nat, res: Result)
    requires CallsInOrder(length, limit, starts, inFlight, results) && call < |inFlight| && inFlight[call]
    ensures CallsInOrder(length, limit, starts, inFlight[call := false], results[starts[call] := Some(res)])
    ensures Count(inFlight[call := false]) == Count(inFlight) - 1
  {
    CountCleared(inFlight, call);
  }

  lemma LoopTurnKeeps(s: State)
    requires Inv(s) && s.looping
    ensures Inv(Step(s, LoopTurn))
  {
    assert |s.starts| == |s.inFlight|;
    if s.nextIdx < Min(s.length, s.limit) {
      NextInOrder(s.length, s.limit, s.starts, s.inFlight, s.results);
    }
    hide CallsInOrder, Count;
  }

  lemma ErrorKeeps(s: State, call: nat, err: Error, res: Result)
    requires Inv(s) && Enabled(s, Callback(call, Some(err), res))
    ensures Inv(Step(s, Callback(call, Some(err), res)))
  {
    EndInOrder(s.length, s.limit, s.starts, s.inFlight, s.results, call, res);
    CountSome(s.inFlight, call);
    hide CallsInOrder, Count;
  }

  lemma SuccessKeeps(s: State, call: nat, res: Result)
    requires Inv(s) && Enabled(s, Callback(call, None, res))
    ensures Inv(Step(s, Callback(call, None, res)))
  {
    EndInOrder(s.length, s.limit, s.starts, s.inFlight, s.results, call, res);
    CountSome(s.inFlight, call);
    var s1 := Ended(s, call, res);
    assert |s.starts| == |s.inFlight| <= s.length && Count(s.inFlight) <= s.limit;
    if s1.nextIdx < s1.length {
      NextInOrder(s1.length, s1.limit, s1.starts, s1.inFlight, s1.results);
    }
    hide CallsInOrder, Count;
  }

  lemma StepKeeps(s: State, e: Event)
    requires Inv(s) && Enabled(s, e)
    ensures Inv(Step(s, e)) && Step(s, e).length == s.length && Step(s, e).limit == s.limit
  {
    if e.LoopTurn? {
      LoopTurnKeeps(s);
    } else if e.err.Some? {
      ErrorKeeps(s, e.call, e.err.value, e.res);
    } else {
      SuccessKeeps(s, e.call, e.res);
    }
  }

  lemma {:induction false} RunKeeps(s: State, es: seq<Event>)
    requires Inv(s) && Run(s, es)
    ensures Inv(Exec(s, es))
    ensures Exec(s, es).length == s.length && Exec(s, es).limit == s.limit
    decreases |es|
  {
    if es != [] {
      StepKeeps(s, es[0]);
      RunKeeps(Step(s, es[0]), es[1..]);
    }
  }

  /** Every state of every run keeps the promises, and a finished run has fired exactly once. */
  lemma MapKeepsItsPromises(length: nat, limit: nat, es: seq<Event>)
    requires limit >= 1 && Run(Init(length, limit), es)
    ensures Promises(Exec(Init(length, limit), es))
    ensures Quiescent(Exec(Init(length, limit), es)) ==> |Exec(Init(length, limit), es).firings| == 1
  {
    RunKeeps(Init(length, limit), es);
    var s := Exec(Init(length, limit), es);
    if Quiescent(s) {
      CountNone(s.inFlight);
    }
  }

  lemma StartsNothing(s: State, e: Event)
    requires Inv(s) && Enabled(s, e) && (s.errors != [] || s.firings != [])
    ensures Step(s, e).starts == s.starts && (Step(s, e).errors != [] || Step(s, e).firings != [])
  {
    if e.Callback? {
      CountSome(s.inFlight, e.call);
    }
  }

  lemma {:induction false} RunStartsNothing(s: State, es: seq<Event>)
    requires Inv(s) && Run(s, es) && (s.errors != [] || s.firings != [])
    ensures Exec(s, es).starts == s.starts
    decreases |es|
  {
    if es != [] {
      StepKeeps(s, es[0]);
      StartsNothing(s, es[0]);
      RunStartsNothing(Step(s, es[0]), es[1..]);
    }
  }

  /** Nothing is ever started once an error was received, or once the callback fired. */
  lemma NothingStartsAfterAnError(length: nat, limit: nat, pre: seq<Event>, es: seq<Event>)
    requires Run(Init(length, limit), pre)
    requires var s := Exec(Init(length, limit), pre); Run(s, es) && (s.errors != [] || s.firings != [])
    ensures var s := Exec(Init(length, limit), pre); Exec(s, es).starts == s.starts
  {
    RunKeeps(Init(length, limit), pre);
    RunStartsNothing(Exec(Init(length, limit), pre), es);
  }

  /** A result once recorded is never changed. */
  lemma {:induction false} ResultIsKept(s: State, i: nat, es: seq<Event>)
    requires Inv(s) && i < s.length && s.results[i].Some? && Run(s, es)
    ensures i < |Exec(s, es).results| && Exec(s, es).results[i] == s.results[i]
    decreases |es|
  {
    if es != [] {
      StepKeeps(s, es[0]);
      StepKeepsResult(s, es[0], i);
      ResultIsKept(Step(s, es[0]), i, es[1..]);
    }
  }

  lemma StepKeepsResult(s: State, e: Event, i: nat)
    requires Inv(s) && Enabled(s, e) && i < s.length && s.results[i].Some?
    ensures Step(s, e).results[i] == s.results[i]
  {
  }

  lemma InitHolds(length: nat, limit: nat)
    ensures Inv(Init(length, limit))
  {
  }

  lemma EndedIsRecorded(s: State, e: Event, es: seq<Event>)
    requires Inv(s) && e.Callback? && Enabled(s, e) && Run(Step(s, e), es)
    ensures var s' := Exec(Step(s, e), es);
            s.starts[e.call] < |s'.results| && s'.results[s.starts[e.call]] == Some(e.res)
  {
    StepKeeps(s, e);
    ResultIsKept(Step(s, e), s.starts[e.call], es);
  }

  /** The result a call ends with stays recorded under the index the call was made for. */
  lemma OwnResultIsRecorded(length: nat, limit: nat, pre: seq<Event>, e: Event, es: seq<Event>)
    requires Run(Init(length, limit), pre)
    requires var s := Exec(Init(length, limit), pre); e.Callback? && Enabled(s, e) && Run(Step(s, e), es)
    ensures var s := Exec(Init(length, limit), pre); var s' := Exec(Step(s, e), es);
            s.starts[e.call] < |s'.results| && s'.results[s.starts[e.call]] == Some(e.res)
  {
    InitHolds(length, limit);
    RunKeeps(Init(length, limit), pre);
    hide Init, Exec, Run;
    EndedIsRecorded(Exec(Init(length, limit), pre), e, es);
  }

  function ErrorIn(e: Event): seq<Error> {
    if e.Callback? && e.err.Some? then [e.err.value] else []
  }

  /** The errors that the callbacks of a run bring, in order. */
  function ErrorsOf(es: seq<Event>): seq<Error> {
    if es == [] then [] else ErrorIn(es[0]) + ErrorsOf(es[1..])
  }

  lemma {:induction false} ErrorsAreReceived(s: State, es: seq<Event>)
    requires Run(s, es)
    ensures Exec(s, es).errors == s.errors + ErrorsOf(es)
    decreases |es|
  {
    if es != [] {
      StepReceives(s, es[0]);
      hide Step, Enabled, ErrorIn;
      ErrorsAreReceived(Step(s, es[0]), es[1..]);
    }
  }

  lemma StepReceives(s: State, e: Event)
    requires Enabled(s, e)
    ensures Step(s, e).errors == s.errors + ErrorIn(e)
  {
  }

  /** In every run the callback has fired with the first error that came, and without one only if none did. */
  lemma FiresWithFirstError(length: nat, limit: nat, es: seq<Event>)
    requires Run(Init(length, limit), es) && Exec(Init(length, limit), es).firings != []
    ensures Exec(Init(length, limit), es).firings == [if ErrorsOf(es) == [] then None else Some(ErrorsOf(es)[0])]
  {
    InitHolds(length, limit);
    RunKeeps(Init(length, limit), es);
    ErrorsAreReceived(Init(length, limit), es);
    hide Exec, Run;
  }

  /** Once the starting loop is over, and no error came, the first calls up to the limit were made. */
  lemma LoopFillsTheLimit(length: nat, limit: nat, es: seq<Event>)
    requires Run(Init(length, limit), es)
    ensures var s := Exec(Init(length, limit), es);
            !s.looping && ErrorsOf(es) == [] ==> |s.starts| >= Min(length, limit)
  {
    hide *;
    InitHolds(length, limit);
    RunKeeps(Init(length, limit), es);
    ErrorsAreReceived(Init(length, limit), es);
    InitFills(length, limit);
    RunFills(Init(length, limit), es);
    FilledIs(Exec(Init(length, limit), es));
  }

  predicate Filled(s: State) {
    !s.looping ==> s.nextIdx >= Min(s.length, s.limit)
  }

  lemma InitFills(length: nat, limit: nat)
    ensures var s := Init(length, limit); Filled(s) && s.errors == [] && s.length == length && s.limit == limit
  {
  }

  lemma FilledIs(s: State)
    requires Inv(s) && Filled(s)
    ensures !s.looping && s.errors == [] ==> |s.starts| >= Min(s.length, s.limit)
  {
  }

  lemma {:induction false} RunFills(s: State, es: seq<Event>)
    requires Inv(s) && Filled(s) && Run(s, es)
    ensures Filled(Exec(s, es))
    decreases |es|
  {
    if es != [] {
      StepKeeps(s, es[0]);
      StepFills(s, es[0]);
      RunFills(Step(s, es[0]), es[1..]);
    }
  }

  lemma StepFills(s: State, e: Event)
    requires Inv(s) && Filled(s) && Enabled(s, e)
    ensures Filled(Step(s, e))
  {
  }

  /** How much is left to do. */
  function Work(s: State): int {
    2 * (s.length - |s.starts|) + s.nPending + (if s.looping then 1 else 0)
  }

  /** Every event leaves less to do. */
  lemma EveryEventProgresses(s: State, e: Event)
    requires Inv(s) && Enabled(s, e)
    ensures 0 <= Work(Step(s, e)) < Work(s)
  {
    StepKeeps(s, e);
  }

  lemma {:induction false} WorkBoundsRuns(s: State, es: seq<Event>)
    requires Inv(s) && Run(s, es)
    ensures |es| <= Work(s)
    decreases |es|
  {
    if es != [] {
      EveryEventProgresses(s, es[0]);
      StepKeeps(s, es[0]);
      WorkBoundsRuns(Step(s, es[0]), es[1..]);
    }
  }

  /** So runs are bounded: the calls end, and by then the callback has fired. */
  lemma RunsAreBounded(length: nat, limit: nat, es: seq<Event>)
    requires Run(Init(length, limit), es)
    ensures |es| <= 2 * length + 1
  {
    WorkBoundsRuns(Init(length, limit), es);
  }

  lemma {:induction false} NothingWithoutCalls(s: State, es: seq<Event>)
    requires s.limit == 0 && s.inFlight == [] && s.starts == [] && s.firings == [] && Run(s, es)
    ensures Exec(s, es).starts == [] && Exec(s, es).firings == []
    decreases |es|
  {
    if es != [] {
      NothingWithoutCalls(Step(s, es[0]), es[1..]);
    }
  }

  /** With a limit of zero and a collection, nothing is ever started and the callback never fires. */
  lemma ZeroLimitNeverFires(length: nat, es: seq<Event>)
    requires length > 0 && Run(Init(length, 0), es)
    ensures Exec(Init(length, 0), es).starts == [] && Exec(Init(length, 0), es).firings == []
  {
    NothingWithoutCalls(Init(length, 0), es);
  }

  /** The variables of the call and the closures that change them. */
  class Call {
    const length: nat
    const limit: nat
    var looping: bool
    var nextIdx: nat
    var nPending: int
    var results: seq<Option<Result>>
    var pendingError: Option<Error>
    var starts: seq<nat>
    ghost var inFlight: seq<bool>
    ghost var errors: seq<Error>
    var firings: seq<Option<Error>>

    ghost function View(): State
      reads this
    {
      State(length, limit, looping, nextIdx, nPending, results, pendingError, starts, inFlight, errors, firings)
    }

    constructor (length: nat, limit: nat)
      ensures View() == Init(length, limit)
    {
      this.length, this.limit := length, limit;
      looping, nextIdx, nPending, pendingError := length > 0, 0, 0, None;
      results := seq(length, _ => None);
      starts, inFlight, errors := [], [], [];
      firings := if length == 0 then [None] else [];
    }

    method StartNext()
      modifies this
      ensures View() == ProcessNext(old(View()))
    {
      starts, inFlight := starts + [nextIdx], inFlight + [true];
      nextIdx := nextIdx + 1;
      nPending := nPending + 1;
    }

    method FireIfDone()
      modifies this
      ensures View() == Fire(old(View()))
    {
      if nPending == 0 {
        firings := firings + [pendingError];
      }
    }

    method OnCallback(call: nat, err: Option<Error>, res: Result)
      requires Enabled(View(), Callback(call, err, res))
      modifies this
      ensures View() == Step(old(View()), Callback(call, err, res))
      ensures results == old(results)[old(starts[call]) := Some(res)]
      ensures pendingError == if old(pendingError).Some? then old(pendingError) else err
      ensures var continues := err.None? && old(nextIdx) < length;
              && starts == old(starts) + (if continues then [old(nextIdx)] else [])
              && nextIdx == (if err.Some? then length else if continues then old(nextIdx) + 1 else old(nextIdx))
              && nPending == old(nPending) - (if continues then 0 else 1)
              && firings == old(firings) + (if !continues && old(nPending) == 1 then [pendingError] else [])
    {
      nPending := nPending - 1;
      results := results[starts[call] := Some(res)];
      inFlight := inFlight[call := false];
      if err.Some? {
        nextIdx := length;
        if pendingError.None? {
          pendingError := err;
        }
        errors := errors + [err.value];
        FireIfDone();
      } else if nextIdx < length {
        StartNext();
      } else {
        FireIfDone();
      }
    }

    /** One turn of the starting loop. */
    method Turn()
      requires looping
      modifies this
      ensures View() == Step(old(View()), LoopTurn)
      ensures looping <==> old(nextIdx) < length && old(nextIdx) < limit
      ensures starts == old(starts) + (if looping then [old(nextIdx)] else [])
      ensures nextIdx == old(nextIdx) + (if looping then 1 else 0)
      ensures nPending == old(nPending) + (if looping then 1 else 0)
      ensures firings == old(firings) && results == old(results)
    {
      if nextIdx < Min(length, limit) {
        StartNext();
      } else {
        looping := false;
      }
    }
  }
}
