/**
  One call to the producer: a message per entry, a delivery report per message,
  and a callback that runs once.
 */
module Delivery {
  import opened Positions

  datatype Outcome = Waiting | Success | Failure

  /** A delivery report, without error if `ok`; or a message could not be handed over, and no more are. */
  datatype SendEvent = Report(ok: bool) | Thrown

  /** `outcome` is what the callback was called with, if it was called. */
  datatype SendCtx = SendCtx(pendingReports: int, receivedReports: seq<bool>, outcome: Outcome)

  /** An empty send succeeds at once. */
  function Begin(n: nat): SendCtx {
    SendCtx(n, [], if n == 0 then Success else Waiting)
  }

  function CallOnce(ctx: SendCtx, outcome: Outcome): SendCtx {
    if ctx.outcome.Waiting? then ctx.(outcome := outcome) else ctx
  }

  function OnEvent(ctx: SendCtx, e: SendEvent): SendCtx {
    match e
    case Thrown => CallOnce(ctx, Failure)
    case Report(ok) =>
      var received := ctx.(pendingReports := ctx.pendingReports - 1, receivedReports := ctx.receivedReports + [ok]);
      if !ok then CallOnce(received, Failure)
      else if received.pendingReports == 0 then CallOnce(received, Success)
      else received
  }

  function AfterEvents(n: nat, es: seq<SendEvent>): SendCtx {
    if es == [] then Begin(n)
    else OnEvent(AfterEvents(n, es[..|es| - 1]), es[|es| - 1])
  }

  function ReportIn(e: SendEvent): seq<bool> {
    if e.Report? then [e.ok] else []
  }

  /** The reports among the events, in order of arrival. */
  function ReportsOf(es: seq<SendEvent>): seq<bool> {
    if es == [] then []
    else ReportsOf(es[..|es| - 1]) + ReportIn(es[|es| - 1])
  }

  lemma {:induction false} ReportsAreEvents(es: seq<SendEvent>)
    ensures forall ok :: ok in ReportsOf(es) ==> Report(ok) in es
  {
    if es != [] {
      ReportsAreEvents(es[..|es| - 1]);
      assert es == es[..|es| - 1] + [es[|es| - 1]];
    }
  }

  /** `reports` stand in `es` at the positions `ps`, which are all those of reports. */
  predicate ReportsAt(es: seq<SendEvent>, reports: seq<bool>, ps: seq<nat>) {
    && Rising(ps, |es|) && |reports| == |ps|
    && (forall j :: 0 <= j < |ps| ==> es[ps[j]] == Report(reports[j]))
    && (forall k :: 0 <= k < |es| ==> (es[k].Report? <==> k in ps))
  }

  lemma OneMoreReport(es: seq<SendEvent>, reports: seq<bool>, ps: seq<nat>, e: SendEvent) returns (more: seq<nat>)
    requires ReportsAt(es, reports, ps)
    ensures ReportsAt(es + [e], reports + ReportIn(e), more)
  {
    more := OneMorePosition(ps, |es|, e.Report?);
  }

  lemma {:induction false} ReportsAreExact(es: seq<SendEvent>) returns (ps: seq<nat>)
    ensures ReportsAt(es, ReportsOf(es), ps)
  {
    if es == [] {
      ps := [];
    } else {
      hide ReportsAt;
      var init, last := es[..|es| - 1], es[|es| - 1];
      var before := ReportsAreExact(init);
      ps := OneMoreReport(init, ReportsOf(init), before, last);
      assert init + [last] == es;
    }
  }

  /** There is a report at most for each message, and fewer once one could not be handed over. */
  predicate Possible(n: nat, es: seq<SendEvent>) {
    |ReportsOf(es)| <= n && (Thrown in es ==> |ReportsOf(es)| < n)
  }

  /**
    The callback tells success exactly when every report arrived and nothing went wrong, and
    failure exactly when a report was an error or a message could not be handed over.
   */
  lemma {:induction false} OutcomeIsExact(n: nat, es: seq<SendEvent>)
    requires Possible(n, es)
    ensures var ctx := AfterEvents(n, es);
            && ctx.receivedReports == ReportsOf(es) && ctx.pendingReports == n - |ReportsOf(es)|
            && (ctx.outcome.Success? <==> |ReportsOf(es)| == n && Report(false) !in es && Thrown !in es)
            && (ctx.outcome.Failure? <==> Report(false) in es || Thrown in es)
  {
    if es != [] {
      var before, last := es[..|es| - 1], es[|es| - 1];
      assert forall e :: e in es <==> e in before || e == last by {
        assert es == before + [last];
      }
      OutcomeIsExact(n, before);
    }
  }

  /** Once called, the callback is not called again, whatever follows. */
  lemma {:induction false} OutcomeIsFinal(n: nat, es: seq<SendEvent>, more: seq<SendEvent>)
    requires !AfterEvents(n, es).outcome.Waiting?
    ensures AfterEvents(n, es + more).outcome == AfterEvents(n, es).outcome
  {
    if more == [] {
      assert es + more == es;
    } else {
      OutcomeIsFinal(n, es, more[..|more| - 1]);
      assert (es + more)[..|es + more| - 1] == es + more[..|more| - 1];
    }
  }

  class SendContext {
    var pendingReports: int
    var receivedReports: seq<bool>
    var outcome: Outcome

    ghost function View(): SendCtx
      reads this
    {
      SendCtx(pendingReports, receivedReports, outcome)
    }

    constructor (n: nat)
      ensures View() == Begin(n)
      ensures pendingReports == n && receivedReports == [] && (outcome == if n == 0 then Success else Waiting)
    {
      pendingReports, receivedReports := n, [];
      outcome := if n == 0 then Success else Waiting;
    }

    method CbOnce(result: Outcome)
      modifies this`outcome
      ensures View() == CallOnce(old(View()), result)
    {
      if outcome.Waiting? {
        outcome := result;
      }
    }

    method DeliveryReport(ok: bool)
      modifies this
      ensures View() == OnEvent(old(View()), Report(ok))
      ensures pendingReports == old(pendingReports) - 1 && receivedReports == old(receivedReports) + [ok]
      ensures outcome == if old(outcome) != Waiting then old(outcome)
                         else if !ok then Failure else if pendingReports == 0 then Success else Waiting
    {
      receivedReports := receivedReports + [ok];
      pendingReports := pendingReports - 1;
      if !ok {
        CbOnce(Failure);
        return;
      }
      if pendingReports == 0 {
        CbOnce(Success);
      }
    }

    /** A message could not be handed over. */
    method ProduceThrows()
      modifies this
      ensures View() == OnEvent(old(View()), Thrown)
      ensures pendingReports == old(pendingReports) && receivedReports == old(receivedReports)
      ensures outcome == if old(outcome) == Waiting then Failure else old(outcome)
    {
      CbOnce(Failure);
    }
  }
}
