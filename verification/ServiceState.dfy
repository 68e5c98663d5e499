/**
  The persisted state of a service that has one workflow: each pass loads it, compares it with
  the configuration, applies the differing buckets, any of which may fail, and saves.
 */
module ServiceState {
  import opened Options
  import opened WorkflowUpdates

  /** The configuration, restricted to the workflows of the service. */
  datatype Overlay = Overlay(version: int, workflows: Option<Configured>)

  datatype State = State(workflows: Applied, overlayVersion: int)

  /** One call of `apply`: the buckets on which the service fails, and whether the save does. */
  datatype Pass = Pass(conf: Overlay, failing: set<string>, saveFails: bool)

  /** What is stored, what the service has really applied, and the configurations saved so far. */
  datatype World = World(stored: State, actual: Applied, saves: seq<Overlay>)

  function InitialState(): State {
    State(map[], 0)
  }

  function Init(): World {
    World(InitialState(), map[], [])
  }

  function Wanted(conf: Overlay): Configured {
    conf.workflows.GetOr(map[])
  }

  /** The configuration indexed by identifier, without the buckets that have no workflow. */
  function IndexAll(conf: Configured): Applied {
    map b | b in conf && Index(ConfiguredIn(conf, b)) != map[] :: Index(ConfiguredIn(conf, b))
  }

  /** A bucket is set to its configured workflows, or dropped if it has none. */
  function SetBucket(cur: Applied, conf: Configured, b: string): Applied {
    if Index(ConfiguredIn(conf, b)) == map[] then cur - {b} else cur[b := Index(ConfiguredIn(conf, b))]
  }

  /** The buckets in `names` are set to their configured workflows. */
  function SetBuckets(cur: Applied, conf: Configured, names: set<string>): Applied {
    map b | b in conf.Keys + cur.Keys && (if b in names then Index(ConfiguredIn(conf, b)) != map[] else b in cur)
      :: if b in names then Index(ConfiguredIn(conf, b)) else cur[b]
  }

  function Differing(w: World, conf: Overlay): set<string> {
    Diff(Wanted(conf), w.stored.workflows).Keys
  }

  predicate Attempted(w: World, p: Pass) {
    w.stored.overlayVersion < p.conf.version && Differing(w, p.conf) != {}
  }

  predicate Saves(w: World, p: Pass) {
    Attempted(w, p) && Differing(w, p.conf) !! p.failing && !p.saveFails
  }

  function Step(w: World, p: Pass): World {
    if !Attempted(w, p) then w
    else
      var conf, names := Wanted(p.conf), Differing(w, p.conf);
      var w1 := w.(actual := SetBuckets(w.actual, conf, names - p.failing));
      if Saves(w, p)
      then w1.(stored := State(SetBuckets(w.stored.workflows, conf, names), p.conf.version),
               saves := w.saves + [p.conf])
      else w1
  }

  function Exec(w: World, ps: seq<Pass>): World {
    if ps == [] then w else Step(Exec(w, ps[..|ps| - 1]), ps[|ps| - 1])
  }

  // What every pass keeps

  /** Every stored bucket has a workflow, and every workflow is under its own identifier. */
  predicate WellStored(cur: Applied) {
    forall b :: b in cur ==> cur[b] != map[] && KeyedById(cur[b])
  }

  lemma IndexAllIsWellStored(conf: Configured)
    ensures WellStored(IndexAll(conf))
  {
    forall b | b in IndexAll(conf) ensures KeyedById(IndexAll(conf)[b]) {
      IndexIsKeyed(ConfiguredIn(conf, b));
    }
  }

  lemma SetAgreesAt(cur: Applied, conf: Configured, b: string)
    requires WellStored(cur)
    ensures var m := SetBuckets(cur, conf, Diff(conf, cur).Keys);
            (b in m <==> b in IndexAll(conf)) && (b in m ==> m[b] == IndexAll(conf)[b])
  {
    var wfs, idx := ConfiguredIn(conf, b), AppliedIn(cur, b);
    if b in conf.Keys + cur.Keys && Empty(BucketDiff(wfs, idx)) {
      NoUpdateMeansAgreement(wfs, idx);
    }
  }

  /** Setting the differing buckets leaves exactly the configuration. */
  lemma SettingDifferencesGivesAll(cur: Applied, conf: Configured)
    requires WellStored(cur)
    ensures SetBuckets(cur, conf, Diff(conf, cur).Keys) == IndexAll(conf)
  {
    forall b: string {
      SetAgreesAt(cur, conf, b);
    }
  }

  /** Saves have rising versions, up to `top`. */
  predicate Rising(saves: seq<Overlay>, top: int) {
    && (forall i :: 0 <= i < |saves| ==> 0 < saves[i].version <= top)
    && (forall i, j :: 0 <= i < j < |saves| ==> saves[i].version < saves[j].version)
  }

  lemma OneMoreSave(saves: seq<Overlay>, top: int, conf: Overlay)
    requires Rising(saves, top) && 0 <= top < conf.version
    ensures Rising(saves + [conf], conf.version)
  {
  }

  function StateOf(conf: Overlay): State {
    State(IndexAll(Wanted(conf)), conf.version)
  }

  /** The stored state is the last configuration saved. */
  predicate LastSaved(stored: State, saves: seq<Overlay>) {
    stored == if saves == [] then InitialState() else StateOf(saves[|saves| - 1])
  }

  predicate Inv(w: World) {
    && WellStored(w.stored.workflows) && LastSaved(w.stored, w.saves)
    && Rising(w.saves, w.stored.overlayVersion) && 0 <= w.stored.overlayVersion
  }

  lemma SavedState(w: World, p: Pass)
    requires WellStored(w.stored.workflows) && Saves(w, p)
    ensures Step(w, p).stored == StateOf(p.conf) && Step(w, p).saves == w.saves + [p.conf]
    ensures WellStored(Step(w, p).stored.workflows)
  {
    SettingDifferencesGivesAll(w.stored.workflows, Wanted(p.conf));
    IndexAllIsWellStored(Wanted(p.conf));
  }

  lemma StepKeeps(w: World, p: Pass)
    requires Inv(w)
    ensures Inv(Step(w, p))
  {
    if Saves(w, p) {
      SavedState(w, p);
      OneMoreSave(w.saves, w.stored.overlayVersion, p.conf);
    } else {
      assert Step(w, p).stored == w.stored && Step(w, p).saves == w.saves;
    }
  }

  lemma {:induction false} RunKeeps(ps: seq<Pass>)
    ensures Inv(Exec(Init(), ps))
  {
    if ps != [] {
      RunKeeps(ps[..|ps| - 1]);
      StepKeeps(Exec(Init(), ps[..|ps| - 1]), ps[|ps| - 1]);
    }
  }

  // What the service state promises

  /** Over any passes, each save strictly raises the version and stores that configuration, indexed. */
  lemma StoredIsLastSaved(ps: seq<Pass>)
    ensures var w := Exec(Init(), ps);
            && (w.saves == [] ==> w.stored == InitialState())
            && (w.saves != [] ==> var last := w.saves[|w.saves| - 1];
                                  w.stored.workflows == IndexAll(Wanted(last))
                                    && w.stored.overlayVersion == last.version)
            && (forall i, j :: 0 <= i < j < |w.saves| ==> w.saves[i].version < w.saves[j].version)
  {
    RunKeeps(ps);
    hide Exec, IndexAll, Wanted, WellStored;
  }

  /**
    A pass saves exactly when its version is newer, something differs, no differing bucket
    fails and the save succeeds. One failed bucket is enough for nothing to be stored.
   */
  lemma SavesExactly(ps: seq<Pass>, p: Pass)
    ensures var w := Exec(Init(), ps); var w' := Step(w, p);
            && (Saves(w, p) ==>
                  w'.stored == State(IndexAll(Wanted(p.conf)), p.conf.version)
                  && w.stored.overlayVersion < w'.stored.overlayVersion)
            && (!Saves(w, p) ==> w'.stored == w.stored)
            && (forall b :: b in Differing(w, p.conf) && b in p.failing ==> w'.stored == w.stored)
  {
    RunKeeps(ps);
    if Saves(Exec(Init(), ps), p) {
      SavedState(Exec(Init(), ps), p);
    }
  }

  /** Every bucket is indexed as it is configured. */
  lemma IndexAllIn(conf: Configured, b: string)
    ensures AppliedIn(IndexAll(conf), b) == Index(ConfiguredIn(conf, b))
    ensures b in IndexAll(conf) <==> ConfiguredIn(conf, b) != []
  {
    if ConfiguredIn(conf, b) != [] {
      var id := ConfiguredIn(conf, b)[0].workflowId;
      IndexHas(ConfiguredIn(conf, b), id);
      assert HasId(ConfiguredIn(conf, b), id);
    }
  }

  predicate ConsistentEverywhere(conf: Configured) {
    forall b :: b in conf ==> ConsistentIds(ConfiguredIn(conf, b))
  }

  predicate InStep(w: World, b: string) {
    AppliedIn(w.actual, b) == AppliedIn(w.stored.workflows, b)
  }

  lemma SetBucketsAt(cur: Applied, conf: Configured, names: set<string>, b: string)
    ensures AppliedIn(SetBuckets(cur, conf, names), b) ==
            if b in names then Index(ConfiguredIn(conf, b)) else AppliedIn(cur, b)
  {
  }

  lemma DiffersExactly(w: World, conf: Overlay, b: string)
    requires WellStored(w.stored.workflows) && ConsistentEverywhere(Wanted(conf))
    ensures b in Differing(w, conf) <==> AppliedIn(w.stored.workflows, b) != Index(ConfiguredIn(Wanted(conf), b))
  {
    AbsentExactlyWhenAgreeing(Wanted(conf), w.stored.workflows, b);
  }

  /** The bucket is not applied as it is configured, by what is stored. */
  predicate IsAstray(w: World, conf: Overlay, b: string) {
    AppliedIn(w.stored.workflows, b) != Index(ConfiguredIn(Wanted(conf), b))
  }

  /**
    The same in the terms of the configuration: a pass is a save if and only if the version is
    newer, some bucket is not stored as configured, the service fails on none of these, and the
    save does not fail; and it tries, without any save, if and only if one of the last two is not so.
   */
  lemma SavesByConfiguration(ps: seq<Pass>, p: Pass)
    requires ConsistentEverywhere(Wanted(p.conf))
    ensures var w := Exec(Init(), ps); var w' := Step(w, p);
            var newer := p.conf.version > w.stored.overlayVersion && exists b :: IsAstray(w, p.conf, b);
            var fails := p.saveFails || exists b :: b in p.failing && IsAstray(w, p.conf, b);
            && (w'.saves == w.saves + [p.conf] <==> newer && !fails)
            && (w'.saves == w.saves <==> !newer || fails)
            && (Attempted(w, p) <==> newer)
  {
    RunKeeps(ps);
    var w := Exec(Init(), ps);
    forall b ensures b in Differing(w, p.conf) <==> IsAstray(w, p.conf, b) {
      DiffersExactly(w, p.conf, b);
    }
    hide IsAstray, Exec, Differing, SetBuckets, Inv;
  }

  /** A pass applies exactly the buckets not stored as configured on which the service does not fail. */
  lemma AppliesByConfiguration(ps: seq<Pass>, p: Pass, b: string)
    requires ConsistentEverywhere(Wanted(p.conf))
    ensures var w := Exec(Init(), ps);
            AppliedIn(Step(w, p).actual, b) ==
            if p.conf.version > w.stored.overlayVersion && IsAstray(w, p.conf, b) && b !in p.failing
            then Index(ConfiguredIn(Wanted(p.conf), b)) else AppliedIn(w.actual, b)
  {
    RunKeeps(ps);
    var w := Exec(Init(), ps);
    DiffersExactly(w, p.conf, b);
    SetBucketsAt(w.actual, Wanted(p.conf), Differing(w, p.conf) - p.failing, b);
  }

  /**
    How the service and the stored state come apart: from a bucket in step, a pass keeps it so
    exactly when the bucket was not applied, or the pass was saved.
   */
  lemma StaysInStepExactly(ps: seq<Pass>, p: Pass, b: string)
    requires ConsistentEverywhere(Wanted(p.conf))
    ensures var w := Exec(Init(), ps);
            InStep(w, b) ==>
            (InStep(Step(w, p), b) <==> !Attempted(w, p) || b !in Differing(w, p.conf) - p.failing || Saves(w, p))
  {
    RunKeeps(ps);
    var w := Exec(Init(), ps);
    var conf, names := Wanted(p.conf), Differing(w, p.conf);
    DiffersExactly(w, p.conf, b);
    SetBucketsAt(w.actual, conf, names - p.failing, b);
    SetBucketsAt(w.stored.workflows, conf, names, b);
  }

  /**
    How they come together again: after a pass that saves, a bucket is in step exactly when it
    was so before, or the configuration differed from what was stored for it. A configuration
    that reverts a bucket to its stored value leaves it astray.
   */
  lemma SavingHealsExactly(ps: seq<Pass>, p: Pass, b: string)
    requires ConsistentEverywhere(Wanted(p.conf))
    ensures var w := Exec(Init(), ps);
            Saves(w, p) ==>
            (InStep(Step(w, p), b) <==>
              InStep(w, b) || AppliedIn(w.stored.workflows, b) != Index(ConfiguredIn(Wanted(p.conf), b)))
  {
    RunKeeps(ps);
    var w := Exec(Init(), ps);
    var conf, names := Wanted(p.conf), Differing(w, p.conf);
    DiffersExactly(w, p.conf, b);
    if Saves(w, p) {
      assert names - p.failing == names;
    }
    SetBucketsAt(w.actual, conf, names, b);
    SetBucketsAt(w.stored.workflows, conf, names, b);
  }

  /** Two buckets are configured, and the service fails on the second. */
  function FailedPass(a: string, b: string, wa: Workflow, wb: Workflow): Pass {
    Pass(Overlay(1, Some(map[a := Some([wa]), b := Some([wb])])), {b}, false)
  }

  /** The first bucket is dropped from the configuration again, and nothing fails. */
  function RevertingPass(b: string, wb: Workflow): Pass {
    Pass(Overlay(2, Some(map[b := Some([wb])])), {}, false)
  }

  lemma OneWorkflow(wf: Workflow)
    ensures Index([wf]) == map[wf.workflowId := wf] && ConsistentIds([wf])
  {
    assert [wf][..0] == [];
  }

  lemma NothingStoredDiffers(w: World, conf: Overlay, b: string, wf: Workflow)
    requires w.stored == InitialState() && ConsistentEverywhere(Wanted(conf)) && ConfiguredIn(Wanted(conf), b) == [wf]
    ensures b in Differing(w, conf)
  {
    OneWorkflow(wf);
    assert wf.workflowId in Index([wf]);
    DiffersExactly(w, conf, b);
  }

  lemma FailedPassIsAhead(a: string, b: string, wa: Workflow, wb: Workflow)
    requires a != b
    ensures var w := Exec(Init(), [FailedPass(a, b, wa, wb)]); w.stored == InitialState() && !InStep(w, a)
  {
    var p := FailedPass(a, b, wa, wb);
    OneWorkflow(wa);
    OneWorkflow(wb);
    NothingStoredDiffers(Init(), p.conf, a, wa);
    NothingStoredDiffers(Init(), p.conf, b, wb);
    assert [p][..0] == [] && Exec(Init(), []) == Init();
    assert Exec(Init(), [p]) == Step(Init(), p);
    assert b in Differing(Init(), p.conf) && b in p.failing;
    StaysInStepExactly([], p, a);
  }

  /**
    The service does come apart, over any two buckets: one is applied while the other fails, so
    it is ahead of the stored state; a configuration without it then saves, and leaves it applied.
   */
  lemma RevertLeavesBucketAstray(a: string, b: string, wa: Workflow, wb: Workflow)
    requires a != b
    ensures var failed, reverting := FailedPass(a, b, wa, wb), RevertingPass(b, wb);
            && !InStep(Exec(Init(), [failed]), a)
            && Saves(Exec(Init(), [failed]), reverting)
            && !InStep(Exec(Init(), [failed, reverting]), a)
  {
    var failed, reverting := FailedPass(a, b, wa, wb), RevertingPass(b, wb);
    var w := Exec(Init(), [failed]);
    FailedPassIsAhead(a, b, wa, wb);
    OneWorkflow(wb);
    NothingStoredDiffers(w, reverting.conf, b, wb);
    assert b in Differing(w, reverting.conf);
    assert [failed, reverting][..1] == [failed];
    assert Exec(Init(), [failed, reverting]) == Step(w, reverting);
    assert Index([]) == map[];
    SavingHealsExactly([failed], reverting, a);
  }

  /** A pass over a configuration that was saved does nothing: the version is not newer. */
  lemma SavedConfigurationIsSettled(ps: seq<Pass>, p: Pass, i: nat)
    requires i < |Exec(Init(), ps).saves| && p.conf.version <= Exec(Init(), ps).saves[i].version
    ensures Step(Exec(Init(), ps), p) == Exec(Init(), ps)
  {
    RunKeeps(ps);
  }

  // The computation

  /** What applying the updates of some buckets results in. */
  ghost predicate Applying(conf: Overlay, current: State, names: set<string>, failing: set<string>,
                           failed: bool, newState: Option<State>, applied: set<string>)
  {
    if current.overlayVersion >= conf.version || names == {} then !failed && newState == None && applied == {}
    else
      && applied == names - failing && (failed <==> names * failing != {})
      && newState == if applied == {} then None
         else Some(State(SetBuckets(current.workflows, Wanted(conf), applied), conf.version))
  }

  /** `applyWorkflowUpdates`: the new state if some bucket succeeded, and whether some bucket failed. */
  method ApplyWorkflowUpdates(conf: Overlay, current: State, updates: map<string, Update>, failing: set<string>)
    returns (failed: bool, newState: Option<State>, applied: set<string>)
    ensures Applying(conf, current, updates.Keys, failing, failed, newState, applied)
  {
    if current.overlayVersion >= conf.version || updates == map[] {
      return false, None, {};
    }
    var workflows, changed := current.workflows, false;
    failed, applied := false, {};
    var names := updates.Keys;
    while names != {}
      invariant names <= updates.Keys
      invariant applied == updates.Keys - names - failing && (changed <==> applied != {})
      invariant failed <==> (updates.Keys - names) * failing != {}
      invariant workflows == SetBuckets(current.workflows, Wanted(conf), applied)
      decreases names
    {
      var b :| b in names;
      names := names - {b};
      if b in failing {
        failed := true;
        assert b in (updates.Keys - names) * failing;
      } else {
        SetOneMore(current.workflows, Wanted(conf), applied, b);
        workflows := SetBucket(workflows, Wanted(conf), b);
        applied, changed := applied + {b}, true;
      }
    }
    newState := if changed then Some(State(workflows, conf.version)) else None;
  }

  lemma SetOneMore(cur: Applied, conf: Configured, names: set<string>, b: string)
    ensures SetBucket(SetBuckets(cur, conf, names), conf, b) == SetBuckets(cur, conf, names + {b})
  {
  }

  lemma SetNone(cur: Applied, conf: Configured)
    ensures SetBuckets(cur, conf, {}) == cur
  {
  }

  /** The caller drops the new state on any error, and else saves it. */
  function Dropped(w: World, p: Pass, applied: set<string>): World {
    w.(actual := SetBuckets(w.actual, Wanted(p.conf), applied))
  }

  lemma Disjointness(a: set<string>, b: set<string>)
    ensures a * b == {} <==> a !! b
    ensures a !! b ==> a - b == a
  {
    if a * b == {} {
      assert forall x :: x in a && x in b ==> x in a * b;
    }
  }

  lemma OutcomeIsStep(w: World, p: Pass, failed: bool, newState: Option<State>, applied: set<string>)
    requires Applying(p.conf, w.stored, Differing(w, p.conf), p.failing, failed, newState, applied)
    ensures if failed || (newState.Some? && p.saveFails)
            then Attempted(w, p) && !Saves(w, p) && Step(w, p) == Dropped(w, p, applied)
            else if newState.Some?
            then Saves(w, p)
                 && Step(w, p) == Dropped(w, p, applied).(stored := newState.value, saves := w.saves + [p.conf])
            else !Attempted(w, p) && Step(w, p) == w == Dropped(w, p, applied)
  {
    var names := Differing(w, p.conf);
    SetNone(w.actual, Wanted(p.conf));
    hide SetBuckets, Differing;
    Disjointness(names, p.failing);
  }

  /** The service with its store. */
  class Service {
    var stored: State
    ghost var actual: Applied
    ghost var saves: seq<Overlay>

    ghost function View(): World
      reads this
    {
      World(stored, actual, saves)
    }

    constructor ()
      ensures View() == Init() && Inv(View())
    {
      stored, actual, saves := InitialState(), map[], [];
    }

    /** `apply`: a reported error means that the new state was dropped, whatever succeeded. */
    method Apply(p: Pass) returns (err: bool)
      modifies this
      ensures View() == Step(old(View()), p)
      ensures err <==> old(Attempted(View(), p) && !Saves(View(), p))
      ensures err ==> stored == old(stored) && saves == old(saves)
    {
      var updates := GetWorkflowUpdates(p.conf.workflows, Some(stored.workflows));
      var failed, newState, applied := ApplyWorkflowUpdates(p.conf, stored, updates, p.failing);
      OutcomeIsStep(View(), p, failed, newState, applied);
      hide SetBuckets, Applying, Attempted, Saves;
      actual := SetBuckets(actual, Wanted(p.conf), applied);
      if failed {
        return true;
      }
      if newState.Some? {
        if p.saveFails {
          return true;
        }
        stored, saves := newState.value, saves + [p.conf];
      }
      return false;
    }
  }
}
