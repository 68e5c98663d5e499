/**
  The task scheduler: tasks with the same queue key run one at a time in push order, and a
  task is skipped while another with the same dedupe key is unfinished.

  Each queue is an `async.queue` of concurrency 1: when a task ends, its callback runs first,
  which may push again, and only then is the drain hook called if the queue is idle.
 */
module TaskScheduler {
  import opened Options

  datatype Task = Task(id: nat, queueKey: Option<string>, dedupeKey: Option<string>)

  /** `ending` is set between the callback of a task and the idle test that follows it. */
  datatype Queue = Queue(running: Option<Task>, tasks: seq<Task>, ending: bool)

  /** What happened under one queue key: tasks accepted, started and finished, in order. */
  datatype Log = Log(accepted: seq<Task>, started: seq<Task>, finished: seq<Task>)

  /**
    `queues` and `dedupe` are the scheduler's own. The rest is history: the logs by queue key,
    every push, the accepted tasks not finished yet (`open`), the skipped ones whose `done` is
    still to be called, and the `done` calls made.
   */
  datatype State = State(
    queues: map<string, Queue>, dedupe: set<string>,
    logs: map<string, Log>, pushes: seq<Task>,
    open: set<Task>, skipped: seq<Task>, dones: seq<Task>)

  datatype Event =
    | Push(queueKey: Option<string>, dedupeKey: Option<string>)
    | SkipDone(at: nat)
    | Start(key: string)
    | TaskEnd(key: string)
    | AfterEnd(key: string)
    | LooseEnd(task: Task)

  function Init(): State {
    State(map[], {}, map[], [], {}, [], [])
  }

  function Content(q: Queue): seq<Task> {
    (if q.running.Some? then [q.running.value] else []) + q.tasks
  }

  function QueueOf(s: State, k: string): Queue {
    if k in s.queues then s.queues[k] else Queue(None, [], false)
  }

  function LogOf(s: State, k: string): Log {
    if k in s.logs then s.logs[k] else Log([], [], [])
  }

  predicate Enabled(s: State, e: Event) {
    match e
    case Push(_, _) => true
    case SkipDone(i) => i < |s.skipped|
    case Start(k) => k in s.queues && s.queues[k].running.None? && s.queues[k].tasks != [] && !s.queues[k].ending
    case TaskEnd(k) => k in s.queues && s.queues[k].running.Some?
    case AfterEnd(k) => k in s.queues && s.queues[k].ending
    case LooseEnd(t) => t in s.open && t.queueKey.None?
  }

  predicate Duplicate(s: State, t: Task) {
    t.dedupeKey.Some? && t.dedupeKey.value in s.dedupe
  }

  /** A task is accepted: its dedupe key is recorded, and it joins the queue of its key if it has one. */
  function Accept(s: State, t: Task): State {
    var s1 := s.(pushes := s.pushes + [t], open := s.open + {t},
                 dedupe := if t.dedupeKey.Some? then s.dedupe + {t.dedupeKey.value} else s.dedupe);
    if t.queueKey.None? then s1
    else
      var k := t.queueKey.value;
      var q, log := QueueOf(s, k), LogOf(s, k);
      s1.(queues := s.queues[k := q.(tasks := q.tasks + [t])],
          logs := s.logs[k := log.(accepted := log.accepted + [t])])
  }

  /** The callback of a task: its dedupe key is forgotten, and its `done` is called. */
  function OnTaskEnd(s: State, t: Task): State {
    s.(dedupe := if t.dedupeKey.Some? then s.dedupe - {t.dedupeKey.value} else s.dedupe,
       open := s.open - {t}, dones := s.dones + [t])
  }

  function Step(s: State, e: Event): State
    requires Enabled(s, e)
  {
    match e
    case Push(qk, dk) =>
      var t := Task(|s.pushes|, qk, dk);
      if Duplicate(s, t) then s.(pushes := s.pushes + [t], skipped := s.skipped + [t]) else Accept(s, t)
    case SkipDone(i) =>
      s.(skipped := s.skipped[..i] + s.skipped[i + 1..], dones := s.dones + [s.skipped[i]])
    case Start(k) =>
      var q, log := s.queues[k], LogOf(s, k);
      s.(queues := s.queues[k := q.(running := Some(q.tasks[0]), tasks := q.tasks[1..])],
         logs := s.logs[k := log.(started := log.started + [q.tasks[0]])])
    case TaskEnd(k) =>
      var q, log := s.queues[k], LogOf(s, k);
      var s1 := OnTaskEnd(s, q.running.value);
      s1.(queues := s.queues[k := q.(running := None, ending := true)],
          logs := s.logs[k := log.(finished := log.finished + [q.running.value])])
    case AfterEnd(k) =>
      var q := s.queues[k];
      if Content(q) == [] then s.(queues := s.queues - {k})
      else s.(queues := s.queues[k := q.(ending := false)])
    case LooseEnd(t) => OnTaskEnd(s, t)
  }

  predicate Run(s: State, es: seq<Event>)
    decreases |es|
  {
    es == [] || (Enabled(s, es[0]) && Run(Step(s, es[0]), es[1..]))
  }

  function Exec(s: State, es: seq<Event>): State
    requires Run(s, es)
    decreases |es|
  {
    if es == [] then s else Exec(Step(s, es[0]), es[1..])
  }

  // Order and serialisation, one key at a time

  /** Tasks of a key start in the order they were accepted, one at a time, each after the previous one finished. */
  predicate SerialInOrder(q: Queue, log: Log) {
    && log.accepted == log.started + q.tasks
    && log.started == log.finished + (if q.running.Some? then [q.running.value] else [])
    && (q.ending ==> q.running.None?)
  }

  /** A queue exists only while it has work, or while its last task is ending. */
  predicate Needed(s: State, k: string) {
    k in s.queues ==> Content(s.queues[k]) != [] || s.queues[k].ending
  }

  predicate KeyInv(s: State, k: string) {
    SerialInOrder(QueueOf(s, k), LogOf(s, k)) && Needed(s, k)
  }

  lemma PushIsSerial(q: Queue, log: Log, t: Task)
    requires SerialInOrder(q, log)
    ensures SerialInOrder(q.(tasks := q.tasks + [t]), log.(accepted := log.accepted + [t]))
    ensures Content(q.(tasks := q.tasks + [t])) != []
  {
    assert log.accepted + [t] == log.started + (q.tasks + [t]);
  }

  lemma StartIsSerial(q: Queue, log: Log)
    requires SerialInOrder(q, log) && q.running.None? && q.tasks != [] && !q.ending
    ensures SerialInOrder(q.(running := Some(q.tasks[0]), tasks := q.tasks[1..]),
            log.(started := log.started + [q.tasks[0]]))
  {
    assert log.accepted == (log.started + [q.tasks[0]]) + q.tasks[1..];
  }

  lemma EndIsSerial(q: Queue, log: Log)
    requires SerialInOrder(q, log) && q.running.Some?
    ensures SerialInOrder(q.(running := None, ending := true), log.(finished := log.finished + [q.running.value]))
  {
  }

  lemma KeyKeeps(s: State, e: Event, k: string)
    requires KeyInv(s, k) && Enabled(s, e)
    ensures KeyInv(Step(s, e), k)
  {
    match e
    case Push(qk, dk) => PushIsSerial(QueueOf(s, k), LogOf(s, k), Task(|s.pushes|, qk, dk));
    case SkipDone(_) =>
    case Start(key) => if key == k { StartIsSerial(s.queues[k], LogOf(s, k)); }
    case TaskEnd(key) => if key == k { EndIsSerial(s.queues[k], LogOf(s, k)); }
    case AfterEnd(_) =>
    case LooseEnd(_) =>
  }

  // Open tasks

  predicate Ascending(ts: seq<Task>) {
    forall i, j :: 0 <= i < j < |ts| ==> ts[i].id < ts[j].id
  }

  /** The tasks of a queue are open and belong there. */
  ghost predicate Belong(ts: seq<Task>, k: string, open: set<Task>) {
    && (forall t :: t in ts ==> t in open && t.queueKey == Some(k))
    && Ascending(ts)
  }

  /** The open tasks with a queue key are exactly the ones in the queues, each in its own. */
  ghost predicate OpenInv(s: State) {
    && (forall t :: t in s.open ==> t.id < |s.pushes|)
    && (forall k :: Belong(Content(QueueOf(s, k)), k, s.open))
    && (forall t :: t in s.open && t.queueKey.Some? ==> t in Content(QueueOf(s, t.queueKey.value)))
  }

  /** The dedupe cache is the dedupe keys of the open tasks, which are all distinct. */
  ghost predicate DedupeExact(dedupe: set<string>, open: set<Task>) {
    && (forall d :: d in dedupe <==> exists t :: t in open && t.dedupeKey == Some(d))
    && (forall t, u :: t in open && u in open && t.dedupeKey.Some? && t.dedupeKey == u.dedupeKey ==> t == u)
  }

  /** Every push is open, or waits for its skip to be told, or had its `done` called once. */
  predicate EachOnce(pushes: seq<Task>, dones: seq<Task>, skipped: seq<Task>, open: set<Task>) {
    multiset(pushes) == multiset(dones) + multiset(skipped) + multiset(open)
  }

  ghost predicate Inv(s: State) {
    OpenInv(s) && DedupeExact(s.dedupe, s.open) && EachOnce(s.pushes, s.dones, s.skipped, s.open)
  }

  lemma AcceptKeepsDedupe(s: State, t: Task)
    requires DedupeExact(s.dedupe, s.open) && !Duplicate(s, t)
    ensures DedupeExact(Accept(s, t).dedupe, Accept(s, t).open)
  {
    var s' := Accept(s, t);
    forall d ensures d in s'.dedupe <==> exists u :: u in s'.open && u.dedupeKey == Some(d) {
      if d in s.dedupe {
        var u :| u in s.open && u.dedupeKey == Some(d);
        assert u in s'.open;
      }
      if t.dedupeKey == Some(d) {
        assert t in s'.open;
      }
    }
  }

  lemma EndKeeps(s: State, t: Task)
    requires DedupeExact(s.dedupe, s.open) && EachOnce(s.pushes, s.dones, s.skipped, s.open) && t in s.open
    ensures var s' := OnTaskEnd(s, t);
            DedupeExact(s'.dedupe, s'.open) && EachOnce(s'.pushes, s'.dones, s'.skipped, s'.open)
  {
    var s' := OnTaskEnd(s, t);
    forall d ensures d in s'.dedupe <==> exists u :: u in s'.open && u.dedupeKey == Some(d) {
      if d in s'.dedupe {
        var u :| u in s.open && u.dedupeKey == Some(d);
        assert u in s'.open;
      }
    }
    assert multiset(s.open) == multiset(s.open - {t}) + multiset{t};
  }

  lemma PushBelongs(ts: seq<Task>, k: string, open: set<Task>, t: Task)
    requires Belong(ts, k, open) && t.queueKey == Some(k) && forall u :: u in open ==> u.id < t.id
    ensures Belong(ts + [t], k, open + {t})
  {
    assert forall i :: 0 <= i < |ts| ==> ts[i] in ts;
  }

  lemma PushedContent(q: Queue, t: Task)
    ensures Content(q.(tasks := q.tasks + [t])) == Content(q) + [t]
  {
  }

  lemma AcceptKeepsOpen(s: State, t: Task)
    requires OpenInv(s) && t.id == |s.pushes|
    ensures OpenInv(Accept(s, t))
  {
    var s' := Accept(s, t);
    forall k ensures Belong(Content(QueueOf(s', k)), k, s'.open) {
      assert Belong(Content(QueueOf(s, k)), k, s.open);
      if t.queueKey == Some(k) {
        PushBelongs(Content(QueueOf(s, k)), k, s.open, t);
        PushedContent(QueueOf(s, k), t);
      }
    }
    forall u | u in s'.open && u.queueKey.Some? ensures u in Content(QueueOf(s', u.queueKey.value)) {
      if t.queueKey == u.queueKey {
        PushedContent(QueueOf(s, u.queueKey.value), t);
      }
    }
  }

  /** When the running task ends, the ones behind it are still open. */
  lemma EndBelongs(t: Task, rest: seq<Task>, k: string, open: set<Task>)
    requires Belong([t] + rest, k, open)
    ensures Belong(rest, k, open - {t}) && t in open && t.queueKey == Some(k)
  {
    var ts := [t] + rest;
    assert ts[0] == t;
    forall i | 0 <= i < |rest| ensures t.id < rest[i].id && rest[i] in ts {
      assert ts[i + 1] == rest[i];
    }
    forall i, j | 0 <= i < j < |rest| ensures rest[i].id < rest[j].id {
      assert ts[i + 1] == rest[i] && ts[j + 1] == rest[j];
    }
  }

  lemma TaskEndKeepsOpen(s: State, k: string)
    requires OpenInv(s) && Enabled(s, TaskEnd(k))
    ensures OpenInv(Step(s, TaskEnd(k))) && s.queues[k].running.value in s.open
  {
    var s', q := Step(s, TaskEnd(k)), s.queues[k];
    var t := q.running.value;
    assert Belong(Content(QueueOf(s, k)), k, s.open);
    EndBelongs(t, q.tasks, k, s.open);
    assert Content(QueueOf(s', k)) == q.tasks;
    forall j ensures Belong(Content(QueueOf(s', j)), j, s'.open) {
      assert Belong(Content(QueueOf(s, j)), j, s.open);
    }
    forall u | u in s'.open && u.queueKey.Some? ensures u in Content(QueueOf(s', u.queueKey.value)) {
      assert u in Content(QueueOf(s, u.queueKey.value));
    }
  }

  lemma SameContentKeepsOpen(s: State, s': State)
    requires OpenInv(s) && s'.open == s.open && |s'.pushes| >= |s.pushes|
    requires forall k :: Content(QueueOf(s', k)) == Content(QueueOf(s, k))
    ensures OpenInv(s')
  {
    forall k ensures Belong(Content(QueueOf(s', k)), k, s'.open) {
      assert Belong(Content(QueueOf(s, k)), k, s.open);
    }
  }

  lemma LooseEndKeepsOpen(s: State, t: Task)
    requires OpenInv(s) && t in s.open && t.queueKey.None?
    ensures OpenInv(OnTaskEnd(s, t))
  {
    var s' := OnTaskEnd(s, t);
    forall k ensures Belong(Content(QueueOf(s', k)), k, s'.open) {
      assert Belong(Content(QueueOf(s, k)), k, s.open) && QueueOf(s', k) == QueueOf(s, k);
    }
  }

  lemma PushKeeps(s: State, qk: Option<string>, dk: Option<string>)
    requires Inv(s)
    ensures Inv(Step(s, Push(qk, dk)))
  {
    var t := Task(|s.pushes|, qk, dk);
    if Duplicate(s, t) {
      SameContentKeepsOpen(s, Step(s, Push(qk, dk)));
    } else {
      AcceptKeepsOpen(s, t);
      AcceptKeepsDedupe(s, t);
      assert multiset(s.open + {t}) == multiset(s.open) + multiset{t};
    }
  }

  lemma SkipKeeps(s: State, i: nat)
    requires Inv(s) && i < |s.skipped|
    ensures Inv(Step(s, SkipDone(i)))
  {
    assert s.skipped == s.skipped[..i] + [s.skipped[i]] + s.skipped[i + 1..];
    SameContentKeepsOpen(s, Step(s, SkipDone(i)));
  }

  lemma TaskEndKeeps(s: State, k: string)
    requires Inv(s) && Enabled(s, TaskEnd(k))
    ensures Inv(Step(s, TaskEnd(k)))
  {
    TaskEndKeepsOpen(s, k);
    EndKeeps(s, s.queues[k].running.value);
  }

  lemma LooseEndKeeps(s: State, t: Task)
    requires Inv(s) && Enabled(s, LooseEnd(t))
    ensures Inv(Step(s, LooseEnd(t)))
  {
    LooseEndKeepsOpen(s, t);
    EndKeeps(s, t);
  }

  lemma StartedContent(q: Queue)
    requires q.running.None? && q.tasks != []
    ensures Content(q.(running := Some(q.tasks[0]), tasks := q.tasks[1..])) == Content(q)
  {
    assert q.tasks == [q.tasks[0]] + q.tasks[1..];
  }

  lemma StartKeeps(s: State, key: string)
    requires Inv(s) && Enabled(s, Start(key))
    ensures Inv(Step(s, Start(key)))
  {
    var s' := Step(s, Start(key));
    StartedContent(s.queues[key]);
    forall k ensures Content(QueueOf(s', k)) == Content(QueueOf(s, k)) {
      assert k != key ==> QueueOf(s', k) == QueueOf(s, k);
    }
    SameContentKeepsOpen(s, s');
  }

  lemma AfterEndKeeps(s: State, key: string)
    requires Inv(s) && Enabled(s, AfterEnd(key))
    ensures Inv(Step(s, AfterEnd(key)))
  {
    var s' := Step(s, AfterEnd(key));
    forall k ensures Content(QueueOf(s', k)) == Content(QueueOf(s, k)) {
      assert k != key ==> QueueOf(s', k) == QueueOf(s, k);
    }
    SameContentKeepsOpen(s, s');
  }

  lemma StepKeeps(s: State, e: Event)
    requires Inv(s) && Enabled(s, e)
    ensures Inv(Step(s, e))
  {
    match e
    case Push(qk, dk) => PushKeeps(s, qk, dk);
    case SkipDone(i) => SkipKeeps(s, i);
    case Start(k) => StartKeeps(s, k);
    case TaskEnd(k) => TaskEndKeeps(s, k);
    case AfterEnd(k) => AfterEndKeeps(s, k);
    case LooseEnd(t) => LooseEndKeeps(s, t);
  }

  lemma {:induction false} RunKeeps(s: State, es: seq<Event>)
    requires Inv(s) && Run(s, es)
    ensures Inv(Exec(s, es))
    decreases |es|
  {
    if es != [] {
      StepKeeps(s, es[0]);
      RunKeeps(Step(s, es[0]), es[1..]);
    }
  }

  lemma {:induction false} RunKeepsKey(s: State, es: seq<Event>, k: string)
    requires KeyInv(s, k) && Run(s, es)
    ensures KeyInv(Exec(s, es), k)
    decreases |es|
  {
    if es != [] {
      KeyKeeps(s, es[0], k);
      RunKeepsKey(Step(s, es[0]), es[1..], k);
    }
  }

  // What the scheduler promises

  /**
    In every run the tasks of a key started are a prefix of the ones accepted, and all but the running
    one finished.
   */
  lemma SerialPerKey(es: seq<Event>, k: string)
    requires Run(Init(), es)
    ensures var s := Exec(Init(), es); var log := LogOf(s, k);
            && log.started <= log.accepted && log.finished <= log.started
            && |log.started| - |log.finished| <= 1
  {
    RunKeepsKey(Init(), es, k);
  }

  /**
    In every run the queue of a key holds its accepted tasks that are not finished, in push order, and
    an absent one stands for none.
   */
  lemma QueueHoldsTheUnfinished(es: seq<Event>, k: string)
    requires Run(Init(), es)
    ensures var s := Exec(Init(), es); LogOf(s, k).accepted == LogOf(s, k).finished + Content(QueueOf(s, k))
  {
    RunKeepsKey(Init(), es, k);
    SerialContent(QueueOf(Exec(Init(), es), k), LogOf(Exec(Init(), es), k));
  }

  lemma SerialContent(q: Queue, log: Log)
    requires SerialInOrder(q, log)
    ensures log.accepted == log.finished + Content(q)
  {
  }

  /** No task is between its callback and the idle test. */
  predicate Settled(s: State) {
    forall k :: k in s.queues ==> !s.queues[k].ending
  }

  /** In every settled state there is a queue exactly for the keys with an unfinished task. */
  lemma QueuesAreTheBusyKeys(es: seq<Event>, k: string)
    requires Run(Init(), es) && Settled(Exec(Init(), es))
    ensures var s := Exec(Init(), es);
            k in s.queues <==> exists t :: t in s.open && t.queueKey == Some(k)
  {
    RunKeeps(Init(), es);
    RunKeepsKey(Init(), es, k);
    var s := Exec(Init(), es);
    if k in s.queues {
      var t := Content(s.queues[k])[0];
      assert Belong(Content(QueueOf(s, k)), k, s.open) && t in Content(s.queues[k]);
      assert t in s.open && t.queueKey == Some(k);
    }
  }

  /** In every state the dedupe cache is the dedupe keys of the unfinished tasks, and no two of them share one. */
  lemma DedupeIsExact(es: seq<Event>)
    requires Run(Init(), es)
    ensures DedupeExact(Exec(Init(), es).dedupe, Exec(Init(), es).open)
  {
    RunKeeps(Init(), es);
  }

  /** Some unfinished task has the dedupe key. */
  ghost predicate InUse(open: set<Task>, dedupeKey: Option<string>) {
    dedupeKey.Some? && exists u :: u in open && u.dedupeKey == dedupeKey
  }

  /**
    In every run a push is skipped if and only if it has a dedupe key and some unfinished task has
    the same one; else it is accepted.
   */
  lemma SkippedExactly(es: seq<Event>, qk: Option<string>, dk: Option<string>)
    requires Run(Init(), es)
    ensures var s := Exec(Init(), es); var s', t := Step(s, Push(qk, dk)), Task(|s.pushes|, qk, dk);
            if InUse(s.open, dk) then s'.skipped == s.skipped + [t] && s'.open == s.open && s'.queues == s.queues
            else s'.skipped == s.skipped && s'.open == s.open + {t}
                 && (qk.Some? ==> QueueOf(s', qk.value).tasks == QueueOf(s, qk.value).tasks + [t])
  {
    hide *;
    DedupeIsExact(es);
    PushIsExact(Exec(Init(), es), qk, dk);
  }

  lemma PushIsExact(s: State, qk: Option<string>, dk: Option<string>)
    requires DedupeExact(s.dedupe, s.open)
    ensures Duplicate(s, Task(|s.pushes|, qk, dk)) <==> InUse(s.open, dk)
    ensures var s', t := Step(s, Push(qk, dk)), Task(|s.pushes|, qk, dk);
            if InUse(s.open, dk) then s'.skipped == s.skipped + [t] && s'.open == s.open && s'.queues == s.queues
            else s'.skipped == s.skipped && s'.open == s.open + {t}
                 && (qk.Some? ==> QueueOf(s', qk.value).tasks == QueueOf(s, qk.value).tasks + [t])
  {
  }

  /** Once no task is unfinished and no skip is untold, each push had `done` called exactly once. */
  lemma EachPushIsDoneOnce(es: seq<Event>)
    requires Run(Init(), es)
    ensures var s := Exec(Init(), es);
            && multiset(s.pushes) == multiset(s.dones) + multiset(s.skipped) + multiset(s.open)
            && (s.open == {} && s.skipped == [] ==> multiset(s.dones) == multiset(s.pushes))
  {
    RunKeeps(Init(), es);
  }

  /** The scheduler object. */
  class Scheduler {
    var queues: map<string, Queue>
    var dedupe: set<string>
    ghost var logs: map<string, Log>
    ghost var pushes: seq<Task>
    ghost var open: set<Task>
    ghost var skipped: seq<Task>
    ghost var dones: seq<Task>

    ghost function View(): State
      reads this
    {
      State(queues, dedupe, logs, pushes, open, skipped, dones)
    }

    constructor ()
      ensures View() == Init()
    {
      queues, dedupe, logs, pushes, open, skipped, dones := map[], {}, map[], [], {}, [], [];
    }

    method GetTaskQueue(key: string) returns (q: Queue)
      ensures q == QueueOf(View(), key)
    {
      q := if key in queues then queues[key] else Queue(None, [], false);
    }

    /** `accepted` tells that the task will be processed; a skipped one only has its `done` called. */
    method DoPush(t: Task) returns (accepted: bool)
      requires t.id == |pushes|
      modifies this
      ensures View() == Step(old(View()), Push(t.queueKey, t.dedupeKey))
      ensures old(DedupeExact(dedupe, open)) ==> (accepted <==> !InUse(old(open), t.dedupeKey))
      ensures pushes == old(pushes) + [t] && dones == old(dones)
      ensures if accepted then open == old(open) + {t} && skipped == old(skipped)
              else open == old(open) && skipped == old(skipped) + [t] && queues == old(queues) && dedupe == old(dedupe)
      ensures accepted && t.queueKey.Some? ==>
                && t.queueKey.value in queues
                && queues[t.queueKey.value].tasks == old(QueueOf(View(), t.queueKey.value)).tasks + [t]
                && queues[t.queueKey.value].running == old(QueueOf(View(), t.queueKey.value)).running
    {
      if DedupeExact(dedupe, open) {
        PushIsExact(View(), t.queueKey, t.dedupeKey);
      }
      hide DedupeExact, InUse;
      if t.dedupeKey.Some? {
        if t.dedupeKey.value in dedupe {
          pushes, skipped := pushes + [t], skipped + [t];
          return false;
        }
        dedupe := dedupe + {t.dedupeKey.value};
      }
      if t.queueKey.Some? {
        var key := t.queueKey.value;
        var q := GetTaskQueue(key);
        queues := queues[key := q.(tasks := q.tasks + [t])];
        logs := logs[key := LogOf(View(), key).(accepted := LogOf(View(), key).accepted + [t])];
      }
      pushes, open := pushes + [t], open + {t};
      return true;
    }

    method DoTaskEnd(key: string)
      requires Enabled(View(), TaskEnd(key))
      modifies this
      ensures View() == Step(old(View()), TaskEnd(key))
      ensures var q := old(queues[key]); var t := q.running.value;
              && queues == old(queues)[key := Queue(None, q.tasks, true)]
              && dedupe == (if t.dedupeKey.Some? then old(dedupe) - {t.dedupeKey.value} else old(dedupe))
              && open == old(open) - {t} && dones == old(dones) + [t] && skipped == old(skipped)
    {
      var q := queues[key];
      var t := q.running.value;
      queues := queues[key := q.(running := None, ending := true)];
      if t.dedupeKey.Some? {
        dedupe := dedupe - {t.dedupeKey.value};
      }
      logs := logs[key := LogOf(View(), key).(finished := LogOf(View(), key).finished + [t])];
      open, dones := open - {t}, dones + [t];
    }

    /** The idle test after a task, with the drain hook that deletes the queue. */
    method DoAfterEnd(key: string)
      requires Enabled(View(), AfterEnd(key))
      modifies this
      ensures View() == Step(old(View()), AfterEnd(key))
      ensures var q := old(queues[key]);
              queues == if q.running.None? && q.tasks == [] then old(queues) - {key}
                        else old(queues)[key := Queue(q.running, q.tasks, false)]
    {
      var q := queues[key];
      if q.running.None? && q.tasks == [] {
        queues := queues - {key};
      } else {
        queues := queues[key := q.(ending := false)];
      }
    }
  }
}
