/** Topics and their contents, and what a log publishes to them. */
module Topics {
  import opened Positions

  type Topic = string
  type Message = string

  function Contents(topics: map<Topic, seq<Message>>, t: Topic): seq<Message> {
    if t in topics then topics[t] else []
  }

  function Append(topics: map<Topic, seq<Message>>, t: Topic, ms: seq<Message>): (r: map<Topic, seq<Message>>)
    ensures Contents(r, t) == Contents(topics, t) + ms
    ensures forall u :: u != t ==> Contents(r, u) == Contents(topics, u)
  {
    topics[t := Contents(topics, t) + ms]
  }

  /** What a stretch of a log publishes to a topic, when `publishes` says what one record does. */
  function LogMessages<R>(log: seq<R>, publishes: (R, Topic) -> seq<Message>, t: Topic): seq<Message> {
    if log == [] then []
    else LogMessages(log[..|log| - 1], publishes, t) + publishes(log[|log| - 1], t)
  }

  /** The messages cut into what each record publishes, in log order. */
  ghost predicate CutByRecord<R>(log: seq<R>, publishes: (R, Topic) -> seq<Message>, t: Topic, ms: seq<Message>,
      cuts: seq<nat>) {
    && Cuts(cuts, |log|, |ms|)
    && forall i :: 0 <= i < |log| ==> ms[cuts[i]..cuts[i + 1]] == publishes(log[i], t)
  }

  lemma {:induction false} LogMessagesAreExact<R>(log: seq<R>, publishes: (R, Topic) -> seq<Message>, t: Topic)
    returns (cuts: seq<nat>)
    ensures CutByRecord(log, publishes, t, LogMessages(log, publishes, t), cuts)
  {
    if log == [] {
      cuts := [0];
    } else {
      var init, last := log[..|log| - 1], log[|log| - 1];
      var before, more := LogMessages(init, publishes, t), publishes(last, t);
      var cs := LogMessagesAreExact(init, publishes, t);
      OneMoreCut(cs, |init|, |before|, |more|);
      cuts := cs + [|before| + |more|];
      forall i | 0 <= i < |log| ensures (before + more)[cuts[i]..cuts[i + 1]] == publishes(log[i], t) {
        if i < |init| {
          assert before[cs[i]..cs[i + 1]] == (before + more)[cs[i]..cs[i + 1]];
        }
      }
    }
  }

  lemma {:induction false} LogMessagesConcat<R>(a: seq<R>, b: seq<R>, publishes: (R, Topic) -> seq<Message>, t: Topic)
    ensures LogMessages(a + b, publishes, t) == LogMessages(a, publishes, t) + LogMessages(b, publishes, t)
  {
    if b == [] {
      assert a + b == a;
    } else {
      LogMessagesConcat(a, b[..|b| - 1], publishes, t);
      assert (a + b)[..|a + b| - 1] == a + b[..|b| - 1];
    }
  }

  lemma LogMessagesSplit<R>(log: seq<R>, publishes: (R, Topic) -> seq<Message>, lo: nat, mid: nat, hi: nat, t: Topic)
    requires lo <= mid <= hi <= |log|
    ensures LogMessages(log[lo..hi], publishes, t) ==
            LogMessages(log[lo..mid], publishes, t) + LogMessages(log[mid..hi], publishes, t)
  {
    assert log[lo..hi] == log[lo..mid] + log[mid..hi];
    LogMessagesConcat(log[lo..mid], log[mid..hi], publishes, t);
  }
}
