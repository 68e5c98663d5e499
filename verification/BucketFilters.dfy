/**
  The two ways an extension tells whether a bucket uses it: a MongoDB filter, run at start-up
  over all buckets, and a JavaScript predicate, run on the bucket of a change event.
 */
module BucketFilters {
  import opened Options
  import opened MongoQuery

  /** A document of the metastore, for the metadata of a bucket. */
  function Doc(md: Json): Json {
    Obj(map["value" := md])
  }

  /** `md[conf] && md[conf].rules` */
  function Rules(md: Json, conf: string): Option<Json> {
    match Get(md, conf)
    case Some(c) => Get(c, "rules")
    case None => None
  }

  predicate Falsy(v: Json) {
    v == Null || v == Bool(false) || v == Num(0) || v == Str("")
  }

  /** The common shape of the predicates: no rules, or some rule that satisfies the test. */
  function SomeRule(md: Json, conf: string, test: Json -> Outcome): Outcome {
    if md == Null then Throws
    else
      var rules := Rules(md, conf);
      if rules.None? || Falsy(rules.value) || Get(rules.value, "length") == Some(Num(0)) then Returned(false)
      else SomeOf(rules, test)
  }

  // Replication

  function ReplicationFilter(): Query {
    At(["value", "replicationConfiguration", "rules"], ElemMatch(At(["enabled"], Equals(Bool(true)))))
  }

  function EnabledRule(rule: Json): Outcome {
    if rule == Null then Throws else Returned(Get(rule, "enabled") == Some(Bool(true)))
  }

  function ReplicationEnabled(md: Json): Outcome {
    SomeRule(md, "replicationConfiguration", EnabledRule)
  }

  // Notification

  function NotificationFilter(): Query {
    At(["value", "notificationConfiguration"], HasTypeObject)
  }

  function NotificationEnabled(md: Json): Outcome {
    if md == Null then Throws else Returned(Get(md, "notificationConfiguration") != Some(Null))
  }

  // Lifecycle

  const TRANSITION: string := "Transition"
  const NONCURRENT: string := "NoncurrentVersionTransition"
  const TRANSITION_LIST: string := "transition"
  const NONCURRENT_LIST: string := "nonCurrentVersionTransition"

  function Strs(names: seq<string>): seq<Json> {
    seq(|names|, i requires 0 <= i < |names| => Str(names[i]))
  }

  function ColdQuery(cold: seq<string>): Query {
    At(["storageClass"], In(Strs(cold)))
  }

  /** Some transition of the list goes to a cold location. */
  function ColdListQuery(cold: seq<string>, list: string): Query {
    At([list], ElemMatch(ColdQuery(cold)))
  }

  function NamedQuery(): Query {
    At(["actionName"], In([Str(TRANSITION), Str(NONCURRENT)]))
  }

  function ActionsQuery(q: Query): Query {
    At(["actions"], ElemMatch(q))
  }

  function StatusQuery(): Query {
    At(["ruleStatus"], Equals(Str("Enabled")))
  }

  function RuleQuery(cold: seq<string>): Query {
    And([ActionsQuery(NamedQuery()),
         Or([StatusQuery(),
             ActionsQuery(ColdListQuery(cold, TRANSITION_LIST)),
             ActionsQuery(ColdListQuery(cold, NONCURRENT_LIST))])])
  }

  function LifecycleFilter(cold: seq<string>): Query {
    At(["value", "lifecycleConfiguration", "rules"], ElemMatch(RuleQuery(cold)))
  }

  predicate HasName(action: Json, name: string) {
    Get(action, "actionName") == Some(Str(name))
  }

  function NamedAction(action: Json): Outcome {
    if action == Null then Throws else Returned(HasName(action, TRANSITION) || HasName(action, NONCURRENT))
  }

  function ColdTransition(cold: seq<string>): Json -> Outcome {
    t => if t == Null then Throws
         else match Get(t, "storageClass")
              case Some(Str(name)) => Returned(name in cold)
              case _ => Returned(false)
  }

  function ColdAction(cold: seq<string>): Json -> Outcome {
    action => if action == Null then Throws
              else if HasName(action, TRANSITION) then SomeOf(Get(action, TRANSITION_LIST), ColdTransition(cold))
              else if HasName(action, NONCURRENT) then SomeOf(Get(action, NONCURRENT_LIST), ColdTransition(cold))
              else Returned(false)
  }

  predicate IsEnabled(rule: Json) {
    Get(rule, "ruleStatus") == Some(Str("Enabled"))
  }

  function TransitionRule(cold: seq<string>): Json -> Outcome {
    rule => if rule == Null then Throws
            else if IsEnabled(rule) then SomeOf(Get(rule, "actions"), NamedAction)
            else SomeOf(Get(rule, "actions"), ColdAction(cold))
  }

  function LifecycleEnabled(md: Json, cold: seq<string>): Outcome {
    SomeRule(md, "lifecycleConfiguration", TransitionRule(cold))
  }

  // The documents that buckets have

  predicate NoneOrString(v: Option<Json>) {
    v.None? || v.value.Str?
  }

  predicate ShapedTransition(t: Json) {
    t.Obj? && NoneOrString(Get(t, "storageClass"))
  }

  predicate ShapedList(v: Option<Json>) {
    v.Some? && v.value.Arr? && forall i :: 0 <= i < |v.value.items| ==> ShapedTransition(v.value.items[i])
  }

  /** A transition action carries the list that goes with its name. */
  predicate ShapedAction(a: Json) {
    && a.Obj? && NoneOrString(Get(a, "actionName"))
    && (HasName(a, TRANSITION) || Get(a, TRANSITION_LIST).Some? ==> ShapedList(Get(a, TRANSITION_LIST)))
    && (HasName(a, NONCURRENT) || Get(a, NONCURRENT_LIST).Some? ==> ShapedList(Get(a, NONCURRENT_LIST)))
  }

  predicate ShapedTransitionRule(r: Json) {
    && r.Obj? && NoneOrString(Get(r, "ruleStatus"))
    && Get(r, "actions").Some? && Get(r, "actions").value.Arr?
    && forall i :: 0 <= i < |Get(r, "actions").value.items| ==> ShapedAction(Get(r, "actions").value.items[i])
  }

  predicate ShapedReplicationRule(r: Json) {
    r.Obj? && (Get(r, "enabled").None? || Get(r, "enabled").value.Bool?)
  }

  /** The metadata is an object, and its rules are absent or an array. */
  predicate HasRules(md: Json, conf: string) {
    && md.Obj?
    && (Get(md, conf).None? || Get(md, conf).value == Null || Get(md, conf).value.Obj?)
    && (Rules(md, conf).None? || Rules(md, conf).value == Null || Rules(md, conf).value.Arr?)
  }

  function RuleList(md: Json, conf: string): seq<Json> {
    match Rules(md, conf)
    case Some(Arr(rules)) => rules
    case _ => []
  }

  predicate ShapedReplication(md: Json) {
    HasRules(md, "replicationConfiguration")
    && forall i :: 0 <= i < |RuleList(md, "replicationConfiguration")| ==>
       ShapedReplicationRule(RuleList(md, "replicationConfiguration")[i])
  }

  predicate ShapedLifecycle(md: Json) {
    HasRules(md, "lifecycleConfiguration")
    && forall i :: 0 <= i < |RuleList(md, "lifecycleConfiguration")| ==>
       ShapedTransitionRule(RuleList(md, "lifecycleConfiguration")[i])
  }

  // One step of a query

  lemma AtField(v: Json, name: string, cond: Cond)
    requires v.Obj?
    ensures Matches(v, At([name], cond)) <==> Get(v, name).Some? && MatchesValue(Get(v, name).value, cond)
  {
    assert [name][1..] == [];
    if name in v.fields {
      assert MatchesPath(v.fields[name], [], cond) == MatchesValue(v.fields[name], cond);
    }
    assert Matches(v, At([name], cond)) == MatchesPath(v, [name], cond);
  }

  predicate SomeMatch(items: seq<Json>, q: Query) {
    exists i :: 0 <= i < |items| && items[i].Obj? && Matches(items[i], q)
  }

  lemma ElemMatchIs(v: Json, q: Query)
    ensures MatchesValue(v, ElemMatch(q)) <==> v.Arr? && SomeMatch(v.items, q)
  {
  }

  /** The filter of an extension with rules looks for one in the list. */
  lemma AtRules(md: Json, conf: string, q: Query)
    requires HasRules(md, conf)
    ensures Matches(Doc(md), At(["value", conf, "rules"], ElemMatch(q))) <==>
            SomeMatch(RuleList(md, conf), q)
  {
    var path, cond := ["value", conf, "rules"], ElemMatch(q);
    assert path[1..] == [conf, "rules"] && [conf, "rules"][1..] == ["rules"] && ["rules"][1..] == [];
    assert Matches(Doc(md), At(path, cond)) == MatchesPath(Doc(md), path, cond);
    assert MatchesPath(Doc(md), path, cond) == MatchesPath(md, [conf, "rules"], cond);
    if Get(md, conf).Some? {
      var c := Get(md, conf).value;
      assert MatchesPath(md, [conf, "rules"], cond) == MatchesPath(c, ["rules"], cond);
      if Get(c, "rules").Some? {
        var rules := Get(c, "rules").value;
        assert MatchesPath(c, ["rules"], cond) == MatchesPath(rules, [], cond) == MatchesValue(rules, cond);
        ElemMatchIs(rules, q);
      }
    }
  }

  lemma SomeRuleIs(md: Json, conf: string, test: Json -> Outcome)
    requires HasRules(md, conf) && forall i :: 0 <= i < |RuleList(md, conf)| ==> test(RuleList(md, conf)[i]).Returned?
    ensures SomeRule(md, conf, test) ==
            Returned(exists i :: 0 <= i < |RuleList(md, conf)| && test(RuleList(md, conf)[i]) == Returned(true))
  {
    SomeItemIs(RuleList(md, conf), test);
  }

  /**
    Exactly when a predicate over rules throws: there is no metadata, or the rules are something
    else than an array, or the first rule that the test does not refuse makes it throw.
   */
  lemma SomeRuleThrowsExactly(md: Json, conf: string, test: Json -> Outcome)
    ensures SomeRule(md, conf, test) == Throws <==>
            || md == Null
            || (Rules(md, conf).Some? && var rules := Rules(md, conf).value;
                && !rules.Arr? && Get(rules, "length") != Some(Num(0))
                && rules != Null && rules != Bool(false) && rules != Num(0) && rules != Str(""))
            || (Rules(md, conf).Some? && Rules(md, conf).value.Arr?
                && exists k: nat :: FirstNot(Rules(md, conf).value.items, test, k)
                                    && test(Rules(md, conf).value.items[k]) == Throws)
  {
    if Rules(md, conf).Some? && Rules(md, conf).value.Arr? {
      FirstDecides(Rules(md, conf).value.items, test);
    }
  }

  // What the predicates mean

  predicate HasText(v: Json, name: string, text: string) {
    Get(v, name) == Some(Str(text))
  }

  /** Some transition in this list of the action goes to a cold location. */
  ghost predicate ListsCold(cold: seq<string>, action: Json, list: string) {
    && Get(action, list).Some? && Get(action, list).value.Arr?
    && var items := Get(action, list).value.items;
    exists k, name :: 0 <= k < |items| && name in cold && HasText(items[k], "storageClass", name)
  }

  /** An action that moves objects, of either kind. */
  predicate Moves(action: Json) {
    HasText(action, "actionName", "Transition") || HasText(action, "actionName", "NoncurrentVersionTransition")
  }

  ghost predicate MovesToCold(cold: seq<string>, action: Json) {
    || (HasText(action, "actionName", "Transition") && ListsCold(cold, action, "transition"))
    || (HasText(action, "actionName", "NoncurrentVersionTransition")
        && ListsCold(cold, action, "nonCurrentVersionTransition"))
  }

  /** An enabled rule with a transition, or a rule with a transition to a cold location. */
  ghost predicate NeedsLifecycle(cold: seq<string>, rule: Json)
    requires ShapedTransitionRule(rule)
  {
    exists j :: 0 <= j < |Actions(rule)| &&
      if HasText(rule, "ruleStatus", "Enabled") then Moves(Actions(rule)[j]) else MovesToCold(cold, Actions(rule)[j])
  }

  lemma ListsColdIs(cold: seq<string>, action: Json, list: string)
    requires action.Obj? && ShapedList(Get(action, list))
    ensures ColdIn(cold, action, list) <==> ListsCold(cold, action, list)
  {
    var items := Get(action, list).value.items;
    ColdListIs(cold, action, list);
    forall k | 0 <= k < |items| ensures ColdTransition(cold)(items[k]).Returned? {
      ColdTransitionIs(cold, items[k]);
    }
    SomeItemIs(items, ColdTransition(cold));
    if k :| 0 <= k < |items| && ColdTransition(cold)(items[k]) == Returned(true) {
      var name := Get(items[k], "storageClass").value.text;
      assert name in cold && HasText(items[k], "storageClass", name);
    }
  }

  lemma NeedsLifecycleIs(cold: seq<string>, rule: Json)
    requires ShapedTransitionRule(rule)
    ensures TransitionRule(cold)(rule) == Returned(NeedsLifecycle(cold, rule))
  {
    TransitionRuleIs(cold, rule);
    forall j | 0 <= j < |Actions(rule)|
      ensures Named(Actions(rule)[j]) <==> Moves(Actions(rule)[j])
      ensures ColdByName(cold, Actions(rule)[j]) <==> MovesToCold(cold, Actions(rule)[j])
    {
      var a := Actions(rule)[j];
      assert ShapedAction(a);
      if HasName(a, TRANSITION) {
        ListsColdIs(cold, a, TRANSITION_LIST);
      }
      if HasName(a, NONCURRENT) {
        ListsColdIs(cold, a, NONCURRENT_LIST);
      }
    }
    hide Named, Moves, ColdByName, MovesToCold, TransitionRule;
  }

  /** A bucket needs lifecycle when some rule of it does. */
  lemma LifecycleEnabledIs(cold: seq<string>, md: Json)
    requires ShapedLifecycle(md)
    ensures var rules := RuleList(md, "lifecycleConfiguration");
            LifecycleEnabled(md, cold) ==
            Returned(exists i :: 0 <= i < |rules| && ShapedTransitionRule(rules[i]) && NeedsLifecycle(cold, rules[i]))
  {
    var rules := RuleList(md, "lifecycleConfiguration");
    forall i | 0 <= i < |rules|
      ensures ShapedTransitionRule(rules[i])
      ensures TransitionRule(cold)(rules[i]) == Returned(NeedsLifecycle(cold, rules[i]))
    {
      NeedsLifecycleIs(cold, rules[i]);
    }
    SomeRuleIs(md, "lifecycleConfiguration", TransitionRule(cold));
  }

  /** A bucket needs replication when some rule of it is enabled. */
  lemma ReplicationEnabledIs(md: Json)
    requires ShapedReplication(md)
    ensures var rules := RuleList(md, "replicationConfiguration");
            ReplicationEnabled(md) ==
            Returned(exists i :: 0 <= i < |rules| && Get(rules[i], "enabled") == Some(Bool(true)))
  {
    var rules := RuleList(md, "replicationConfiguration");
    forall i | 0 <= i < |rules|
      ensures EnabledRule(rules[i]) == Returned(Get(rules[i], "enabled") == Some(Bool(true)))
    {
      assert ShapedReplicationRule(rules[i]);
    }
    SomeRuleIs(md, "replicationConfiguration", EnabledRule);
  }

  // Agreement

  /** The replication filter and predicate agree. */
  lemma ReplicationAgrees(md: Json)
    requires ShapedReplication(md)
    ensures ReplicationEnabled(md) == Returned(Matches(Doc(md), ReplicationFilter()))
  {
    var rules := RuleList(md, "replicationConfiguration");
    AtRules(md, "replicationConfiguration", At(["enabled"], Equals(Bool(true))));
    forall i | 0 <= i < |rules|
      ensures EnabledRule(rules[i]) == Returned(Matches(rules[i], At(["enabled"], Equals(Bool(true))))) {
      assert ShapedReplicationRule(rules[i]);
      AtField(rules[i], "enabled", Equals(Bool(true)));
    }
    SomeRuleIs(md, "replicationConfiguration", EnabledRule);
  }

  /** An object, or an array that holds one. */
  predicate ObjectOrHoldsOne(v: Json) {
    v.Obj? || (v.Arr? && exists i :: 0 <= i < |v.items| && v.items[i].Obj?)
  }

  /**
    The notification filter and predicate agree exactly when the field is there, as null, an object or
    an array with one.
   */
  lemma NotificationAgreesExactly(md: Json)
    requires md.Obj?
    ensures var conf := Get(md, "notificationConfiguration");
            && (Matches(Doc(md), NotificationFilter()) <==> conf.Some? && ObjectOrHoldsOne(conf.value))
            && (NotificationEnabled(md) == Returned(Matches(Doc(md), NotificationFilter()))
                <==> conf.Some? && (conf.value == Null || ObjectOrHoldsOne(conf.value)))
  {
    var path, last := ["value", "notificationConfiguration"], ["notificationConfiguration"];
    assert path[1..] == last;
    assert Matches(Doc(md), NotificationFilter()) == MatchesPath(Doc(md), path, HasTypeObject);
    assert MatchesPath(Doc(md), path, HasTypeObject) == MatchesPath(md, last, HasTypeObject);
    AtField(md, "notificationConfiguration", HasTypeObject);
    assert Matches(md, At(last, HasTypeObject)) == MatchesPath(md, last, HasTypeObject);
  }

  lemma StrsHas(names: seq<string>, name: string)
    ensures Str(name) in Strs(names) <==> name in names
  {
    if name in names {
      var i :| 0 <= i < |names| && names[i] == name;
      assert Strs(names)[i] == Str(name);
    }
  }

  lemma ColdTransitionIs(cold: seq<string>, t: Json)
    requires ShapedTransition(t)
    ensures ColdTransition(cold)(t) == Returned(Matches(t, ColdQuery(cold)))
  {
    AtField(t, "storageClass", In(Strs(cold)));
    match Get(t, "storageClass")
    case Some(Str(name)) => StrsHas(cold, name);
    case _ =>
  }

  /** A rule lists a cold location under `list` in action `a`. */
  predicate ColdIn(cold: seq<string>, a: Json, list: string) {
    Matches(a, ColdListQuery(cold, list))
  }

  lemma ColdListIs(cold: seq<string>, a: Json, list: string)
    requires a.Obj? && ShapedList(Get(a, list))
    ensures SomeOf(Get(a, list), ColdTransition(cold)) == Returned(ColdIn(cold, a, list))
  {
    var items := Get(a, list).value.items;
    AtField(a, list, ElemMatch(ColdQuery(cold)));
    forall i | 0 <= i < |items| ensures ColdTransition(cold)(items[i]) == Returned(Matches(items[i], ColdQuery(cold))) {
      ColdTransitionIs(cold, items[i]);
    }
    SomeItemIs(items, ColdTransition(cold));
  }

  /** The cold list of an action is under its name. */
  predicate ColdByName(cold: seq<string>, a: Json) {
    (HasName(a, TRANSITION) && ColdIn(cold, a, TRANSITION_LIST))
      || (HasName(a, NONCURRENT) && ColdIn(cold, a, NONCURRENT_LIST))
  }

  /** The action has a cold list that does not go with its name. */
  predicate Stray(cold: seq<string>, a: Json) {
    (!HasName(a, TRANSITION) && ColdIn(cold, a, TRANSITION_LIST))
      || (!HasName(a, NONCURRENT) && ColdIn(cold, a, NONCURRENT_LIST))
  }

  predicate Named(a: Json) {
    HasName(a, TRANSITION) || HasName(a, NONCURRENT)
  }

  lemma ColdActionIs(cold: seq<string>, a: Json)
    requires ShapedAction(a)
    ensures ColdAction(cold)(a) == Returned(ColdByName(cold, a))
  {
    if HasName(a, TRANSITION) {
      ColdListIs(cold, a, TRANSITION_LIST);
    } else if HasName(a, NONCURRENT) {
      ColdListIs(cold, a, NONCURRENT_LIST);
    }
  }

  lemma NamedQueryIs(a: Json)
    requires ShapedAction(a)
    ensures Matches(a, NamedQuery()) <==> Named(a)
  {
    AtField(a, "actionName", In([Str(TRANSITION), Str(NONCURRENT)]));
  }

  // Rules

  function Actions(rule: Json): seq<Json>
    requires ShapedTransitionRule(rule)
  {
    Get(rule, "actions").value.items
  }

  ghost predicate SomeNamed(rule: Json)
    requires ShapedTransitionRule(rule)
  {
    exists i :: 0 <= i < |Actions(rule)| && Named(Actions(rule)[i])
  }

  ghost predicate SomeColdByName(cold: seq<string>, rule: Json)
    requires ShapedTransitionRule(rule)
  {
    exists i :: 0 <= i < |Actions(rule)| && ColdByName(cold, Actions(rule)[i])
  }

  ghost predicate SomeStray(cold: seq<string>, rule: Json)
    requires ShapedTransitionRule(rule)
  {
    exists i :: 0 <= i < |Actions(rule)| && Stray(cold, Actions(rule)[i])
  }

  lemma TransitionRuleIs(cold: seq<string>, rule: Json)
    requires ShapedTransitionRule(rule)
    ensures TransitionRule(cold)(rule) ==
            Returned(if IsEnabled(rule) then SomeNamed(rule) else SomeColdByName(cold, rule))
  {
    var actions := Actions(rule);
    if IsEnabled(rule) {
      forall i | 0 <= i < |actions| ensures NamedAction(actions[i]) == Returned(Named(actions[i])) {
        assert ShapedAction(actions[i]);
      }
      SomeItemIs(actions, NamedAction);
    } else {
      forall i | 0 <= i < |actions| ensures ColdAction(cold)(actions[i]) == Returned(ColdByName(cold, actions[i])) {
        ColdActionIs(cold, actions[i]);
      }
      SomeItemIs(actions, ColdAction(cold));
    }
  }

  lemma ActionsQueryIs(rule: Json, q: Query)
    requires ShapedTransitionRule(rule)
    ensures Matches(rule, ActionsQuery(q)) <==> exists i :: 0 <= i < |Actions(rule)| && Matches(Actions(rule)[i], q)
  {
    var actions := Actions(rule);
    AtField(rule, "actions", ElemMatch(q));
    ElemMatchIs(Get(rule, "actions").value, q);
    assert Matches(rule, ActionsQuery(q)) <==> SomeMatch(actions, q);
    forall i | 0 <= i < |actions| ensures actions[i].Obj? {
      assert ShapedAction(actions[i]);
    }
    if i :| 0 <= i < |actions| && Matches(actions[i], q) {
      assert SomeMatch(actions, q);
    }
    if SomeMatch(actions, q) {
      var i :| 0 <= i < |actions| && actions[i].Obj? && Matches(actions[i], q);
      assert Matches(Actions(rule)[i], q);
    }
  }

  lemma RuleQueryIs(cold: seq<string>, rule: Json)
    requires ShapedTransitionRule(rule)
    ensures Matches(rule, RuleQuery(cold)) <==>
            && SomeNamed(rule)
            && (IsEnabled(rule) || SomeColdByName(cold, rule) || SomeStray(cold, rule))
  {
    var named, status := ActionsQuery(NamedQuery()), StatusQuery();
    var first := ActionsQuery(ColdListQuery(cold, TRANSITION_LIST));
    var second := ActionsQuery(ColdListQuery(cold, NONCURRENT_LIST));
    RuleQueryUnfolds(rule, named, status, first, second);
    ActionsQueryIs(rule, NamedQuery());
    ActionsQueryIs(rule, ColdListQuery(cold, TRANSITION_LIST));
    ActionsQueryIs(rule, ColdListQuery(cold, NONCURRENT_LIST));
    AtField(rule, "ruleStatus", Equals(Str("Enabled")));
    forall i | 0 <= i < |Actions(rule)| ensures Matches(Actions(rule)[i], NamedQuery()) <==> Named(Actions(rule)[i]) {
      NamedQueryIs(Actions(rule)[i]);
    }
    ColdAnywhere(cold, rule);
  }

  lemma RuleQueryUnfolds(doc: Json, a: Query, b: Query, c: Query, d: Query)
    ensures Matches(doc, And([a, Or([b, c, d])])) <==>
            Matches(doc, a) && (Matches(doc, b) || Matches(doc, c) || Matches(doc, d))
  {
    var or, all := [b, c, d], [a, Or([b, c, d])];
    assert or[0] == b && or[1] == c && or[2] == d && all[0] == a && all[1] == Or(or);
  }

  /** A cold list in some action is under its name or stray. */
  lemma ColdAnywhere(cold: seq<string>, rule: Json)
    requires ShapedTransitionRule(rule)
    ensures (exists i :: 0 <= i < |Actions(rule)| && Matches(Actions(rule)[i], ColdListQuery(cold, TRANSITION_LIST)))
            || (exists i :: 0 <= i < |Actions(rule)| && Matches(Actions(rule)[i], ColdListQuery(cold, NONCURRENT_LIST)))
            <==> SomeColdByName(cold, rule) || SomeStray(cold, rule)
  {
    if i :| 0 <= i < |Actions(rule)| && ColdIn(cold, Actions(rule)[i], TRANSITION_LIST) {
      assert ColdByName(cold, Actions(rule)[i]) || Stray(cold, Actions(rule)[i]);
    }
    if i :| 0 <= i < |Actions(rule)| && ColdIn(cold, Actions(rule)[i], NONCURRENT_LIST) {
      assert ColdByName(cold, Actions(rule)[i]) || Stray(cold, Actions(rule)[i]);
    }
    if i :| 0 <= i < |Actions(rule)| && (ColdByName(cold, Actions(rule)[i]) || Stray(cold, Actions(rule)[i])) {
      assert ColdIn(cold, Actions(rule)[i], TRANSITION_LIST) || ColdIn(cold, Actions(rule)[i], NONCURRENT_LIST);
    }
  }

  /** A disabled rule with a transition action where only a list under another name is cold. */
  ghost predicate StrayRule(cold: seq<string>, rule: Json)
    requires ShapedTransitionRule(rule)
  {
    !IsEnabled(rule) && SomeNamed(rule) && SomeStray(cold, rule)
  }

  lemma RuleAgreesExactly(cold: seq<string>, rule: Json)
    requires ShapedTransitionRule(rule)
    ensures TransitionRule(cold)(rule).Returned?
    ensures Matches(rule, RuleQuery(cold)) <==> TransitionRule(cold)(rule) == Returned(true) || StrayRule(cold, rule)
  {
    TransitionRuleIs(cold, rule);
    RuleQueryIs(cold, rule);
    if SomeColdByName(cold, rule) {
      var i :| 0 <= i < |Actions(rule)| && ColdByName(cold, Actions(rule)[i]);
      assert Named(Actions(rule)[i]);
    }
  }

  ghost predicate SomeStrayRule(cold: seq<string>, md: Json)
    requires ShapedLifecycle(md)
  {
    var rules := RuleList(md, "lifecycleConfiguration");
    exists i :: 0 <= i < |rules| && ShapedTransitionRule(rules[i]) && StrayRule(cold, rules[i])
  }

  /**
    The lifecycle predicate never throws, and the filter matches exactly when it holds or some
    disabled rule has a cold list under a name that is not the one of its action.
   */
  lemma LifecycleAgreesExactly(cold: seq<string>, md: Json)
    requires ShapedLifecycle(md)
    ensures LifecycleEnabled(md, cold).Returned?
    ensures Matches(Doc(md), LifecycleFilter(cold)) <==>
            LifecycleEnabled(md, cold) == Returned(true) || SomeStrayRule(cold, md)
  {
    var rules := RuleList(md, "lifecycleConfiguration");
    AtRules(md, "lifecycleConfiguration", RuleQuery(cold));
    forall i | 0 <= i < |rules|
      ensures ShapedTransitionRule(rules[i]) && TransitionRule(cold)(rules[i]).Returned?
      ensures Matches(rules[i], RuleQuery(cold)) <==>
              TransitionRule(cold)(rules[i]) == Returned(true) || StrayRule(cold, rules[i])
    {
      RuleAgreesExactly(cold, rules[i]);
    }
    SomeRuleIs(md, "lifecycleConfiguration", TransitionRule(cold));
  }

  /** The bucket whose only rule is this one. */
  function BucketWith(rule: Json): Json {
    Obj(map["lifecycleConfiguration" := Obj(map["rules" := Arr([rule])])])
  }

  /** Whenever the only rule of a bucket is stray and nothing in it is cold under its name, the two disagree. */
  lemma StrayRuleDisagrees(cold: seq<string>, rule: Json)
    requires ShapedTransitionRule(rule) && StrayRule(cold, rule) && !SomeColdByName(cold, rule)
    ensures var md := BucketWith(rule);
            ShapedLifecycle(md) && LifecycleEnabled(md, cold) == Returned(false)
              && Matches(Doc(md), LifecycleFilter(cold))
  {
    var md := BucketWith(rule);
    assert RuleList(md, "lifecycleConfiguration") == [rule];
    assert RuleList(md, "lifecycleConfiguration")[0] == rule;
    LifecycleAgreesExactly(cold, md);
    TransitionRuleIs(cold, rule);
    SomeRuleIs(md, "lifecycleConfiguration", TransitionRule(cold));
  }

  /** A transition action with an empty list of its own, and a list under the other name. */
  function StrayAction(list: seq<Json>): Json {
    Obj(map["actionName" := Str(TRANSITION), TRANSITION_LIST := Arr([]), NONCURRENT_LIST := Arr(list)])
  }

  lemma StrayActionIs(name: string)
    ensures var a := StrayAction([Obj(map["storageClass" := Str(name)])]);
            ShapedAction(a) && Named(a) && Stray([name], a) && !ColdByName([name], a)
  {
    var t := Obj(map["storageClass" := Str(name)]);
    var a := StrayAction([t]);
    assert Get(a, NONCURRENT_LIST).value.items[0] == t;
    assert ColdTransition([name])(t) == Returned(true);
    ColdListIs([name], a, TRANSITION_LIST);
    ColdListIs([name], a, NONCURRENT_LIST);
  }

  /** Such rules exist, for any cold location. */
  lemma StrayRulesExist(name: string)
    ensures exists rule :: ShapedTransitionRule(rule) && StrayRule([name], rule) && !SomeColdByName([name], rule)
  {
    var a := StrayAction([Obj(map["storageClass" := Str(name)])]);
    var rule := Obj(map["ruleStatus" := Str("Disabled"), "actions" := Arr([a])]);
    StrayActionIs(name);
    assert ShapedTransitionRule(rule) && Actions(rule) == [a];
    assert Actions(rule)[0] == a;
    assert SomeNamed(rule) && SomeStray([name], rule) && !SomeColdByName([name], rule);
    assert StrayRule([name], rule);
  }

  /** An action of a transition name without an array under the list that goes with it. */
  predicate LacksList(action: Json) {
    || (HasName(action, TRANSITION) && !(Get(action, TRANSITION_LIST).Some? && Get(action, TRANSITION_LIST).value.Arr?))
    || (HasName(action, NONCURRENT) && !(Get(action, NONCURRENT_LIST).Some? && Get(action, NONCURRENT_LIST).value.Arr?))
  }

  /** A disabled rule throws when some action lacks its list and no action before it is cold. */
  predicate LacksSomeList(cold: seq<string>, rule: Json) {
    && rule.Obj? && !IsEnabled(rule) && Get(rule, "actions").Some? && Get(rule, "actions").value.Arr?
    && var actions := Get(rule, "actions").value.items;
    exists j :: 0 <= j < |actions| && LacksList(actions[j])
                && forall i :: 0 <= i < j ==> ColdAction(cold)(actions[i]) == Returned(false)
  }

  lemma LackingActionThrows(cold: seq<string>, action: Json)
    requires LacksList(action)
    ensures ColdAction(cold)(action) == Throws
  {
  }

  lemma LackingRuleThrows(cold: seq<string>, rule: Json)
    requires LacksSomeList(cold, rule)
    ensures TransitionRule(cold)(rule) == Throws
  {
    var actions := Get(rule, "actions").value.items;
    var j :| 0 <= j < |actions| && LacksList(actions[j])
                && forall i :: 0 <= i < j ==> ColdAction(cold)(actions[i]) == Returned(false);
    LackingActionThrows(cold, actions[j]);
    SomeItemThrows(actions, ColdAction(cold), j);
  }

  /**
    The predicate throws when, before any rule that holds, a disabled rule has a transition action
    without its list.
   */
  lemma MissingListThrows(cold: seq<string>, md: Json, k: nat)
    requires md.Obj? && k < |RuleList(md, "lifecycleConfiguration")|
             && LacksSomeList(cold, RuleList(md, "lifecycleConfiguration")[k])
    requires forall i :: 0 <= i < k ==>
             TransitionRule(cold)(RuleList(md, "lifecycleConfiguration")[i]) == Returned(false)
    ensures LifecycleEnabled(md, cold) == Throws
  {
    LackingRuleThrows(cold, RuleList(md, "lifecycleConfiguration")[k]);
    SomeItemThrows(RuleList(md, "lifecycleConfiguration"), TransitionRule(cold), k);
  }
}
