/**
  The provision dispatcher: the elected leader spreads the provisions over the owners and
  writes each owner its share. Requests to dispatch that arrive during a round of writes are
  folded into one more round after it.
 */
module ProvisionDispatcher {
  import opened Options

  // Round robin

  /** Whose turn it is after `p` provisions: the owner index that the loop counts up and wraps. */
  function Turn(p: nat, n: nat): (i: nat)
    requires 0 < n
    ensures i < n
  {
    if p == 0 then 0
    else
      var i := Turn(p - 1, n) + 1;
      if i == n then 0 else i
  }

  /** The provisions dealt to owner `i` of `n`. */
  function Share(provisions: seq<string>, n: nat, i: nat): seq<string>
    requires i < n
  {
    if provisions == [] then []
    else
      var last := |provisions| - 1;
      Share(provisions[..last], n, i) + (if Turn(last, n) == i then [provisions[last]] else [])
  }

  /** Products of different factors are at least `n` apart. */
  lemma {:induction false} Spaced(a: int, b: int, n: nat)
    requires a < b
    ensures a * n + n <= b * n
    decreases b - a
  {
    NextProduct(b - 1, n);
    if a < b - 1 {
      Spaced(a, b - 1, n);
    }
  }

  lemma NextProduct(a: int, n: nat)
    ensures (a + 1) * n == a * n + n
  {
  }

  lemma DivisionIsUnique(p: nat, n: nat, q: nat, r: nat)
    requires r < n && p == r + q * n
    ensures p / n == q && p % n == r
  {
    assert p == (p % n) + (p / n) * n;
    if q > p / n {
      Spaced(p / n, q, n);
    } else if q < p / n {
      Spaced(q, p / n, n);
    }
  }

  lemma Euclid(p: nat, n: nat)
    requires 0 < n
    ensures p == p % n + (p / n) * n && 0 <= p % n < n && 0 <= p / n
  {
  }

  lemma NextRemainder(k: nat, n: nat)
    requires 0 < n
    ensures (k + 1) % n == if k % n + 1 == n then 0 else k % n + 1
  {
    Euclid(k, n);
    var q := k / n;
    if k % n + 1 == n {
      Spaced(q, q + 1, n);
      assert (q + 1) * n == q * n + n;
      DivisionIsUnique(k + 1, n, q + 1, 0);
    } else {
      DivisionIsUnique(k + 1, n, q, k % n + 1);
    }
  }

  lemma {:induction false} TurnIsRemainder(p: nat, n: nat)
    requires 0 < n
    ensures Turn(p, n) == p % n
  {
    if p == 0 {
      DivisionIsUnique(0, n, 0, 0);
    } else {
      TurnIsRemainder(p - 1, n);
      NextRemainder(p - 1, n);
    }
  }

  /** The position of the `j`-th provision dealt to owner `i`. */
  function Place(i: nat, n: nat, j: nat): nat {
    if j == 0 then i else Place(i, n, j - 1) + n
  }

  lemma {:induction false} PlaceIs(i: nat, n: nat, j: nat)
    ensures Place(i, n, j) == i + j * n
  {
    if j > 0 {
      PlaceIs(i, n, j - 1);
      assert j * n == (j - 1) * n + n;
    }
  }

  lemma {:induction false} PlaceGrows(i: nat, n: nat, a: nat, b: nat)
    requires a <= b
    ensures Place(i, n, a) <= Place(i, n, b)
  {
    if a < b {
      PlaceGrows(i, n, a, b - 1);
    }
  }

  /** Every owner has its turn once between two turns of another. */
  lemma {:induction false} PlacesAlternate(i: nat, j: nat, n: nat, c: nat)
    requires i < j < n
    ensures Place(i, n, c) < Place(j, n, c) < Place(i, n, c + 1)
  {
    if c > 0 {
      PlacesAlternate(i, j, n, c - 1);
    }
  }

  /** When owner `i` has been dealt `c` provisions, its next turn is at `Place(i, n, c)`. */
  lemma NextTurn(p: nat, n: nat, i: nat, c: nat)
    requires i < n && (c > 0 ==> Place(i, n, c - 1) < p) && p <= Place(i, n, c)
    ensures Turn(p, n) == i <==> p == Place(i, n, c)
  {
    TurnIsRemainder(p, n);
    PlaceIs(i, n, c);
    if p == i + c * n {
      DivisionIsUnique(p, n, c, i);
    } else if p % n == i {
      var q := p / n;
      Euclid(p, n);
      PlaceIs(i, n, q);
      if q < c {
        PlaceGrows(i, n, q, c - 1);
      } else {
        PlaceGrows(i, n, c, q);
      }
    }
  }

  /** The share holds the provisions at places `i`, `i + n`, `i + 2n`, ... as far as they go. */
  predicate EveryNth(share: seq<string>, provisions: seq<string>, n: nat, i: nat) {
    && |provisions| <= Place(i, n, |share|)
    && forall j :: 0 <= j < |share| ==> Place(i, n, j) < |provisions| && share[j] == provisions[Place(i, n, j)]
  }

  lemma {:induction false} ShareIsEveryNth(provisions: seq<string>, n: nat, i: nat)
    requires i < n
    ensures EveryNth(Share(provisions, n, i), provisions, n, i)
  {
    if provisions != [] {
      var last := |provisions| - 1;
      ShareIsEveryNth(provisions[..last], n, i);
      NextTurn(last, n, i, |Share(provisions[..last], n, i)|);
    }
  }

  lemma InShare(share: seq<string>, provisions: seq<string>, n: nat, i: nat, c: nat)
    requires EveryNth(share, provisions, n, i)
    ensures c < |share| <==> Place(i, n, c) < |provisions|
  {
    if |share| <= c {
      PlaceGrows(i, n, |share|, c);
    }
  }

  /** Every provision is in a share: position `p` is entry `p / n` of owner `p % n`. */
  lemma DealtOnce(provisions: seq<string>, n: nat, p: nat)
    requires p < |provisions| && 0 < n
    ensures p / n < |Share(provisions, n, p % n)| && Share(provisions, n, p % n)[p / n] == provisions[p]
  {
    Euclid(p, n);
    PlaceIs(p % n, n, p / n);
    DealtAt(provisions, n, p % n, p / n);
  }

  lemma DealtAt(provisions: seq<string>, n: nat, i: nat, j: nat)
    requires i < n && Place(i, n, j) < |provisions|
    ensures j < |Share(provisions, n, i)| && Share(provisions, n, i)[j] == provisions[Place(i, n, j)]
  {
    ShareIsEveryNth(provisions, n, i);
    InShare(Share(provisions, n, i), provisions, n, i, j);
  }

  /** Conversely entry `j` of owner `i` is the one position with that remainder and quotient. */
  lemma DealtFrom(provisions: seq<string>, n: nat, i: nat, j: nat)
    requires i < n && j < |Share(provisions, n, i)|
    ensures var p := Place(i, n, j);
            p < |provisions| && provisions[p] == Share(provisions, n, i)[j] && p % n == i && p / n == j
  {
    ShareIsEveryNth(provisions, n, i);
    PlaceIs(i, n, j);
    DivisionIsUnique(Place(i, n, j), n, j, i);
  }

  /** Shares differ by one at most, and no owner has fewer than a later one. */
  lemma SharesAreFair(provisions: seq<string>, n: nat, i: nat, j: nat)
    requires i < j < n
    ensures |Share(provisions, n, j)| <= |Share(provisions, n, i)| <= |Share(provisions, n, j)| + 1
  {
    var a, b := Share(provisions, n, i), Share(provisions, n, j);
    ShareIsEveryNth(provisions, n, i);
    ShareIsEveryNth(provisions, n, j);
    InShare(a, provisions, n, i, |b| + 1);
    InShare(b, provisions, n, j, |a|);
    PlacesAlternate(i, j, n, |b|);
    PlacesAlternate(i, j, n, |a|);
  }

  predicate Distinct(xs: seq<string>) {
    forall i, j :: 0 <= i < j < |xs| ==> xs[i] != xs[j]
  }

  function IndexOf(xs: seq<string>, x: string): (i: nat)
    requires x in xs
    ensures i < |xs| && xs[i] == x
  {
    if xs[0] == x then 0 else 1 + IndexOf(xs[1..], x)
  }

  /** The provisions of each owner. */
  function Assign(owners: seq<string>, provisions: seq<string>): map<string, seq<string>> {
    map o | o in owners :: Share(provisions, |owners|, IndexOf(owners, o))
  }

  lemma AssignAt(owners: seq<string>, provisions: seq<string>, i: nat)
    requires i < |owners| && Distinct(owners)
    ensures Assign(owners, provisions)[owners[i]] == Share(provisions, |owners|, i)
  {
    assert IndexOf(owners, owners[i]) == i;
  }

  /** The shares after dealing the provisions `dealt`. */
  ghost predicate Dealing(byOwner: map<string, seq<string>>, owners: seq<string>, dealt: seq<string>) {
    && (forall o :: o in byOwner <==> o in owners)
    && forall i :: 0 <= i < |owners| ==> byOwner[owners[i]] == Share(dealt, |owners|, i)
  }

  lemma DealOne(byOwner: map<string, seq<string>>, owners: seq<string>, dealt: seq<string>, p: string)
    requires owners != [] && Distinct(owners) && Dealing(byOwner, owners, dealt)
    ensures var owner := owners[Turn(|dealt|, |owners|)];
            Dealing(byOwner[owner := byOwner[owner] + [p]], owners, dealt + [p])
  {
    assert (dealt + [p])[..|dealt|] == dealt;
    var owner := owners[Turn(|dealt|, |owners|)];
    var next := byOwner[owner := byOwner[owner] + [p]];
    forall i | 0 <= i < |owners| ensures next[owners[i]] == Share(dealt + [p], |owners|, i) {
      assert Share(dealt + [p], |owners|, i) ==
        Share(dealt, |owners|, i) + (if Turn(|dealt|, |owners|) == i then [p] else []);
    }
  }

  lemma AllDealt(byOwner: map<string, seq<string>>, owners: seq<string>, provisions: seq<string>)
    requires Distinct(owners) && Dealing(byOwner, owners, provisions)
    ensures byOwner == Assign(owners, provisions)
  {
    forall o | o in owners ensures byOwner[o] == Assign(owners, provisions)[o] {
      AssignAt(owners, provisions, IndexOf(owners, o));
    }
  }

  method EmptyShares(owners: seq<string>) returns (byOwner: map<string, seq<string>>)
    ensures Dealing(byOwner, owners, [])
  {
    byOwner := map[];
    for k := 0 to |owners|
      invariant forall o :: o in byOwner <==> o in owners[..k]
      invariant forall o :: o in byOwner ==> byOwner[o] == []
    {
      byOwner := byOwner[owners[k] := []];
    }
    assert owners[..|owners|] == owners;
  }

  method DispatchToOwners(owners: seq<string>, provisions: seq<string>) returns (byOwner: map<string, seq<string>>)
    requires owners != [] && Distinct(owners)
    ensures byOwner == Assign(owners, provisions)
  {
    byOwner := EmptyShares(owners);
    var ownerIdx := 0;
    for k := 0 to |provisions|
      invariant ownerIdx == Turn(k, |owners|)
      invariant Dealing(byOwner, owners, provisions[..k])
    {
      DealOne(byOwner, owners, provisions[..k], provisions[k]);
      assert provisions[..k + 1] == provisions[..k] + [provisions[k]];
      var owner := owners[ownerIdx];
      byOwner := byOwner[owner := byOwner[owner] + [provisions[k]]];
      ownerIdx := ownerIdx + 1;
      if ownerIdx == |owners| {
        ownerIdx := 0;
      }
    }
    assert provisions[..|provisions|] == provisions;
    AllDealt(byOwner, owners, provisions);
  }

  // Election

  /** The order of strings by their first difference. */
  predicate AtMost(a: string, b: string) {
    a == [] || (b != [] && (a[0] < b[0] || (a[0] == b[0] && AtMost(a[1..], b[1..]))))
  }

  /** The order is the usual one: `a` begins `b`, or is smaller at the first place where they differ. */
  lemma {:induction false} AtMostExactly(a: string, b: string)
    ensures AtMost(a, b) <==> a <= b || exists i :: 0 <= i < |a| && i < |b| && a[..i] == b[..i] && a[i] < b[i]
  {
    if a != [] && b != [] {
      if a[0] == b[0] {
        AtMostExactly(a[1..], b[1..]);
        assert a == [a[0]] + a[1..] && b == [b[0]] + b[1..];
        if i :| 0 <= i < |a[1..]| && i < |b[1..]| && a[1..][..i] == b[1..][..i] && a[1..][i] < b[1..][i] {
          assert a[..i + 1] == [a[0]] + a[1..][..i] && b[..i + 1] == [b[0]] + b[1..][..i];
          assert a[i + 1] < b[i + 1];
        }
        if i :| 0 <= i < |a| && i < |b| && a[..i] == b[..i] && a[i] < b[i] {
          assert a[1..][..i - 1] == a[..i][1..] && b[1..][..i - 1] == b[..i][1..];
          assert a[1..][i - 1] < b[1..][i - 1];
        }
      } else {
        forall i | 0 < i < |a| && i < |b| ensures a[..i] != b[..i] {
          assert a[..i][0] != b[..i][0];
        }
        if a[0] < b[0] {
          assert a[..0] == b[..0];
        }
      }
    }
  }

  predicate AmILeader(children: seq<string>, me: string) {
    forall i :: 0 <= i < |children| ==> AtMost(me, children[i])
  }

  lemma {:induction false} AtMostTotal(a: string, b: string)
    ensures AtMost(a, b) || AtMost(b, a)
    ensures AtMost(a, b) && AtMost(b, a) ==> a == b
    ensures AtMost(a, a)
  {
    if a != [] {
      AtMostTotal(a[1..], a[1..]);
    }
    if a != [] && b != [] && a[0] == b[0] {
      AtMostTotal(a[1..], b[1..]);
      assert a == [a[0]] + a[1..] && b == [b[0]] + b[1..];
    }
  }

  lemma {:induction false} AtMostTransitive(a: string, b: string, c: string)
    requires AtMost(a, b) && AtMost(b, c)
    ensures AtMost(a, c)
  {
    if a != [] && a[0] == b[0] && b[0] == c[0] {
      AtMostTransitive(a[1..], b[1..], c[1..]);
    }
  }

  function Least(children: seq<string>): (least: string)
    requires children != []
    ensures least in children
  {
    var last := children[|children| - 1];
    if |children| == 1 then last
    else
      var least := Least(children[..|children| - 1]);
      if AtMost(least, last) then least else last
  }

  lemma {:induction false} LeastLeads(children: seq<string>)
    requires children != []
    ensures AmILeader(children, Least(children))
  {
    var last := children[|children| - 1];
    AtMostTotal(last, last);
    if |children| > 1 {
      var init := children[..|children| - 1];
      LeastLeads(init);
      AtMostTotal(Least(init), last);
      forall i | 0 <= i < |children| ensures AtMost(Least(children), children[i]) {
        if i < |init| {
          assert AtMost(Least(init), init[i]);
          if !AtMost(Least(init), last) {
            AtMostTransitive(last, Least(init), init[i]);
          }
        }
      }
    }
  }

  /** Of the candidates that see the same list exactly one is the leader. */
  lemma ExactlyOneLeader(children: seq<string>)
    requires children != []
    ensures exists me :: me in children && AmILeader(children, me)
    ensures forall a, b :: a in children && b in children && AmILeader(children, a) && AmILeader(children, b) ==> a == b
  {
    LeastLeads(children);
    forall a, b | a in children && b in children && AmILeader(children, a) && AmILeader(children, b) ensures a == b {
      AtMostTotal(a, b);
    }
  }

  // Redispatching

  datatype Write = Write(owner: string, data: seq<string>)

  /**
    The fields of the dispatcher; then what the last round computed (`share`) and its writes
    not answered yet; then the ephemeral owner nodes that exist, the names ever used for one,
    and what this dispatcher last wrote in each. `rounds` counts the rounds started. An error
    ends a round at once: `stale` holds the writes of ended rounds not answered yet, and `torn`
    tells that the last round failed, or began with such writes outstanding.
   */
  datatype State = State(
    owners: Option<seq<string>>, provisions: Option<seq<string>>, leader: bool,
    inProgress: bool, redo: bool,
    share: map<string, seq<string>>, todo: seq<Write>, rounds: nat,
    alive: set<string>, known: set<string>, written: map<string, seq<string>>,
    stale: seq<Write>, torn: bool)

  datatype Event =
    | OwnersListed(names: seq<string>)
    | ProvisionsListed(names: seq<string>)
    | LeadersListed(names: seq<string>)
    | Landed(at: nat)
    | WriteFails(at: nat, applied: bool) // any error other than a missing node; the write may have been made
    | StaleAnswered(at: nat, applied: bool)
    | OwnerJoins(owner: string)
    | OwnerLeaves(owner: string)

  /** Of the writes of a round, the first ones unanswered are in flight, up to this many. */
  const MAX_WRITES: nat := 20

  function InFlight(s: State): (n: nat)
    ensures n <= |s.todo|
  {
    if |s.todo| < MAX_WRITES then |s.todo| else MAX_WRITES
  }

  function Init(): State {
    State(None, None, false, false, false, map[], [], 0, {}, {}, map[], [], false)
  }

  /**
    A listing may be out of date, but names an owner once and only owners that existed. Owner names
    are not used again.
   */
  predicate Enabled(s: State, e: Event) {
    match e
    case OwnersListed(names) => Distinct(names) && forall i :: 0 <= i < |names| ==> names[i] in s.known
    case ProvisionsListed(_) => true
    case LeadersListed(_) => true
    case Landed(i) => i < InFlight(s)
    case WriteFails(i, _) => i < InFlight(s)
    case StaleAnswered(i, _) => i < |s.stale|
    case OwnerJoins(o) => o !in s.known
    case OwnerLeaves(o) => o in s.alive
  }

  predicate Dispatchable(s: State) {
    s.owners.Some? && s.provisions.Some? && s.owners.value != []
  }

  function Writes(owners: seq<string>, share: map<string, seq<string>>): seq<Write>
    requires forall i :: 0 <= i < |owners| ==> owners[i] in share
  {
    seq(|owners|, i requires 0 <= i < |owners| => Write(owners[i], share[owners[i]]))
  }

  function StartRound(s: State): State
    requires Dispatchable(s)
  {
    var share := Assign(s.owners.value, s.provisions.value);
    s.(inProgress := true, share := share, todo := Writes(s.owners.value, share), rounds := s.rounds + 1,
       torn := s.stale != [])
  }

  function Redispatch(s: State): State {
    if !Dispatchable(s) then s
    else if s.inProgress then s.(redo := true)
    else StartRound(s)
  }

  function OnListed(s: State): State {
    if s.leader then Redispatch(s) else s
  }

  /** The round is over. A queued request is served whether or not this candidate still leads. */
  function Finish(s: State): State {
    if s.redo then Redispatch(s.(inProgress := false, redo := false)) else s.(inProgress := false)
  }

  /** One write is answered. A missing owner node is not an error: there is nothing to write. */
  function Answered(s: State, i: nat): State
    requires i < |s.todo|
  {
    s.(todo := Without(s.todo, i), written := Put(s, s.todo[i]))
  }

  function Without(ws: seq<Write>, i: nat): seq<Write>
    requires i < |ws|
  {
    ws[..i] + ws[i + 1..]
  }

  function Put(s: State, w: Write): map<string, seq<string>> {
    if w.owner in s.alive then s.written[w.owner := w.data] else s.written
  }

  /** The round ends with the other writes in flight; those not issued never are. */
  function Failed(s: State, i: nat, applied: bool): State
    requires i < InFlight(s)
  {
    s.(todo := [], stale := s.stale + Without(s.todo[..InFlight(s)], i), torn := true,
       written := if applied then Put(s, s.todo[i]) else s.written)
  }

  function Land(s: State, i: nat): State
    requires i < |s.todo|
  {
    if |s.todo| == 1 then Finish(Answered(s, i)) else Answered(s, i)
  }

  function Step(s: State, e: Event, me: string): State
    requires Enabled(s, e)
  {
    match e
    case OwnersListed(names) => OnListed(s.(owners := Some(names)))
    case ProvisionsListed(names) => OnListed(s.(provisions := Some(names)))
    case LeadersListed(names) => OnListed(s.(leader := AmILeader(names, me)))
    case Landed(i) => Land(s, i)
    case WriteFails(i, applied) => Finish(Failed(s, i, applied))
    case StaleAnswered(i, applied) =>
      s.(stale := Without(s.stale, i), written := if applied then Put(s, s.stale[i]) else s.written)
    case OwnerJoins(o) => s.(alive := s.alive + {o}, known := s.known + {o})
    case OwnerLeaves(o) => s.(alive := s.alive - {o})
  }

  predicate Run(s: State, es: seq<Event>, me: string)
    decreases |es|
  {
    es == [] || (Enabled(s, es[0]) && Run(Step(s, es[0], me), es[1..], me))
  }

  function Exec(s: State, es: seq<Event>, me: string): State
    requires Run(s, es, me)
    decreases |es|
  {
    if es == [] then s else Exec(Step(s, es[0], me), es[1..], me)
  }

  // What every step keeps

  predicate ToWrite(todo: seq<Write>, o: string) {
    exists i :: 0 <= i < |todo| && todo[i].owner == o
  }

  /** The owner is still to be written, or its node is gone or holds its share. */
  predicate Served(todo: seq<Write>, share: map<string, seq<string>>, alive: set<string>,
      written: map<string, seq<string>>, o: string)
    requires o in share
  {
    ToWrite(todo, o) || (o in alive ==> o in written && written[o] == share[o])
  }

  /** The outstanding writes are shares of the last round, one for an owner. */
  predicate OfRound(todo: seq<Write>, share: map<string, seq<string>>) {
    && (forall i :: 0 <= i < |todo| ==> todo[i].owner in share && todo[i].data == share[todo[i].owner])
    && (forall i, j :: 0 <= i < j < |todo| ==> todo[i].owner != todo[j].owner)
  }

  predicate AllServed(todo: seq<Write>, share: map<string, seq<string>>, alive: set<string>,
      written: map<string, seq<string>>) {
    forall o :: o in share ==> Served(todo, share, alive, written, o)
  }

  predicate NamesInv(owners: Option<seq<string>>, share: map<string, seq<string>>, alive: set<string>,
      known: set<string>) {
    && (owners.Some? ==> Distinct(owners.value) && forall i :: 0 <= i < |owners.value| ==> owners.value[i] in known)
    && (forall o :: o in share ==> o in known)
    && alive <= known
  }

  /** What the leader computed last is the current assignment, unless one more round is queued. */
  predicate UpToDate(s: State) {
    s.leader && Dispatchable(s) ==> (s.inProgress && s.redo) || s.share == Assign(s.owners.value, s.provisions.value)
  }

  predicate Inv(s: State) {
    && NamesInv(s.owners, s.share, s.alive, s.known)
    && OfRound(s.todo, s.share)
    && (!s.torn ==> s.stale == [] && AllServed(s.todo, s.share, s.alive, s.written))
    && (s.inProgress <==> s.todo != [])
    && (s.stale != [] ==> s.known != {})
    && UpToDate(s)
  }

  lemma StartKeeps(s: State)
    requires NamesInv(s.owners, s.share, s.alive, s.known) && Dispatchable(s) && (s.stale != [] ==> s.known != {})
    ensures Inv(StartRound(s))
  {
    var s', owners := StartRound(s), s.owners.value;
    forall o | o in s'.share ensures ToWrite(s'.todo, o) {
      assert s'.todo[IndexOf(owners, o)].owner == o;
    }
  }

  lemma ListedKeeps(s: State, s0: State)
    requires Inv(s0) && NamesInv(s.owners, s.share, s.alive, s.known)
    requires s0.(owners := s.owners, provisions := s.provisions, leader := s.leader) == s
    ensures Inv(OnListed(s))
  {
    if s.leader && Dispatchable(s) && !s.inProgress {
      StartKeeps(s);
    }
  }

  lemma AnsweredServes(s: State, i: nat, o: string)
    requires Inv(s) && !s.torn && i < |s.todo| && o in s.share
    ensures var s1 := Answered(s, i); Served(s1.todo, s1.share, s1.alive, s1.written, o)
  {
    var s1 := Answered(s, i);
    assert Served(s.todo, s.share, s.alive, s.written, o);
    if s.todo[i].owner != o && ToWrite(s.todo, o) {
      var j :| 0 <= j < |s.todo| && s.todo[j].owner == o;
      assert s1.todo[if j < i then j else j - 1].owner == o;
    }
  }

  lemma AnsweredKeeps(s: State, i: nat)
    requires Inv(s) && i < |s.todo|
    ensures var s1 := Answered(s, i);
            OfRound(s1.todo, s1.share) && (!s.torn ==> AllServed(s1.todo, s1.share, s1.alive, s1.written))
  {
    var s1 := Answered(s, i);
    forall o | !s.torn && o in s1.share ensures Served(s1.todo, s1.share, s1.alive, s1.written, o) {
      AnsweredServes(s, i, o);
    }
  }

  lemma LandKeeps(s: State, i: nat)
    requires Inv(s) && i < |s.todo|
    ensures Inv(Land(s, i))
  {
    AnsweredKeeps(s, i);
    if |s.todo| == 1 && s.redo && Dispatchable(s) {
      StartKeeps(Answered(s, i).(inProgress := false, redo := false));
    }
  }

  /** A failed write leaves at most nineteen others unanswered. */
  lemma FailLeavesOthers(s: State, i: nat, applied: bool)
    requires i < InFlight(s)
    ensures var left := |Failed(s, i, applied).stale| - |s.stale|;
            left == (if |s.todo| < 20 then |s.todo| - 1 else 19)
  {
  }

  lemma FailKeeps(s: State, i: nat, applied: bool)
    requires Inv(s) && i < InFlight(s)
    ensures Inv(Finish(Failed(s, i, applied)))
  {
    assert s.todo[i].owner in s.known;
    if s.redo && Dispatchable(s) {
      StartKeeps(Failed(s, i, applied).(inProgress := false, redo := false));
    }
  }

  lemma NodesKeep(s: State, alive: set<string>, known: set<string>)
    requires Inv(s) && s.known <= known && alive <= known && forall o :: o in alive && o in s.known ==> o in s.alive
    ensures Inv(s.(alive := alive, known := known))
  {
    forall o | !s.torn && o in s.share ensures Served(s.todo, s.share, alive, s.written, o) {
      assert Served(s.todo, s.share, s.alive, s.written, o);
    }
  }

  lemma StepKeeps(s: State, e: Event, me: string)
    requires Inv(s) && Enabled(s, e)
    ensures Inv(Step(s, e, me))
  {
    match e
    case OwnersListed(names) => ListedKeeps(s.(owners := Some(names)), s);
    case ProvisionsListed(names) => ListedKeeps(s.(provisions := Some(names)), s);
    case LeadersListed(names) => ListedKeeps(s.(leader := AmILeader(names, me)), s);
    case Landed(i) => LandKeeps(s, i);
    case WriteFails(i, applied) => FailKeeps(s, i, applied);
    case StaleAnswered(_, _) =>
    case OwnerJoins(o) => NodesKeep(s, s.alive + {o}, s.known + {o});
    case OwnerLeaves(o) => NodesKeep(s, s.alive - {o}, s.known);
  }

  lemma {:induction false} RunKeeps(s: State, es: seq<Event>, me: string)
    requires Inv(s) && Run(s, es, me)
    ensures Inv(Exec(s, es, me))
    decreases |es|
  {
    if es != [] {
      StepKeeps(s, es[0], me);
      RunKeeps(Step(s, es[0], me), es[1..], me);
    }
  }

  // What the dispatcher promises

  /**
    In every run, a leader that knows the provisions and some owners and is not dispatching
    computed its last round from its current lists, and unless that round was torn by an error
    every owner on the list whose node exists was last written its share.
   */
  lemma LeaderAtRestHasDispatched(es: seq<Event>, me: string)
    requires Run(Init(), es, me)
    requires var s := Exec(Init(), es, me); s.leader && Dispatchable(s) && !s.inProgress
    ensures var s := Exec(Init(), es, me);
            && s.share == Assign(s.owners.value, s.provisions.value)
            && forall i :: !s.torn && 0 <= i < |s.owners.value| && s.owners.value[i] in s.alive ==>
                 var o := s.owners.value[i];
                 o in s.written && s.written[o] == Share(s.provisions.value, |s.owners.value|, i)
  {
    RunKeeps(Init(), es, me);
    var s := Exec(Init(), es, me);
    forall i | !s.torn && 0 <= i < |s.owners.value| && s.owners.value[i] in s.alive
      ensures var o := s.owners.value[i];
              o in s.written && s.written[o] == Share(s.provisions.value, |s.owners.value|, i)
    {
      AssignAt(s.owners.value, s.provisions.value, i);
      assert Served(s.todo, s.share, s.alive, s.written, s.owners.value[i]);
    }
  }

  /**
    In every run the writes of the last round started go to different owners, each with its
    share; and unless that round was torn by an error no other write is outstanding.
   */
  lemma OneRoundInFlight(es: seq<Event>, me: string)
    requires Run(Init(), es, me)
    ensures var s := Exec(Init(), es, me);
            && (s.inProgress <==> s.todo != [])
            && (forall i :: 0 <= i < |s.todo| ==>
               s.todo[i].owner in s.share && s.todo[i].data == s.share[s.todo[i].owner])
            && (forall i, j :: 0 <= i < j < |s.todo| ==> s.todo[i].owner != s.todo[j].owner)
            && (!s.torn ==> s.stale == [])
  {
    RunKeeps(Init(), es, me);
  }

  // The lists in force

  function LatestOwners(es: seq<Event>, before: Option<seq<string>>): Option<seq<string>> {
    if es == [] then before
    else LatestOwners(es[1..], if es[0].OwnersListed? then Some(es[0].names) else before)
  }

  function LatestProvisions(es: seq<Event>, before: Option<seq<string>>): Option<seq<string>> {
    if es == [] then before
    else LatestProvisions(es[1..], if es[0].ProvisionsListed? then Some(es[0].names) else before)
  }

  predicate LatestLeader(es: seq<Event>, me: string, before: bool) {
    if es == [] then before
    else LatestLeader(es[1..], me, if es[0].LeadersListed? then AmILeader(es[0].names, me) else before)
  }

  predicate SameLists(s: State, s': State) {
    && s'.owners == s.owners && s'.provisions == s.provisions && s'.leader == s.leader
    && s'.alive == s.alive && s'.known == s.known
  }

  lemma OnListedIs(s: State)
    ensures SameLists(s, OnListed(s))
  {
    hide Redispatch;
    RedispatchIs(s);
  }

  lemma FinishIs(s: State)
    ensures SameLists(s, Finish(s))
  {
    hide Redispatch;
    RedispatchIs(s.(inProgress := false, redo := false));
  }

  lemma AnswerKeepsLists(s: State, e: Event, me: string)
    requires Enabled(s, e) && (e.Landed? || e.WriteFails?)
    ensures SameLists(s, Step(s, e, me))
  {
    hide Finish, Without, Put;
    if e.Landed? {
      FinishIs(Answered(s, e.at));
    } else {
      FinishIs(Failed(s, e.at, e.applied));
    }
  }

  lemma StepLists(s: State, e: Event, me: string)
    requires Enabled(s, e)
    ensures var s' := Step(s, e, me);
            && s'.owners == (if e.OwnersListed? then Some(e.names) else s.owners)
            && s'.provisions == (if e.ProvisionsListed? then Some(e.names) else s.provisions)
            && s'.leader == (if e.LeadersListed? then AmILeader(e.names, me) else s.leader)
            && s'.known == (if e.OwnerJoins? then s.known + {e.owner} else s.known)
            && s'.alive == (if e.OwnerJoins? then s.alive + {e.owner}
                            else if e.OwnerLeaves? then s.alive - {e.owner} else s.alive)
  {
    hide OnListed, Land, Failed, Finish;
    if Listing(e) {
      match e
      case OwnersListed(names) => OnListedIs(s.(owners := Some(names)));
      case ProvisionsListed(names) => OnListedIs(s.(provisions := Some(names)));
      case LeadersListed(names) => OnListedIs(s.(leader := AmILeader(names, me)));
    } else if e.Landed? || e.WriteFails? {
      AnswerKeepsLists(s, e, me);
    }
  }

  /** A round uses the lists read last, and whether this candidate leads is decided by the last list of candidates. */
  lemma {:induction false} ListsAreLatest(s: State, es: seq<Event>, me: string)
    requires Run(s, es, me)
    ensures var s' := Exec(s, es, me);
            && s'.owners == LatestOwners(es, s.owners)
            && s'.provisions == LatestProvisions(es, s.provisions)
            && (s'.leader <==> LatestLeader(es, me, s.leader))
    decreases |es|
  {
    if es != [] {
      StepLists(s, es[0], me);
      hide Step, Enabled, AmILeader;
      ListsAreLatest(Step(s, es[0], me), es[1..], me);
    }
  }

  /** The owner nodes that exist are those that joined and have not left. */
  lemma {:induction false} NodesAreJoined(s: State, es: seq<Event>, me: string, o: string)
    requires Run(s, es, me) && s.alive <= s.known
    ensures o in s.known ==> OwnerJoins(o) !in es
    ensures o in Exec(s, es, me).alive <==> (o in s.alive || OwnerJoins(o) in es) && OwnerLeaves(o) !in es
    decreases |es|
  {
    if es != [] {
      StepLists(s, es[0], me);
      assert es == [es[0]] + es[1..];
      NodesAreJoined(Step(s, es[0], me), es[1..], me, o);
    }
  }

  predicate Calm(es: seq<Event>) {
    forall i :: 0 <= i < |es| ==> !es[i].WriteFails?
  }

  /** Without a further error, writes of two rounds may become outstanding together. */
  ghost predicate CanOverlap(s: State, me: string) {
    exists es :: Calm(es) && Run(s, es, me) && var s' := Exec(s, es, me); s'.stale != [] && s'.todo != []
  }

  ghost predicate NeverOverlaps(s: State, es: seq<Event>, me: string)
    requires Run(s, es, me)
    decreases |es|
  {
    !CanOverlap(s, me) && (es == [] || NeverOverlaps(Step(s, es[0], me), es[1..], me))
  }

  /** Every write that fails is the only one outstanding. */
  predicate FailsAlone(s: State, es: seq<Event>, me: string)
    requires Run(s, es, me)
    decreases |es|
  {
    es == [] || ((es[0].WriteFails? ==> |s.todo| == 1) && FailsAlone(Step(s, es[0], me), es[1..], me))
  }

  lemma {:induction false} CalmKeepsNoneStale(s: State, es: seq<Event>, me: string)
    requires Calm(es) && Run(s, es, me) && s.stale == []
    ensures Exec(s, es, me).stale == []
    decreases |es|
  {
    if es != [] {
      CalmKeepsNoneStale(Step(s, es[0], me), es[1..], me);
    }
  }

  predicate Listing(e: Event) {
    e.OwnersListed? || e.ProvisionsListed? || e.LeadersListed?
  }

  /** A listing brings its list, and a leader that may dispatch after it has a round in progress. */
  lemma ListingStarts(s: State, e: Event, me: string)
    requires Inv(s) && Enabled(s, e) && Listing(e)
    ensures var s' := Step(s, e, me);
            && s'.owners == (if e.OwnersListed? then Some(e.names) else s.owners)
            && s'.provisions == (if e.ProvisionsListed? then Some(e.names) else s.provisions)
            && s'.leader == (if e.LeadersListed? then AmILeader(e.names, me) else s.leader)
            && s'.known == s.known && s'.stale == s.stale
            && (s'.leader && Dispatchable(s') ==> s'.todo != [])
  {
    StepKeeps(s, e, me);
  }

  /** A leader elected meanwhile starts a round for any owner it is told of. */
  lemma NextRound(s: State, o: string, me: string) returns (es: seq<Event>)
    requires Inv(s) && o in s.known
    ensures Calm(es) && Run(s, es, me)
    ensures var s' := Exec(s, es, me); s'.todo != [] && s'.stale == s.stale
  {
    hide Inv, Step;
    AtMostTotal(me, me);
    ListingStarts(s, LeadersListed([me]), me);
    StepKeeps(s, LeadersListed([me]), me);
    var s1 := Step(s, LeadersListed([me]), me);
    ListingStarts(s1, OwnersListed([o]), me);
    StepKeeps(s1, OwnersListed([o]), me);
    var s2 := Step(s1, OwnersListed([o]), me);
    ListingStarts(s2, ProvisionsListed([]), me);
    RunFirst(s2, ProvisionsListed([]), [], me);
    RunFirst(s1, OwnersListed([o]), [ProvisionsListed([])] + [], me);
    RunFirst(s, LeadersListed([me]), [OwnersListed([o])] + ([ProvisionsListed([])] + []), me);
    es := [LeadersListed([me])] + ([OwnersListed([o])] + ([ProvisionsListed([])] + []));
  }

  lemma OverlapIs(s: State, me: string)
    requires Inv(s)
    ensures CanOverlap(s, me) <==> s.stale != []
  {
    if s.stale != [] {
      var o :| o in s.known;
      var es := NextRound(s, o, me);
    } else {
      forall es | Calm(es) && Run(s, es, me) ensures Exec(s, es, me).stale == [] {
        CalmKeepsNoneStale(s, es, me);
      }
    }
  }

  lemma RedispatchIs(s: State)
    ensures var s' := Redispatch(s); var starts := Dispatchable(s) && !s.inProgress;
            && s'.rounds == (if starts then s.rounds + 1 else s.rounds)
            && s'.owners == s.owners && s'.provisions == s.provisions && s'.leader == s.leader && s'.stale == s.stale
            && s'.alive == s.alive && s'.known == s.known && s'.written == s.written
  {
  }

  lemma StaleAfter(s: State, e: Event, me: string)
    requires s.stale == [] && Enabled(s, e)
    ensures Step(s, e, me).stale == [] <==> (e.WriteFails? ==> |s.todo| == 1)
  {
    hide Redispatch;
    match e
    case OwnersListed(names) => RedispatchIs(s.(owners := Some(names)));
    case ProvisionsListed(names) => RedispatchIs(s.(provisions := Some(names)));
    case LeadersListed(names) => RedispatchIs(s.(leader := AmILeader(names, me)));
    case Landed(i) => RedispatchIs(Answered(s, i).(inProgress := false, redo := false));
    case WriteFails(i, applied) => RedispatchIs(Failed(s, i, applied).(inProgress := false, redo := false));
    case _ =>
  }

  lemma {:induction false} NeverOverlapsIs(s: State, es: seq<Event>, me: string)
    requires Inv(s) && s.stale == [] && Run(s, es, me)
    ensures NeverOverlaps(s, es, me) <==> FailsAlone(s, es, me)
    decreases |es|
  {
    hide Step, Inv, Enabled, CanOverlap;
    OverlapIs(s, me);
    if es != [] {
      var s' := Step(s, es[0], me);
      StepKeeps(s, es[0], me);
      OverlapIs(s', me);
      StaleAfter(s, es[0], me);
      if s'.stale == [] {
        NeverOverlapsIs(s', es[1..], me);
      }
    }
  }

  /**
    At every point of a run no two rounds may come to overlap, exactly if each write that fails is the
    only one outstanding.
   */
  lemma RoundsStayApartExactly(es: seq<Event>, me: string)
    requires Run(Init(), es, me)
    ensures NeverOverlaps(Init(), es, me) <==> FailsAlone(Init(), es, me)
  {
    NeverOverlapsIs(Init(), es, me);
  }

  lemma StartsExactly(s: State, e: Event, me: string)
    requires (s.inProgress <==> s.todo != []) && Enabled(s, e)
    ensures var s' := Step(s, e, me);
            && s.rounds <= s'.rounds <= s.rounds + 1
            && (s'.rounds > s.rounds <==>
                  Dispatchable(s') && ((Listing(e) && s'.leader && s.todo == [])
                     || (((e == Landed(0) && |s.todo| == 1) || e.WriteFails?) && s.redo)))
  {
    hide Redispatch;
    match e
    case OwnersListed(names) => RedispatchIs(s.(owners := Some(names)));
    case ProvisionsListed(names) => RedispatchIs(s.(provisions := Some(names)));
    case LeadersListed(names) => RedispatchIs(s.(leader := AmILeader(names, me)));
    case Landed(i) => RedispatchIs(Answered(s, i).(inProgress := false, redo := false));
    case WriteFails(i, applied) => RedispatchIs(Failed(s, i, applied).(inProgress := false, redo := false));
    case _ =>
  }

  /**
    Exactly when a round starts: on a listing read by a leader that has something to dispatch
    and no round outstanding, or on the end of a round when a request is queued. The
    queued round is served even if the candidate has lost the election meanwhile.
   */
  lemma RoundsStartExactly(es: seq<Event>, e: Event, me: string)
    requires Run(Init(), es, me) && Enabled(Exec(Init(), es, me), e)
    ensures var s := Exec(Init(), es, me); var s' := Step(s, e, me);
            && s.rounds <= s'.rounds <= s.rounds + 1
            && (s'.rounds > s.rounds <==>
                  Dispatchable(s') && ((Listing(e) && s'.leader && s.todo == [])
                     || (((e == Landed(0) && |s.todo| == 1) || e.WriteFails?) && s.redo)))
  {
    OneRoundInFlight(es, me);
    hide *;
    StartsExactly(Exec(Init(), es, me), e, me);
  }

  lemma RunFirst(s: State, e: Event, es: seq<Event>, me: string)
    requires Enabled(s, e) && Run(Step(s, e, me), es, me)
    ensures Run(s, [e] + es, me) && Exec(s, [e] + es, me) == Exec(Step(s, e, me), es, me)
  {
    assert ([e] + es)[1..] == es;
  }

  /** A leader at rest that knows these owners and provisions. */
  function Elected(os: seq<string>, ps: seq<string>): State {
    var all := set o | o in os;
    State(Some(os), Some(ps), true, false, false, map[], [], 0, all, all, map[], [], false)
  }

  function Joins(os: seq<string>): seq<Event> {
    if os == [] then [] else [OwnerJoins(os[0])] + Joins(os[1..])
  }

  function Joined(s: State, os: seq<string>): State
    decreases |os|
  {
    if os == [] then s else Joined(s.(alive := s.alive + {os[0]}, known := s.known + {os[0]}), os[1..])
  }

  lemma {:induction false} JoinedIs(s: State, os: seq<string>)
    ensures Joined(s, os) == s.(alive := s.alive + (set o | o in os), known := s.known + (set o | o in os))
    decreases |os|
  {
    var all := set o | o in os;
    if os == [] {
      assert s.alive + all == s.alive && s.known + all == s.known;
    } else {
      JoinedIs(s.(alive := s.alive + {os[0]}, known := s.known + {os[0]}), os[1..]);
      assert all == {os[0]} + (set o | o in os[1..]);
      assert s.alive + all == s.alive + {os[0]} + (set o | o in os[1..]);
      assert s.known + all == s.known + {os[0]} + (set o | o in os[1..]);
    }
  }

  lemma {:induction false} AllJoin(s: State, os: seq<string>, es: seq<Event>, me: string)
    requires Distinct(os) && (forall i :: 0 <= i < |os| ==> os[i] !in s.known) && Run(Joined(s, os), es, me)
    ensures Run(s, Joins(os) + es, me) && Exec(s, Joins(os) + es, me) == Exec(Joined(s, os), es, me)
    decreases |os|
  {
    if os == [] {
      assert Joins(os) + es == es;
    } else {
      var s1 := s.(alive := s.alive + {os[0]}, known := s.known + {os[0]});
      assert Joined(s, os) == Joined(s1, os[1..]);
      assert Enabled(s, OwnerJoins(os[0])) && Step(s, OwnerJoins(os[0]), me) == s1;
      assert Joins(os) + es == [OwnerJoins(os[0])] + (Joins(os[1..]) + es);
      hide Run, Exec, Step, Enabled, Joined;
      AllJoin(s1, os[1..], es, me);
      RunFirst(s, OwnerJoins(os[0]), Joins(os[1..]) + es, me);
    }
  }

  /** The owners join, and a candidate becomes the leader and dispatches provisions to them. */
  lemma FirstRound(me: string, os: seq<string>, ps: seq<string>, es: seq<Event>)
    requires os != [] && Distinct(os) && Run(StartRound(Elected(os, ps)), es, me)
    ensures var all := Joins(os) + ([OwnersListed(os)] + ([LeadersListed([me])] + ([ProvisionsListed(ps)] + es)));
            Run(Init(), all, me) && Exec(Init(), all, me) == Exec(StartRound(Elected(os, ps)), es, me)
  {
    JoinedIs(Init(), os);
    var s1 := Joined(Init(), os);
    var s2 := Step(s1, OwnersListed(os), me);
    AtMostTotal(me, me);
    var s3 := Step(s2, LeadersListed([me]), me);
    assert s3.(provisions := Some(ps)) == Elected(os, ps);
    assert Step(s3, ProvisionsListed(ps), me) == StartRound(Elected(os, ps));
    RunFirst(s3, ProvisionsListed(ps), es, me);
    RunFirst(s2, LeadersListed([me]), [ProvisionsListed(ps)] + es, me);
    RunFirst(s1, OwnersListed(os), [LeadersListed([me])] + ([ProvisionsListed(ps)] + es), me);
    AllJoin(Init(), os, [OwnersListed(os)] + ([LeadersListed([me])] + ([ProvisionsListed(ps)] + es)), me);
  }

  /** During the round other provisions are listed, and then a candidate that comes first. */
  lemma SecondRound(me: string, other: string, o: string, ps: seq<string>, qs: seq<string>)
    requires !AtMost(me, other)
    ensures var s, es := StartRound(Elected([o], ps)),
                       [ProvisionsListed(qs)] + ([LeadersListed([other])] + ([Landed(0)] + []));
            Run(s, es, me) && var s' := Exec(s, es, me); !s'.leader && s'.rounds == s.rounds + 1
  {
    var s := StartRound(Elected([o], ps));
    assert |s.todo| == 1;
    var s1 := s.(provisions := Some(qs), redo := true);
    assert Step(s, ProvisionsListed(qs), me) == s1;
    assert !AmILeader([other], me) by { assert [other][0] == other; }
    var s2 := s1.(leader := false);
    assert Step(s1, LeadersListed([other]), me) == s2;
    RunFirst(s2, Landed(0), [], me);
    RunFirst(s1, LeadersListed([other]), [Landed(0)] + [], me);
    RunFirst(s, ProvisionsListed(qs), [LeadersListed([other])] + ([Landed(0)] + []), me);
  }

  /** So a round is started by a dispatcher that has lost the election: for any candidates, owner and provisions. */
  lemma DeposedLeaderStillDispatches(me: string, other: string, o: string, ps: seq<string>, qs: seq<string>)
      returns (es: seq<Event>)
    requires !AtMost(me, other)
    ensures Run(Init(), es, me)
    ensures var s := Exec(Init(), es, me); !s.leader && s.rounds == 2
  {
    es := [ProvisionsListed(qs)] + ([LeadersListed([other])] + ([Landed(0)] + []));
    SecondRound(me, other, o, ps, qs);
    FirstRound(me, [o], ps, es);
    assert StartRound(Elected([o], ps)).rounds == 1;
    hide Run, Exec, Step, Init, StartRound;
    es := Joins([o]) + ([OwnersListed([o])] + ([LeadersListed([me])] + ([ProvisionsListed(ps)] + es)));
  }

  /** A round to two owners fails on its first write, and one with other provisions starts. */
  function TwoRounds(a: string, b: string, ps: seq<string>, qs: seq<string>): State
    requires a != b
  {
    StartRound(Elected([a, b], ps).(provisions := Some(qs), stale := [Write(b, Share(ps, 2, 1))], rounds := 1))
  }

  lemma TwoWrites(a: string, b: string, ps: seq<string>)
    requires a != b
    ensures Writes([a, b], Assign([a, b], ps)) == [Write(a, Share(ps, 2, 0)), Write(b, Share(ps, 2, 1))]
  {
    AssignAt([a, b], ps, 0);
    AssignAt([a, b], ps, 1);
  }

  lemma FailedRound(me: string, a: string, b: string, ps: seq<string>, qs: seq<string>)
    requires a != b
    ensures var s, es := StartRound(Elected([a, b], ps)), [WriteFails(0, false)] + ([ProvisionsListed(qs)] + []);
            Run(s, es, me) && Exec(s, es, me) == TwoRounds(a, b, ps, qs)
  {
    var s := StartRound(Elected([a, b], ps));
    TwoWrites(a, b, ps);
    assert Failed(s, 0, false) == s.(todo := [], stale := [Write(b, Share(ps, 2, 1))], torn := true);
    var f := Step(s, WriteFails(0, false), me);
    assert Step(f, ProvisionsListed(qs), me) == TwoRounds(a, b, ps, qs);
    RunFirst(f, ProvisionsListed(qs), [], me);
    RunFirst(s, WriteFails(0, false), [ProvisionsListed(qs)] + [], me);
  }

  /** The second round succeeds, and then the write left of the first is made. */
  lemma OldShareLast(me: string, a: string, b: string, ps: seq<string>, qs: seq<string>)
    requires a != b
    ensures var s, es := TwoRounds(a, b, ps, qs), [Landed(0)] + ([Landed(0)] + ([StaleAnswered(0, true)] + []));
            && Run(s, es, me)
            && var s' := Exec(s, es, me);
            && s'.leader && !s'.inProgress && s'.stale == [] && s'.owners == Some([a, b]) && s'.provisions == Some(qs)
            && b in s'.alive && b in s'.written && s'.written[b] == Share(ps, 2, 1)
  {
    var s := TwoRounds(a, b, ps, qs);
    TwoWrites(a, b, qs);
    var s1 := Step(s, Landed(0), me);
    assert s1.todo == [Write(b, Share(qs, 2, 1))];
    var s2 := Step(s1, Landed(0), me);
    assert s2 == s.(todo := [], inProgress := false, written := s2.written);
    RunFirst(s2, StaleAnswered(0, true), [], me);
    RunFirst(s1, Landed(0), [StaleAnswered(0, true)] + [], me);
    RunFirst(s, Landed(0), [Landed(0)] + ([StaleAnswered(0, true)] + []), me);
  }

  /**
    So after a failed write shares of two rounds may be outstanding for one owner; if the old
    one is made last, the leader comes to rest with an owner that holds an old share: for any
    candidate, any two owners and any provisions.
   */
  lemma OldShareMayBeMadeLast(me: string, a: string, b: string, ps: seq<string>, qs: seq<string>)
    returns (es: seq<Event>, more: seq<Event>)
    requires a != b
    ensures Run(Init(), es, me)
    ensures var s1 := Exec(Init(), es, me);
            && s1.stale == [Write(b, Share(ps, 2, 1))]
            && s1.todo == [Write(a, Share(qs, 2, 0)), Write(b, Share(qs, 2, 1))]
            && Run(s1, more, me)
            && var s2 := Exec(s1, more, me);
            && s2.leader && !s2.inProgress && s2.stale == [] && s2.owners == Some([a, b]) && s2.provisions == Some(qs)
            && b in s2.alive && b in s2.written && s2.written[b] == Share(ps, 2, 1)
  {
    es := [WriteFails(0, false)] + ([ProvisionsListed(qs)] + []);
    more := [Landed(0)] + ([Landed(0)] + ([StaleAnswered(0, true)] + []));
    FailedRound(me, a, b, ps, qs);
    OldShareLast(me, a, b, ps, qs);
    TwoWrites(a, b, qs);
    FirstRound(me, [a, b], ps, es);
    hide Run, Exec, Step, Init, StartRound, Share;
    es := Joins([a, b]) + ([OwnersListed([a, b])] + ([LeadersListed([me])] + ([ProvisionsListed(ps)] + es)));
  }

  /** The dispatcher object. The ghost fields are the owner nodes and the history of rounds. */
  class Dispatcher {
    const me: string
    var owners: Option<seq<string>>
    var provisions: Option<seq<string>>
    var isLeader: bool
    var redispatchInProgress: bool
    var redoRedispatch: bool
    var provisionsByOwner: map<string, seq<string>>
    var todo: seq<Write>
    ghost var rounds: nat
    ghost var alive: set<string>
    ghost var known: set<string>
    ghost var written: map<string, seq<string>>
    ghost var stale: seq<Write>
    ghost var torn: bool

    ghost function View(): State
      reads this
    {
      State(owners, provisions, isLeader, redispatchInProgress, redoRedispatch,
            provisionsByOwner, todo, rounds, alive, known, written, stale, torn)
    }

    constructor (me: string)
      ensures View() == Init() && this.me == me
    {
      this.me := me;
      owners, provisions, isLeader, redispatchInProgress, redoRedispatch := None, None, false, false, false;
      provisionsByOwner, todo, rounds, alive, known, written := map[], [], 0, {}, {}, map[];
      stale, torn := [], false;
    }

    method RedispatchProvisions()
      requires owners.Some? ==> Distinct(owners.value)
      modifies this
      ensures View() == Redispatch(old(View()))
      ensures var may := owners.Some? && provisions.Some? && owners.value != [];
              && (!may ==> View() == old(View()))
              && (may && old(redispatchInProgress) ==> redoRedispatch && todo == old(todo) && rounds == old(rounds))
              && (may && !old(redispatchInProgress) ==>
                    && redispatchInProgress && redoRedispatch == old(redoRedispatch) && rounds == old(rounds) + 1
                    && |todo| == |owners.value|
                    && forall i :: 0 <= i < |todo| ==>
                         todo[i] == Write(owners.value[i], Share(provisions.value, |owners.value|, i)))
    {
      if owners.None? || provisions.None? || |owners.value| == 0 {
        return;
      }
      if redispatchInProgress {
        redoRedispatch := true;
        return;
      }
      redispatchInProgress := true;
      provisionsByOwner := DispatchToOwners(owners.value, provisions.value);
      todo := Writes(owners.value, provisionsByOwner);
      rounds := rounds + 1;
      torn := stale != [];
      forall i | 0 <= i < |todo| ensures todo[i] == Write(owners.value[i], Share(provisions.value, |owners.value|, i)) {
        AssignAt(owners.value, provisions.value, i);
      }
    }

    method OnLeaders(children: seq<string>)
      requires Inv(View())
      modifies this
      ensures View() == Step(old(View()), LeadersListed(children), me) && Inv(View())
      ensures isLeader <==> forall i :: 0 <= i < |children| ==> AtMost(me, children[i])
      ensures owners == old(owners) && provisions == old(provisions)
      ensures !isLeader ==> todo == old(todo) && rounds == old(rounds) && redoRedispatch == old(redoRedispatch)
    {
      StepKeeps(View(), LeadersListed(children), me);
      isLeader := IsLeast(children);
      if isLeader {
        RedispatchProvisions();
      }
    }

    method IsLeast(children: seq<string>) returns (b: bool)
      ensures b <==> AmILeader(children, me)
    {
      for i := 0 to |children|
        invariant forall j :: 0 <= j < i ==> AtMost(me, children[j])
      {
        if !AtMost(me, children[i]) {
          return false;
        }
      }
      return true;
    }

    method OnOwners(children: seq<string>)
      requires Inv(View()) && Enabled(View(), OwnersListed(children))
      modifies this
      ensures View() == Step(old(View()), OwnersListed(children), me) && Inv(View())
      ensures owners == Some(children) && provisions == old(provisions) && isLeader == old(isLeader)
      ensures !isLeader ==> todo == old(todo) && rounds == old(rounds) && redoRedispatch == old(redoRedispatch)
    {
      StepKeeps(View(), OwnersListed(children), me);
      owners := Some(children);
      if isLeader {
        RedispatchProvisions();
      }
    }

    method OnProvisions(children: seq<string>)
      requires Inv(View())
      modifies this
      ensures View() == Step(old(View()), ProvisionsListed(children), me) && Inv(View())
      ensures provisions == Some(children) && owners == old(owners) && isLeader == old(isLeader)
      ensures !isLeader ==> todo == old(todo) && rounds == old(rounds) && redoRedispatch == old(redoRedispatch)
    {
      StepKeeps(View(), ProvisionsListed(children), me);
      provisions := Some(children);
      if isLeader {
        RedispatchProvisions();
      }
    }

    /** The end of a round. */
    method OnRoundDone()
      requires owners.Some? ==> Distinct(owners.value)
      modifies this
      ensures View() == Finish(old(View()))
    {
      redispatchInProgress := false;
      if redoRedispatch {
        redoRedispatch := false;
        RedispatchProvisions();
      }
    }

    /** The answer to a write; the last one ends the round. */
    method OnWritten(i: nat)
      requires Inv(View()) && Enabled(View(), Landed(i))
      modifies this
      ensures View() == Step(old(View()), Landed(i), me) && Inv(View())
      ensures var w := old(todo[i]);
              written == if w.owner in alive then old(written)[w.owner := w.data] else old(written)
      ensures old(|todo|) > 1 ==> todo == old(todo[..i] + todo[i + 1..]) && rounds == old(rounds)
      ensures old(|todo|) == 1 && !old(redoRedispatch) ==> todo == [] && !redispatchInProgress
    {
      StepKeeps(View(), Landed(i), me);
      hide Inv;
      var w, left := todo[i], Without(todo, i);
      if w.owner in alive {
        written := written[w.owner := w.data];
      }
      todo := left;
      assert View() == Answered(old(View()), i);
      if left == [] {
        OnRoundDone();
      }
    }

    /** A write fails; whether it was made nevertheless is not known. The others in flight are not waited for. */
    method OnWriteError(i: nat, ghost applied: bool)
      requires Inv(View()) && Enabled(View(), WriteFails(i, applied))
      modifies this
      ensures View() == Step(old(View()), WriteFails(i, applied), me) && Inv(View())
      ensures !old(redoRedispatch) ==> todo == [] && !redispatchInProgress && torn && rounds == old(rounds)
      ensures stale == old(stale) + old(Without(todo[..InFlight(View())], i))
    {
      StepKeeps(View(), WriteFails(i, applied), me);
      hide Inv;
      if applied {
        written := Put(View(), todo[i]);
      }
      stale, torn := stale + Without(todo[..InFlight(View())], i), true;
      todo := [];
      assert View() == Failed(old(View()), i, applied);
      OnRoundDone();
    }
  }
}
