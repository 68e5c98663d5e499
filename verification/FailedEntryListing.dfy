/**
  The paginated listing of the failed replications of a site. Failures are kept in one sorted
  set for each hour, by the time of the failure; a page takes the newest ones, and its marker
  is the score of the first one that did not fit.
 */
module FailedEntryListing {
  import opened Options
  import opened Naturals
  import opened Positions

  datatype Member = Member(name: string, score: int)

  /** The sorted set of an hour, in increasing order of scores. */
  datatype HourSet = HourSet(hour: int, members: seq<Member>)

  const LISTING_LIMIT: nat := 100

  // One page

  /** The members of a set with a score up to `max`, as the range query returns them. */
  function UpTo(members: seq<Member>, max: int): seq<Member> {
    if members == [] then []
    else
      var last := members[|members| - 1];
      UpTo(members[..|members| - 1], max) + (if last.score <= max then [last] else [])
  }

  /** `found` stand at the positions `ps`, which are all those of scores up to `max`. */
  predicate UpToAt(members: seq<Member>, max: int, found: seq<Member>, ps: seq<nat>) {
    && Rising(ps, |members|) && |found| == |ps|
    && (forall j :: 0 <= j < |ps| ==> found[j] == members[ps[j]])
    && (forall k :: 0 <= k < |members| ==> (members[k].score <= max <==> k in ps))
  }

  lemma OneMoreUpTo(members: seq<Member>, max: int, found: seq<Member>, ps: seq<nat>, x: Member)
    returns (more: seq<nat>)
    requires UpToAt(members, max, found, ps)
    ensures UpToAt(members + [x], max, found + (if x.score <= max then [x] else []), more)
  {
    more := OneMorePosition(ps, |members|, x.score <= max);
  }

  /** Whatever the marker is, the range query gives the members with a score up to it, in their order. */
  lemma {:induction false} UpToIsExact(members: seq<Member>, max: int) returns (ps: seq<nat>)
    ensures UpToAt(members, max, UpTo(members, max), ps)
  {
    if members == [] {
      ps := [];
    } else {
      hide UpToAt;
      var init, last := members[..|members| - 1], members[|members| - 1];
      var before := UpToIsExact(init, max);
      ps := OneMoreUpTo(init, max, UpTo(init, max), before, last);
      assert init + [last] == members;
    }
  }

  function MembersOf(sets: seq<HourSet>): seq<seq<Member>> {
    if sets == [] then [] else [sets[0].members] + MembersOf(sets[1..])
  }

  /** The sets from the one of the hour of `score` on. The hour of a time is told by the statistics client. */
  function ReduceSortedSetKeys(score: int, sets: seq<HourSet>, hourOf: int -> int): seq<HourSet> {
    if sets == [] then []
    else if sets[0].hour == hourOf(score) then sets
    else ReduceSortedSetKeys(score, sets[1..], hourOf)
  }

  /** The sets kept are those from the first of the marker's hour on, and none if there is no such set. */
  lemma {:induction false} ReduceIsExact(score: int, sets: seq<HourSet>, hourOf: int -> int)
    ensures (forall i :: 0 <= i < |sets| ==> sets[i].hour != hourOf(score)) ==>
              ReduceSortedSetKeys(score, sets, hourOf) == []
    ensures forall k :: 0 <= k < |sets| && sets[k].hour == hourOf(score)
                        && (forall i :: 0 <= i < k ==> sets[i].hour != hourOf(score)) ==>
              ReduceSortedSetKeys(score, sets, hourOf) == sets[k..]
  {
    if sets != [] && sets[0].hour != hourOf(score) {
      var rest := sets[1..];
      ReduceIsExact(score, rest, hourOf);
      forall k | 0 <= k < |sets| && sets[k].hour == hourOf(score)
                 && (forall i :: 0 <= i < k ==> sets[i].hour != hourOf(score))
        ensures ReduceSortedSetKeys(score, sets, hourOf) == sets[k..]
      {
        assert rest[k - 1] == sets[k] && rest[k - 1..] == sets[k..];
        forall i | 0 <= i < k - 1 ensures rest[i].hour != hourOf(score) {
          assert rest[i] == sets[i + 1];
        }
      }
    }
  }

  /** What the range queries of a request return, set by set. A marker of 0 stands for none. */
  function Rows(marker: int, sets: seq<HourSet>, hourOf: int -> int): seq<seq<Member>> {
    if marker == 0 then MembersOf(sets)
    else
      var reduced := ReduceSortedSetKeys(marker, sets, hourOf);
      if reduced == [] then [] else [UpTo(reduced[0].members, marker)] + MembersOf(reduced[1..])
  }

  /** A page with room for `room` entries: the highest of each row, in their order there. */
  function Take(rows: seq<seq<Member>>, room: nat): seq<Member> {
    if rows == [] then []
    else if |rows[0]| >= room then rows[0][|rows[0]| - room..]
    else rows[0] + Take(rows[1..], room - |rows[0]|)
  }

  /** The first entry that does not fit. */
  function Next(rows: seq<seq<Member>>, room: nat): Option<Member> {
    if rows == [] then None
    else if |rows[0]| > room then Some(rows[0][|rows[0]| - room - 1])
    else Next(rows[1..], room - |rows[0]|)
  }

  function ScoreOf(m: Option<Member>): Option<int> {
    if m.Some? then Some(m.value.score) else None
  }

  /** What one more row does to the page. */
  lemma TakeRow(rows: seq<seq<Member>>, i: nat, room: nat)
    requires i < |rows|
    ensures var row := rows[i];
            && (|row| > room ==>
                  Take(rows[i..], room) == row[|row| - room..] && Next(rows[i..], room) == Some(row[|row| - room - 1]))
            && (|row| <= room ==> && Take(rows[i..], room) == row + Take(rows[i + 1..], room - |row|)
                                  && Next(rows[i..], room) == Next(rows[i + 1..], room - |row|))
  {
    assert rows[i..][1..] == rows[i + 1..];
    assert Take(rows[i + 1..], 0) == [];
  }

  /** The results of one query join the page: the highest ones that fit, and the marker if one does not. */
  method AddResults(entries: seq<Member>, results: seq<Member>, ghost rows: seq<seq<Member>>, ghost i: nat)
    returns (page: seq<Member>, nextMarker: Option<int>, hasLastMember: bool)
    requires i < |rows| && rows[i] == results && |entries| <= LISTING_LIMIT && Remaining(rows, i, entries, None)
    ensures |page| <= LISTING_LIMIT
    ensures nextMarker.Some? ==> Complete(rows, page, nextMarker) && hasLastMember && |page| == LISTING_LIMIT
    ensures nextMarker.None? ==> Remaining(rows, i + 1, page, None) && (hasLastMember ==> |page| < LISTING_LIMIT)
    ensures nextMarker.None? && i + 1 == |rows| ==> Complete(rows, page, None)
  {
    var total := |results| + |entries|;
    if total > LISTING_LIMIT {
      RowOverflows(rows, i, entries);
    } else {
      RowFits(rows, i, entries);
      if i + 1 == |rows| {
        NoRowsLeft(rows, i + 1, entries + results);
      }
    }
    if total >= LISTING_LIMIT {
      var index := total - LISTING_LIMIT;
      if index == 0 {
        return entries + results, None, false;
      }
      return entries + results[index..], Some(results[index - 1].score), true;
    }
    return entries + results, None, true;
  }

  lemma {:induction false} MembersAt(sets: seq<HourSet>, i: nat)
    requires i < |sets|
    ensures |MembersOf(sets)| == |sets| && MembersOf(sets)[i] == sets[i].members
  {
    if |sets| > 1 {
      MembersAt(sets[1..], if i > 0 then i - 1 else 0);
    }
  }

  lemma RowAt(marker: int, allKeys: seq<HourSet>, keys: seq<HourSet>, i: nat, hourOf: int -> int)
    requires keys == (if marker != 0 then ReduceSortedSetKeys(marker, allKeys, hourOf) else allKeys) && i < |keys|
    ensures |Rows(marker, allKeys, hourOf)| == |keys|
    ensures Rows(marker, allKeys, hourOf)[i] ==
            if i == 0 && marker != 0 then UpTo(keys[0].members, marker) else keys[i].members
  {
    MembersAt(keys, i);
  }

  method GetEntriesBySite(marker: int, allKeys: seq<HourSet>, hourOf: int -> int)
      returns (nextMarker: Option<int>, entries: seq<Member>)
    ensures entries == Take(Rows(marker, allKeys, hourOf), LISTING_LIMIT)
    ensures nextMarker == ScoreOf(Next(Rows(marker, allKeys, hourOf), LISTING_LIMIT))
    ensures exists ps :: InRowOrder(Rows(marker, allKeys, hourOf), entries, ps)
    ensures |entries| <= 100
  {
    ghost var ps := TakeIsInRowOrder(Rows(marker, allKeys, hourOf), LISTING_LIMIT);
    hide InRowOrder;
    var score := marker;
    var keys := if score != 0 then ReduceSortedSetKeys(score, allKeys, hourOf) else allKeys;
    nextMarker, entries := None, [];
    if |keys| == 0 {
      return;
    }
    ghost var rows := Rows(marker, allKeys, hourOf);
    RowAt(marker, allKeys, keys, 0, hourOf);
    assert rows[0..] == rows;
    var shouldContinue, i := true, 0;
    while shouldContinue
      invariant i <= |keys| && |entries| <= LISTING_LIMIT && score == (if i == 0 then marker else 0)
      invariant shouldContinue ==> i < |keys| && Remaining(rows, i, entries, nextMarker)
      invariant !shouldContinue ==> Complete(rows, entries, nextMarker)
      decreases |keys| - i, shouldContinue
    {
      var results := keys[i].members;
      if score != 0 {
        results := UpTo(results, score);
        score := 0;
      }
      RowAt(marker, allKeys, keys, i, hourOf);
      var hasLastMember;
      entries, nextMarker, hasLastMember := AddResults(entries, results, rows, i);
      i := i + 1;
      shouldContinue := i < |keys| && (!hasLastMember || |entries| < LISTING_LIMIT);
    }
  }

  /** The rows from `i` on complete the page. */
  ghost predicate Remaining(rows: seq<seq<Member>>, i: nat, entries: seq<Member>, marker: Option<int>)
    requires i <= |rows| && |entries| <= LISTING_LIMIT
  {
    && entries + Take(rows[i..], LISTING_LIMIT - |entries|) == Take(rows, LISTING_LIMIT)
    && marker.None? && Next(rows[i..], LISTING_LIMIT - |entries|) == Next(rows, LISTING_LIMIT)
  }

  ghost predicate Complete(rows: seq<seq<Member>>, entries: seq<Member>, marker: Option<int>) {
    entries == Take(rows, LISTING_LIMIT) && marker == ScoreOf(Next(rows, LISTING_LIMIT))
  }

  lemma Assoc(a: seq<Member>, b: seq<Member>, c: seq<Member>)
    ensures (a + b) + c == a + (b + c)
  {
  }

  lemma RowFits(rows: seq<seq<Member>>, i: nat, entries: seq<Member>)
    requires i < |rows| && |entries| + |rows[i]| <= LISTING_LIMIT && Remaining(rows, i, entries, None)
    ensures Remaining(rows, i + 1, entries + rows[i], None)
  {
    var room := LISTING_LIMIT - |entries|;
    var rest := Take(rows[i + 1..], room - |rows[i]|);
    TakeRow(rows, i, room);
    Assoc(entries, rows[i], rest);
  }

  lemma RowOverflows(rows: seq<seq<Member>>, i: nat, entries: seq<Member>)
    requires i < |rows| && |entries| <= LISTING_LIMIT && Remaining(rows, i, entries, None)
    requires |rows[i]| > LISTING_LIMIT - |entries|
    ensures var index := |rows[i]| - (LISTING_LIMIT - |entries|);
            Complete(rows, entries + rows[i][index..], Some(rows[i][index - 1].score))
  {
    TakeRow(rows, i, LISTING_LIMIT - |entries|);
  }

  lemma NoRowsLeft(rows: seq<seq<Member>>, i: nat, entries: seq<Member>)
    requires i == |rows| && |entries| <= LISTING_LIMIT && Remaining(rows, i, entries, None)
    ensures Complete(rows, entries, None)
  {
    assert rows[i..] == [];
  }

  /** The entries of a page come from these places of the rows, row by row and in increasing order there. */
  predicate InRowOrder(rows: seq<seq<Member>>, page: seq<Member>, ps: seq<(nat, nat)>) {
    && RisingPairs(ps) && |ps| == |page|
    && forall k :: 0 <= k < |ps| ==>
         ps[k].0 < |rows| && ps[k].1 < |rows[ps[k].0]| && page[k] == rows[ps[k].0][ps[k].1]
  }

  function SuffixPlaces(len: nat, room: nat): seq<(nat, nat)>
    requires room <= len
  {
    seq(room, k requires 0 <= k < room => (0, len - room + k))
  }

  function NextRow(ps: seq<(nat, nat)>): seq<(nat, nat)> {
    seq(|ps|, k requires 0 <= k < |ps| => (ps[k].0 + 1, ps[k].1))
  }

  lemma {:induction false} TakeIsInRowOrder(rows: seq<seq<Member>>, room: nat) returns (ps: seq<(nat, nat)>)
    ensures InRowOrder(rows, Take(rows, room), ps)
    decreases |rows|
  {
    if rows == [] {
      ps := [];
    } else if |rows[0]| >= room {
      ps := SuffixPlaces(|rows[0]|, room);
    } else {
      hide InRowOrder;
      var rest := TakeIsInRowOrder(rows[1..], room - |rows[0]|);
      ps := RowThenRest(rows, Take(rows[1..], room - |rows[0]|), rest);
    }
  }

  lemma RowThenRest(rows: seq<seq<Member>>, page: seq<Member>, rest: seq<(nat, nat)>) returns (ps: seq<(nat, nat)>)
    requires rows != [] && InRowOrder(rows[1..], page, rest)
    ensures InRowOrder(rows, rows[0] + page, ps)
  {
    ps := SuffixPlaces(|rows[0]|, |rows[0]|) + NextRow(rest);
    forall k | |rows[0]| <= k < |ps|
      ensures ps[k].0 < |rows| && ps[k].1 < |rows[ps[k].0]| && (rows[0] + page)[k] == rows[ps[k].0][ps[k].1]
    {
      var at := rest[k - |rows[0]|];
      assert ps[k] == (at.0 + 1, at.1) && rows[1..][at.0] == rows[at.0 + 1];
    }
  }

  // All the entries

  function Reversed(ms: seq<Member>): (r: seq<Member>)
    ensures |r| == |ms|
  {
    if ms == [] then [] else [ms[|ms| - 1]] + Reversed(ms[..|ms| - 1])
  }

  /** The full listing: row after row, each from its last entry to its first. */
  function Listing(rows: seq<seq<Member>>): seq<Member> {
    if rows == [] then [] else Reversed(rows[0]) + Listing(rows[1..])
  }

  lemma {:induction false} ReversedAt(ms: seq<Member>, k: nat)
    requires k < |ms|
    ensures Reversed(ms)[k] == ms[|ms| - 1 - k]
  {
    if |ms| > 1 {
      ReversedAt(ms[..|ms| - 1], if k > 0 then k - 1 else 0);
    }
  }

  /** The first entries from the end are the highest ones. */
  lemma {:induction false} ReversedSplit(ms: seq<Member>, k: nat)
    requires k <= |ms|
    ensures Reversed(ms)[..k] == Reversed(ms[|ms| - k..]) && Reversed(ms)[k..] == Reversed(ms[..|ms| - k])
  {
    if k > 0 {
      var init := ms[..|ms| - 1];
      ReversedSplit(init, k - 1);
      assert ms[|ms| - k..][..k - 1] == init[|init| - (k - 1)..];
      assert init[..|init| - (k - 1)] == ms[..|ms| - k];
    } else {
      assert ms[..|ms|] == ms;
    }
  }

  lemma {:induction false} ReversedSame(ms: seq<Member>)
    ensures multiset(Reversed(ms)) == multiset(ms)
  {
    if ms != [] {
      ReversedSame(ms[..|ms| - 1]);
      assert ms == ms[..|ms| - 1] + [ms[|ms| - 1]];
    }
  }

  function Front(all: seq<Member>, room: nat): seq<Member> {
    all[..Min(room, |all|)]
  }

  function After(all: seq<Member>, room: nat): Option<Member> {
    if room < |all| then Some(all[room]) else None
  }

  predicate IsPrefix(page: seq<Member>, next: Option<Member>, all: seq<Member>, room: nat) {
    multiset(page) == multiset(Front(all, room)) && |page| == |Front(all, room)| && next == After(all, room)
  }

  lemma PrefixOfRow(row: seq<Member>, rest: seq<Member>, room: nat)
    requires room < |row|
    ensures IsPrefix(row[|row| - room..], Some(row[|row| - room - 1]), Reversed(row) + rest, room)
  {
    ReversedSplit(row, room);
    ReversedSame(row[|row| - room..]);
    ReversedAt(row, room);
    assert Front(Reversed(row) + rest, room) == Reversed(row)[..room];
  }

  lemma ReversedInFront(row: seq<Member>, page: seq<Member>, some: seq<Member>)
    requires multiset(page) == multiset(some)
    ensures multiset(row + page) == multiset(Reversed(row) + some)
  {
    ReversedSame(row);
  }

  lemma FrontAfterRow(row: seq<Member>, rest: seq<Member>, room: nat)
    requires |row| <= room
    ensures Front(row + rest, room) == row + Front(rest, room - |row|)
    ensures After(row + rest, room) == After(rest, room - |row|)
  {
  }

  lemma PrefixAfterRow(row: seq<Member>, page: seq<Member>, next: Option<Member>, rest: seq<Member>, room: nat)
    requires |row| <= room && IsPrefix(page, next, rest, room - |row|)
    ensures IsPrefix(row + page, next, Reversed(row) + rest, room)
  {
    FrontAfterRow(Reversed(row), rest, room);
    ReversedInFront(row, page, Front(rest, room - |row|));
  }

  /** A page is the first entries of the listing, and its marker is at the next one. */
  lemma {:induction false} TakeIsListing(rows: seq<seq<Member>>, room: nat)
    ensures IsPrefix(Take(rows, room), Next(rows, room), Listing(rows), room)
    decreases |rows|
  {
    if rows != [] {
      TakeRow(rows, 0, room);
      assert rows[0..] == rows;
      if |rows[0]| > room {
        PrefixOfRow(rows[0], Listing(rows[1..]), room);
      } else {
        TakeIsListing(rows[1..], room - |rows[0]|);
        PrefixAfterRow(rows[0], Take(rows[1..], room - |rows[0]|), Next(rows[1..], room - |rows[0]|),
          Listing(rows[1..]), room);
      }
    }
  }

  // Following the markers

  /** Scores are positive and increase in a set, each in the hour of its set, and sets go back in time. */
  predicate WellFormed(sets: seq<HourSet>, hourOf: int -> int) {
    && (forall i, j :: 0 <= i < j < |sets| ==> sets[i].hour > sets[j].hour)
    && (forall i :: 0 <= i < |sets| ==> WellFormedSet(sets[i], hourOf))
  }

  predicate WellFormedSet(hs: HourSet, hourOf: int -> int) {
    && (forall i :: 0 <= i < |hs.members| ==> 0 < hs.members[i].score && hourOf(hs.members[i].score) == hs.hour)
    && (forall i, j :: 0 <= i < j < |hs.members| ==> hs.members[i].score < hs.members[j].score)
  }

  function All(sets: seq<HourSet>): seq<Member> {
    Listing(MembersOf(sets))
  }

  lemma {:induction false} UpToMember(members: seq<Member>, k: nat)
    requires k < |members| && forall i, j :: 0 <= i < j < |members| ==> members[i].score < members[j].score
    ensures UpTo(members, members[k].score) == members[..k + 1]
  {
    var init := members[..|members| - 1];
    if k < |init| {
      UpToMember(init, k);
      assert init[..k + 1] == members[..k + 1];
    } else {
      UpToAll(init, members[k].score);
      assert members == init + [members[k]];
    }
  }

  lemma {:induction false} UpToAll(members: seq<Member>, max: int)
    requires forall i :: 0 <= i < |members| ==> members[i].score <= max
    ensures UpTo(members, max) == members
  {
    if members != [] {
      UpToAll(members[..|members| - 1], max);
    }
  }

  lemma AllStep(sets: seq<HourSet>)
    requires sets != []
    ensures All(sets) == Reversed(sets[0].members) + All(sets[1..])
  {
  }

  /** Every entry comes from a set. */
  lemma {:induction false} AllFrom(sets: seq<HourSet>, i: nat) returns (k: nat, j: nat)
    requires i < |All(sets)|
    ensures k < |sets| && j < |sets[k].members| && All(sets)[i] == sets[k].members[j]
    decreases |sets|
  {
    AllStep(sets);
    var members := sets[0].members;
    if i < |members| {
      ReversedAt(members, i);
      k, j := 0, |members| - 1 - i;
    } else {
      k, j := AllFrom(sets[1..], i - |members|);
      k := k + 1;
    }
  }

  lemma RowsInFirst(sets: seq<HourSet>, k: nat, hourOf: int -> int)
    requires sets != [] && WellFormedSet(sets[0], hourOf) && k < |sets[0].members|
    ensures var score := sets[0].members[k].score;
            score > 0 && Rows(score, sets, hourOf) == [sets[0].members[..k + 1]] + MembersOf(sets[1..])
  {
    UpToMember(sets[0].members, k);
  }

  lemma ListingStep(row: seq<Member>, rows: seq<seq<Member>>)
    ensures Listing([row] + rows) == Reversed(row) + Listing(rows)
  {
    assert ([row] + rows)[1..] == rows;
  }

  /** The score of an entry of a later set is in an earlier hour. */
  lemma LaterEntry(sets: seq<HourSet>, i: nat, hourOf: int -> int)
    requires sets != [] && WellFormed(sets, hourOf) && i < |All(sets[1..])|
    ensures WellFormed(sets[1..], hourOf) && hourOf(All(sets[1..])[i].score) < sets[0].hour
  {
    var k, j := AllFrom(sets[1..], i);
    assert WellFormedSet(sets[1 + k], hourOf);
  }

  /** A request whose marker is entry `i` lists from that entry on. */
  predicate ResumesAt(sets: seq<HourSet>, i: nat, hourOf: int -> int) {
    i < |All(sets)| && All(sets)[i].score > 0 && Listing(Rows(All(sets)[i].score, sets, hourOf)) == All(sets)[i..]
  }

  lemma FirstResumes(sets: seq<HourSet>, i: nat, hourOf: int -> int)
    requires sets != [] && WellFormedSet(sets[0], hourOf) && i < |sets[0].members|
    ensures ResumesAt(sets, i, hourOf)
  {
    var members := sets[0].members;
    RowsInFirst(sets, |members| - 1 - i, hourOf);
    hide WellFormedSet, UpTo, Rows;
    AllStep(sets);
    InFirst(Reversed(members), All(sets[1..]), i);
    ReversedAt(members, i);
    ReversedSplit(members, i);
    ListingStep(members[..|members| - i], MembersOf(sets[1..]));
  }

  lemma InFirst(first: seq<Member>, rest: seq<Member>, i: nat)
    requires i < |first|
    ensures (first + rest)[i] == first[i] && (first + rest)[i..] == first[i..] + rest
  {
  }

  lemma SkipsFirst(sets: seq<HourSet>, score: int, hourOf: int -> int)
    requires sets != [] && score > 0 && hourOf(score) < sets[0].hour
    ensures Rows(score, sets, hourOf) == Rows(score, sets[1..], hourOf)
  {
  }

  lemma AfterFirst(first: seq<Member>, rest: seq<Member>, i: nat)
    requires i < |rest|
    ensures (first + rest)[|first| + i] == rest[i] && (first + rest)[|first| + i..] == rest[i..]
  {
  }

  lemma LaterResumes(sets: seq<HourSet>, i: nat, hourOf: int -> int)
    requires sets != [] && ResumesAt(sets[1..], i, hourOf) && hourOf(All(sets[1..])[i].score) < sets[0].hour
    ensures ResumesAt(sets, |sets[0].members| + i, hourOf)
  {
    var n, all, rest := |sets[0].members|, All(sets), All(sets[1..]);
    AllStep(sets);
    AfterFirst(Reversed(sets[0].members), rest, i);
    assert all[n + i] == rest[i] && all[n + i..] == rest[i..];
    SkipsFirst(sets, rest[i].score, hourOf);
    assert Listing(Rows(all[n + i].score, sets, hourOf)) == rest[i..];
  }

  lemma {:induction false} MarkerResumes(sets: seq<HourSet>, i: nat, hourOf: int -> int)
    requires WellFormed(sets, hourOf) && i < |All(sets)|
    ensures ResumesAt(sets, i, hourOf)
    decreases |sets|
  {
    var n := |sets[0].members|;
    assert WellFormedSet(sets[0], hourOf);
    if i < n {
      FirstResumes(sets, i, hourOf);
    } else {
      AllStep(sets);
      var j := i - n;
      LaterEntry(sets, j, hourOf);
      MarkerResumes(sets[1..], j, hourOf);
      LaterResumes(sets, j, hourOf);
      assert n + j == i;
    }
  }

  /** All the failures of the site, set by set. */
  function Everything(sets: seq<HourSet>): multiset<Member> {
    if sets == [] then multiset{} else multiset(sets[0].members) + Everything(sets[1..])
  }

  lemma {:induction false} AllIsEverything(sets: seq<HourSet>)
    ensures multiset(All(sets)) == Everything(sets)
  {
    if sets != [] {
      AllStep(sets);
      ReversedSame(sets[0].members);
      AllIsEverything(sets[1..]);
    }
  }

  /** Every entry can be used as a marker. */
  predicate Resumable(sets: seq<HourSet>, hourOf: int -> int) {
    forall i :: 0 <= i < |All(sets)| ==> ResumesAt(sets, i, hourOf)
  }

  lemma WellFormedIsResumable(sets: seq<HourSet>, hourOf: int -> int)
    requires WellFormed(sets, hourOf)
    ensures Resumable(sets, hourOf)
  {
    forall i | 0 <= i < |All(sets)| ensures ResumesAt(sets, i, hourOf) {
      MarkerResumes(sets, i, hourOf);
    }
  }

  /** One answer of the listing, as a client sees it. */
  predicate Answer(sets: seq<HourSet>, marker: int, entries: seq<Member>, nextMarker: Option<int>, hourOf: int -> int) {
    && entries == Take(Rows(marker, sets, hourOf), LISTING_LIMIT)
    && nextMarker == ScoreOf(Next(Rows(marker, sets, hourOf), LISTING_LIMIT))
  }

  function MarkerOf(markers: seq<Option<int>>, i: nat): int
    requires i <= |markers|
  {
    if i == 0 then 0 else markers[i - 1].GetOr(0)
  }

  /** Requests made one after the other, the first without a marker and each next one with the marker returned. */
  predicate Walk(sets: seq<HourSet>, pages: seq<seq<Member>>, markers: seq<Option<int>>, hourOf: int -> int) {
    && |pages| == |markers|
    && (forall i :: 0 <= i < |pages| - 1 ==> markers[i].Some?)
    && (forall i :: 0 <= i < |pages| ==> Answer(sets, MarkerOf(markers, i), pages[i], markers[i], hourOf))
  }

  /** The `p`-th page of the listing, cut every hundred entries. */
  function Cut(all: seq<Member>, p: nat): seq<Member> {
    all[Min(LISTING_LIMIT * p, |all|)..Min(LISTING_LIMIT * (p + 1), |all|)]
  }

  /** A page holds the entries of its cut, and is followed by another exactly when the listing goes on. */
  predicate PageIs(all: seq<Member>, p: nat, page: seq<Member>, marker: Option<int>) {
    && multiset(page) == multiset(Cut(all, p))
    && |page| == |Cut(all, p)|
    && marker == ScoreOf(After(all, LISTING_LIMIT * (p + 1)))
  }

  lemma CutIsFront(all: seq<Member>, p: nat)
    requires LISTING_LIMIT * p <= |all|
    ensures Front(all[LISTING_LIMIT * p..], LISTING_LIMIT) == Cut(all, p)
    ensures After(all[LISTING_LIMIT * p..], LISTING_LIMIT) == After(all, LISTING_LIMIT * (p + 1))
  {
  }

  lemma AnswerIsPage(sets: seq<HourSet>, p: nat, page: seq<Member>, marker: int, next: Option<int>, hourOf: int -> int)
    requires Answer(sets, marker, page, next, hourOf) && LISTING_LIMIT * p <= |All(sets)|
    requires Listing(Rows(marker, sets, hourOf)) == All(sets)[LISTING_LIMIT * p..]
    ensures PageIs(All(sets), p, page, next)
  {
    TakeIsListing(Rows(marker, sets, hourOf), LISTING_LIMIT);
    CutIsFront(All(sets), p);
  }

  lemma FirstPage(sets: seq<HourSet>, page: seq<Member>, next: Option<int>, hourOf: int -> int)
    requires Answer(sets, 0, page, next, hourOf)
    ensures PageIs(All(sets), 0, page, next)
  {
    assert All(sets)[0..] == All(sets);
    AnswerIsPage(sets, 0, page, 0, next, hourOf);
  }

  lemma NextPage(sets: seq<HourSet>, p: nat, page: seq<Member>, marker: Option<int>, next: Option<int>,
      hourOf: int -> int)
    requires Resumable(sets, hourOf) && marker.Some? && marker == ScoreOf(After(All(sets), LISTING_LIMIT * p))
    requires Answer(sets, marker.value, page, next, hourOf)
    ensures PageIs(All(sets), p, page, next) && LISTING_LIMIT * p < |All(sets)|
  {
    assert ResumesAt(sets, LISTING_LIMIT * p, hourOf);
    AnswerIsPage(sets, p, page, marker.value, next, hourOf);
  }

  lemma {:induction false} WalkPage(sets: seq<HourSet>, pages: seq<seq<Member>>, markers: seq<Option<int>>, p: nat,
      hourOf: int -> int)
    requires Resumable(sets, hourOf) && Walk(sets, pages, markers, hourOf) && p < |pages|
    ensures PageIs(All(sets), p, pages[p], markers[p]) && (p > 0 ==> LISTING_LIMIT * p < |All(sets)|)
  {
    assert Answer(sets, MarkerOf(markers, p), pages[p], markers[p], hourOf);
    if p == 0 {
      FirstPage(sets, pages[0], markers[0], hourOf);
    } else {
      WalkPage(sets, pages, markers, p - 1, hourOf);
      NextPage(sets, p, pages[p], markers[p - 1], markers[p], hourOf);
    }
  }

  function Concat(pages: seq<seq<Member>>): seq<Member> {
    if pages == [] then [] else Concat(pages[..|pages| - 1]) + pages[|pages| - 1]
  }

  lemma {:induction false} CutsJoin(all: seq<Member>, pages: seq<seq<Member>>)
    requires forall p :: 0 <= p < |pages| ==> multiset(pages[p]) == multiset(Cut(all, p))
    ensures multiset(Concat(pages)) == multiset(all[..Min(LISTING_LIMIT * |pages|, |all|)])
  {
    if pages != [] {
      var init := pages[..|pages| - 1];
      CutsJoin(all, init);
      assert all[..Min(LISTING_LIMIT * |pages|, |all|)] == all[..Min(LISTING_LIMIT * |init|, |all|)] + Cut(all, |init|);
    }
  }

  lemma WalkPages(sets: seq<HourSet>, pages: seq<seq<Member>>, markers: seq<Option<int>>, hourOf: int -> int)
    requires Resumable(sets, hourOf) && Walk(sets, pages, markers, hourOf)
    ensures forall p :: 0 <= p < |pages| ==> PageIs(All(sets), p, pages[p], markers[p])
    ensures |pages| > 1 ==> LISTING_LIMIT * (|pages| - 1) < |All(sets)|
  {
    forall p | 0 <= p < |pages| ensures PageIs(All(sets), p, pages[p], markers[p]) {
      WalkPage(sets, pages, markers, p, hourOf);
    }
    if |pages| > 1 {
      WalkPage(sets, pages, markers, |pages| - 1, hourOf);
    }
  }

  /**
    Following the markers until there is none visits every entry exactly once, in pages that
    hold the entries of the full listing cut every hundred.
   */
  lemma PaginationIsFullListing(sets: seq<HourSet>, pages: seq<seq<Member>>, markers: seq<Option<int>>,
      hourOf: int -> int)
    requires WellFormed(sets, hourOf) && Walk(sets, pages, markers, hourOf)
    ensures forall p :: 0 <= p < |pages| ==> multiset(pages[p]) == multiset(Cut(All(sets), p))
    ensures pages != [] && markers[|pages| - 1].None? ==> multiset(Concat(pages)) == Everything(sets)
  {
    var all := All(sets);
    WellFormedIsResumable(sets, hourOf);
    WalkPages(sets, pages, markers, hourOf);
    CutsJoin(all, pages);
    if pages != [] && markers[|pages| - 1].None? {
      assert PageIs(all, |pages| - 1, pages[|pages| - 1], markers[|pages| - 1]);
      assert all[..Min(LISTING_LIMIT * |pages|, |all|)] == all;
      AllIsEverything(sets);
    }
  }

  /** Every page but the last has exactly a hundred entries, and the walk ends within the pages that this takes. */
  lemma PagesAreFull(sets: seq<HourSet>, pages: seq<seq<Member>>, markers: seq<Option<int>>, hourOf: int -> int)
    requires WellFormed(sets, hourOf) && Walk(sets, pages, markers, hourOf)
    ensures forall p :: 0 <= p < |pages| - 1 ==> |pages[p]| == 100
    ensures |pages| > 1 ==> LISTING_LIMIT * (|pages| - 1) < |All(sets)|
  {
    WellFormedIsResumable(sets, hourOf);
    WalkPages(sets, pages, markers, hourOf);
    forall p | 0 <= p < |pages| - 1 ensures |pages[p]| == 100 {
      assert PageIs(All(sets), p, pages[p], markers[p]) && markers[p].Some?;
    }
  }
}
