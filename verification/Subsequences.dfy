/** Subsequences: what stays delivered when more is delivered. */
module Subsequences {
  import opened Positions

  /** `a` occurs in `b` in order, possibly with other elements in between. */
  predicate IsSub<T(==)>(a: seq<T>, b: seq<T>)
    decreases |b|
  {
    a == [] ||
    (b != [] &&
     if a[|a| - 1] == b[|b| - 1] then IsSub(a[..|a| - 1], b[..|b| - 1]) else IsSub(a, b[..|b| - 1]))
  }

  /** The elements of `a` stand in `b` at these positions. */
  predicate StandsAt<T(==)>(a: seq<T>, b: seq<T>, ps: seq<nat>) {
    Rising(ps, |b|) && |ps| == |a| && forall i :: 0 <= i < |a| ==> a[i] == b[ps[i]]
  }

  lemma {:induction false} SubHasPositions<T>(a: seq<T>, b: seq<T>) returns (ps: seq<nat>)
    requires IsSub(a, b)
    ensures StandsAt(a, b, ps)
    decreases |b|
  {
    if a == [] {
      ps := [];
    } else if a[|a| - 1] == b[|b| - 1] {
      ps := SubHasPositions(a[..|a| - 1], b[..|b| - 1]);
      ps := ps + [|b| - 1];
    } else {
      ps := SubHasPositions(a, b[..|b| - 1]);
    }
  }

  lemma {:induction false} PositionsMakeSub<T>(a: seq<T>, b: seq<T>, ps: seq<nat>)
    requires StandsAt(a, b, ps)
    ensures IsSub(a, b)
    decreases |b|
  {
    if a != [] {
      var last := |a| - 1;
      assert ps[last] < |b| && forall i :: 0 <= i < last ==> ps[i] < ps[last];
      if a[last] == b[|b| - 1] {
        PositionsMakeSub(a[..last], b[..|b| - 1], ps[..last]);
      } else {
        PositionsMakeSub(a, b[..|b| - 1], ps);
      }
    }
  }

  lemma {:induction false} SubDropLast<T>(a: seq<T>, b: seq<T>)
    requires IsSub(a, b) && a != []
    ensures IsSub(a[..|a| - 1], b)
    decreases |b|
  {
    var a', b' := a[..|a| - 1], b[..|b| - 1];
    if a[|a| - 1] == b[|b| - 1] {
      if a' != [] && a'[|a'| - 1] == b[|b| - 1] {
        SubDropLast(a', b');
      }
    } else {
      SubDropLast(a, b');
      if a' != [] && a'[|a'| - 1] == b[|b| - 1] {
        SubDropLast(a', b');
      }
    }
  }

  /** Delivering more keeps what was delivered. */
  lemma {:induction false} SubMore<T>(a: seq<T>, b: seq<T>, more: seq<T>)
    requires IsSub(a, b)
    ensures IsSub(a, b + more)
    decreases |more|
  {
    if more == [] {
      assert b + more == b;
    } else if a != [] {
      var b', x := b + more[..|more| - 1], more[|more| - 1];
      SubMore(a, b, more[..|more| - 1]);
      assert (b + more)[..|b + more| - 1] == b';
      if a[|a| - 1] == x {
        SubDropLast(a, b');
      }
    }
  }

  lemma SubSnoc<T>(a: seq<T>, b: seq<T>, x: T)
    requires IsSub(a, b)
    ensures IsSub(a + [x], b + [x])
  {
    assert (a + [x])[..|a|] == a && (b + [x])[..|b|] == b;
  }

  /** Delivering the same elements next extends what was delivered. */
  lemma {:induction false} SubBoth<T>(a: seq<T>, b: seq<T>, more: seq<T>)
    requires IsSub(a, b)
    ensures IsSub(a + more, b + more)
    decreases |more|
  {
    if more == [] {
      assert a + more == a && b + more == b;
    } else {
      var init, x := more[..|more| - 1], more[|more| - 1];
      SubBoth(a, b, init);
      SubSnoc(a + init, b + init, x);
      assert a + more == (a + init) + [x] && b + more == (b + init) + [x];
    }
  }

  lemma {:induction false} SubMember<T>(a: seq<T>, b: seq<T>, x: T)
    requires IsSub(a, b) && x in a
    ensures x in b
    decreases |b|
  {
    if a[|a| - 1] == b[|b| - 1] {
      if x != b[|b| - 1] {
        assert x in a[..|a| - 1];
        SubMember(a[..|a| - 1], b[..|b| - 1], x);
      }
    } else {
      SubMember(a, b[..|b| - 1], x);
    }
  }

  /** What occurs in order still does without its beginning. */
  lemma {:induction false} SubSuffix<T>(a: seq<T>, b: seq<T>, y: seq<T>)
    requires IsSub(a + b, y)
    ensures IsSub(b, y)
    decreases |y|
  {
    if b != [] {
      var y' := y[..|y| - 1];
      if b[|b| - 1] == y[|y| - 1] {
        assert (a + b)[..|a + b| - 1] == a + b[..|b| - 1];
        SubSuffix(a, b[..|b| - 1], y');
      } else {
        SubSuffix(a, b, y');
      }
    }
  }
}
