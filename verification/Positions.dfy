/** Lists of positions in a sequence, to say what is kept of it, in order and as often as it occurs. */
module Positions {

  /** Increasing positions below `n`. */
  predicate Rising(ps: seq<nat>, n: nat) {
    && (forall i :: 0 <= i < |ps| ==> ps[i] < n)
    && (forall i, j :: 0 <= i < j < |ps| ==> ps[i] < ps[j])
  }

  lemma OneMorePosition(ps: seq<nat>, n: nat, taken: bool) returns (more: seq<nat>)
    requires Rising(ps, n)
    ensures more == (if taken then ps + [n] else ps) && Rising(more, n + 1)
    ensures forall k :: k in more <==> k in ps || (taken && k == n)
    ensures n !in ps
  {
    more := if taken then ps + [n] else ps;
  }

  /** Positions of positions, in the order of the first and then of the second. */
  predicate RisingPairs(ps: seq<(nat, nat)>) {
    forall i, j :: 0 <= i < j < |ps| ==> ps[i].0 < ps[j].0 || (ps[i].0 == ps[j].0 && ps[i].1 < ps[j].1)
  }

  /** Places to cut a sequence of length `len` into `n` pieces, some of them possibly empty. */
  predicate Cuts(cuts: seq<nat>, n: nat, len: nat) {
    && |cuts| == n + 1 && cuts[0] == 0 && cuts[n] == len
    && forall i, j :: 0 <= i < j <= n ==> cuts[i] <= cuts[j]
  }

  lemma OneMoreCut(cuts: seq<nat>, n: nat, len: nat, more: nat)
    requires Cuts(cuts, n, len)
    ensures Cuts(cuts + [len + more], n + 1, len + more)
  {
    assert forall i :: 0 <= i <= n ==> cuts[i] <= len;
  }
}
