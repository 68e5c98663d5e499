/** Sums over the keys of a map, in any order. */
module Sums {

  ghost function Total<K>(sizes: map<K, nat>, among: set<K>): nat
    requires among <= sizes.Keys
  {
    if among == {} then 0
    else
      var k :| k in among;
      sizes[k] + Total(sizes, among - {k})
  }

  /** The order of the sum does not matter. */
  lemma {:induction false} TotalAny<K>(sizes: map<K, nat>, among: set<K>, k: K)
    requires among <= sizes.Keys && k in among
    ensures Total(sizes, among) == sizes[k] + Total(sizes, among - {k})
  {
    var u :| u in among && Total(sizes, among) == sizes[u] + Total(sizes, among - {u});
    if k != u {
      TotalAny(sizes, among - {u}, k);
      TotalAny(sizes, among - {k}, u);
      assert among - {u} - {k} == among - {k} - {u};
    }
  }

  /** The elements of the parts, each with the key of its part. */
  function Pairs<K, X>(parts: map<K, set<X>>, among: set<K>): set<(K, X)>
    requires among <= parts.Keys
  {
    set k, x | k in among && x in parts[k] :: (k, x)
  }

  lemma {:induction false} PairUp<K, X>(k: K, xs: set<X>)
    ensures |set x | x in xs :: (k, x)| == |xs|
  {
    if xs != {} {
      var y :| y in xs;
      PairUp(k, xs - {y});
      assert (set x | x in xs :: (k, x)) == (set x | x in xs - {y} :: (k, x)) + {(k, y)};
    }
  }

  /** The sum of the sizes of some parts is the number of their elements. */
  lemma {:induction false} TotalIsCount<K, X>(sizes: map<K, nat>, parts: map<K, set<X>>, among: set<K>)
    requires among <= sizes.Keys && among <= parts.Keys && forall k :: k in among ==> |parts[k]| == sizes[k]
    ensures Total(sizes, among) == |Pairs(parts, among)|
  {
    if among != {} {
      var k :| k in among;
      TotalAny(sizes, among, k);
      TotalIsCount(sizes, parts, among - {k});
      PairUp(k, parts[k]);
      var row := set x | x in parts[k] :: (k, x);
      assert Pairs(parts, among) == Pairs(parts, among - {k}) + row;
      assert Pairs(parts, among - {k}) !! row;
    }
  }

  /** The numbers below `n`, which are `n`. */
  function Below(n: nat): (below: set<nat>)
    ensures |below| == n && forall j: nat :: j in below <==> j < n
  {
    if n == 0 then {} else Below(n - 1) + {n - 1}
  }
}
