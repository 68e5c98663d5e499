/** Counting the flags that are set. */
module Flags {

  function Count(flags: seq<bool>): (n: nat)
    ensures n <= |flags|
  {
    if flags == [] then 0 else Count(flags[..|flags| - 1]) + (if flags[|flags| - 1] then 1 else 0)
  }

  lemma CountSnoc(flags: seq<bool>, flag: bool)
    ensures Count(flags + [flag]) == Count(flags) + (if flag then 1 else 0)
  {
    assert (flags + [flag])[..|flags|] == flags;
  }

  lemma CountSet(flags: seq<bool>, i: nat)
    requires i < |flags| && !flags[i]
    ensures Count(flags[i := true]) == Count(flags) + 1
  {
    CountCleared(flags[i := true], i);
    assert flags[i := true][i := false] == flags;
  }

  lemma {:induction false} CountCleared(flags: seq<bool>, i: nat)
    requires i < |flags| && flags[i]
    ensures Count(flags[i := false]) == Count(flags) - 1
  {
    var last := |flags| - 1;
    if i == last {
      assert flags[i := false][..last] == flags[..last];
    } else {
      CountCleared(flags[..last], i);
      assert flags[i := false][..last] == flags[..last][i := false];
    }
  }

  lemma CountSome(flags: seq<bool>, i: nat)
    requires i < |flags| && flags[i]
    ensures Count(flags) > 0
  {
    CountCleared(flags, i);
  }

  lemma {:induction false} CountNone(flags: seq<bool>)
    requires forall i :: 0 <= i < |flags| ==> !flags[i]
    ensures Count(flags) == 0
  {
    if flags != [] {
      CountNone(flags[..|flags| - 1]);
    }
  }
}
