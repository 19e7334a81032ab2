/** Ascending iteration over the keys of an ordered map. */
module Ordered {
  import opened Chain

  ghost predicate Ascending(keys: seq<nat>) {
    forall i, j :: 0 <= i < j < |keys| ==> keys[i] < keys[j]
  }

  /** `keys` lists `s` in ascending order, each element once. */
  ghost predicate Enumerates(keys: seq<nat>, s: set<nat>) {
    Ascending(keys) && forall k :: k in keys <==> k in s
  }

  lemma HasSmallest(s: set<nat>)
    requires s != {}
    ensures exists k :: k in s && forall j :: j in s ==> k <= j
  {
    var k :| k in s;
    SmallestBelow(s, k);
  }

  lemma {:induction false} SmallestBelow(s: set<nat>, k: nat)
    requires k in s
    ensures exists m :: m in s && forall j :: j in s ==> m <= j
    decreases k
  {
    if j :| j in s && j < k {
      SmallestBelow(s, j);
    }
  }

  lemma {:induction false} HasLargest(s: set<nat>)
    requires s != {}
    ensures exists k :: k in s && forall j :: j in s ==> j <= k
    decreases |s|
  {
    var k :| k in s;
    if s != {k} {
      HasLargest(s - {k});
      var m :| m in s - {k} && forall j :: j in s - {k} ==> j <= m;
      assert forall j :: j in s ==> j == k || j in s - {k};
      if m < k {
        assert forall j :: j in s ==> j <= k;
      } else {
        assert forall j :: j in s ==> j <= m;
      }
    }
  }

  function Smallest(s: set<nat>): (k: nat)
    requires s != {}
    ensures k in s && forall j :: j in s ==> k <= j
  {
    HasSmallest(s);
    var k :| k in s && forall j :: j in s ==> k <= j;
    k
  }

  function Largest(s: set<nat>): (k: nat)
    requires s != {}
    ensures k in s && forall j :: j in s ==> j <= k
  {
    HasLargest(s);
    var k :| k in s && forall j :: j in s ==> j <= k;
    k
  }

  /** The elements of `s` in ascending order. */
  ghost function Listed(s: set<nat>): seq<nat> {
    if s == {} then [] else [Smallest(s)] + Listed(s - {Smallest(s)})
  }

  lemma {:induction false} ListedFacts(s: set<nat>)
    ensures Enumerates(Listed(s), s)
    decreases |s|
  {
    if s != {} {
      var k := Smallest(s);
      ListedFacts(s - {k});
      ListedStep(s);
      hide Listed, Smallest;
      FirstEnumerates(Listed(s - {k}), s, k);
    }
  }

  lemma ListedHas(s: set<nat>, k: nat)
    ensures k in Listed(s) <==> k in s
  {
    ListedFacts(s);
    hide Listed, Ascending;
  }

  lemma ListedAscends(s: set<nat>)
    ensures Ascending(Listed(s))
  {
    ListedFacts(s);
    hide Listed, Ascending;
  }

  lemma FirstEnumerates(rest: seq<nat>, s: set<nat>, k: nat)
    requires Enumerates(rest, s - {k}) && k in s && forall j :: j in s ==> k <= j
    ensures Enumerates([k] + rest, s)
  {
    assert forall i :: 0 <= i < |rest| ==> rest[i] in rest;
  }

  lemma ListedStep(s: set<nat>)
    requires s != {}
    ensures Listed(s) == [Smallest(s)] + Listed(s - {Smallest(s)})
  {
  }

  lemma ListedEnd()
    ensures Listed({}) == []
  {
  }

  /** The keys of an ordered map in iteration order. */
  method SortedKeys(s: set<nat>) returns (keys: seq<nat>)
    ensures keys == Listed(s) && Enumerates(keys, s)
  {
    hide *;
    ListedFacts(s);
    keys := [];
    var rest := s;
    while rest != {}
      invariant keys + Listed(rest) == Listed(s)
      decreases |rest|
    {
      var k := Smallest(rest);
      ListedStep(rest);
      Associate(keys, [k], Listed(rest - {k}));
      keys := keys + [k];
      rest := rest - {k};
    }
    ListedEnd();
  }
}
