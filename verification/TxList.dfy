/** Plain lists of transactions: filtering, distinctness, and the reference meaning of the
    sequential pool's operations on a list. */
module TxList {
  import opened Chain

  function Filter(list: seq<Tx>, p: Tx -> bool): (r: seq<Tx>)
    ensures |r| <= |list|
  {
    if list == [] then [] else
      var last := |list| - 1;
      Filter(list[..last], p) + (if p(list[last]) then [list[last]] else [])
  }

  lemma FilterStep(list: seq<Tx>, i: nat, p: Tx -> bool)
    requires i < |list|
    ensures p(list[i]) ==> Filter(list[..i + 1], p) == Filter(list[..i], p) + [list[i]]
    ensures !p(list[i]) ==> Filter(list[..i + 1], p) == Filter(list[..i], p)
  {
    assert list[..i + 1][..i] == list[..i];
  }

  lemma {:induction false} FilterIn(list: seq<Tx>, p: Tx -> bool, x: Tx)
    ensures x in Filter(list, p) <==> x in list && p(x)
  {
    if list != [] {
      var last := |list| - 1;
      FilterIn(list[..last], p, x);
      assert list == list[..last] + [list[last]];
    }
  }

  lemma FilterPush(list: seq<Tx>, x: Tx, p: Tx -> bool)
    ensures Filter(list + [x], p) == if p(x) then Filter(list, p) + [x] else Filter(list, p)
  {
    assert (list + [x])[..|list|] == list;
  }

  lemma FilterEmpty(p: Tx -> bool)
    ensures Filter([], p) == []
  {
  }

  lemma {:induction false} FilterConcat(a: seq<Tx>, b: seq<Tx>, p: Tx -> bool)
    ensures Filter(a + b, p) == Filter(a, p) + Filter(b, p)
    decreases |b|
  {
    hide *;
    if b == [] {
      FilterEmpty(p);
      assert a + b == a;
    } else {
      var init, x := b[..|b| - 1], b[|b| - 1];
      assert b == init + [x];
      Associate(a, init, [x]);
      FilterConcat(a, init, p);
      FilterPush(a + init, x, p);
      FilterPush(init, x, p);
      Associate(Filter(a, p), Filter(init, p), [x]);
    }
  }

  lemma {:induction false} FilterSame(list: seq<Tx>, p: Tx -> bool, q: Tx -> bool)
    requires forall x :: x in list ==> p(x) == q(x)
    ensures Filter(list, p) == Filter(list, q)
  {
    if list != [] {
      FilterSame(list[..|list| - 1], p, q);
    }
  }

  lemma {:induction false} FilterAll(list: seq<Tx>, p: Tx -> bool)
    requires forall x :: x in list ==> p(x)
    ensures Filter(list, p) == list
  {
    hide *;
    if list == [] {
      FilterEmpty(p);
    } else {
      var init, x := list[..|list| - 1], list[|list| - 1];
      assert list == init + [x];
      FilterAll(init, p);
      FilterPush(init, x, p);
    }
  }

  lemma {:induction false} FilterNone(list: seq<Tx>, p: Tx -> bool)
    requires forall x :: x in list ==> !p(x)
    ensures Filter(list, p) == []
  {
    hide *;
    if list == [] {
      FilterEmpty(p);
    } else {
      var init, x := list[..|list| - 1], list[|list| - 1];
      assert list == init + [x];
      FilterNone(init, p);
      FilterPush(init, x, p);
    }
  }

  function Both(p: Tx -> bool, q: Tx -> bool): Tx -> bool { (x: Tx) => p(x) && q(x) }

  lemma {:induction false} FilterFilter(list: seq<Tx>, p: Tx -> bool, q: Tx -> bool)
    ensures Filter(Filter(list, p), q) == Filter(list, Both(p, q))
  {
    if list != [] {
      var last := |list| - 1;
      FilterFilter(list[..last], p, q);
      FilterConcat(Filter(list[..last], p), if p(list[last]) then [list[last]] else [], q);
      FilterOne(list[last], q);
    }
  }

  lemma FilterOne(x: Tx, p: Tx -> bool)
    ensures Filter([x], p) == if p(x) then [x] else []
  {
    assert [x][..0] == [];
  }

  /** No hash occurs twice. */
  ghost predicate Distinct(list: seq<Tx>) {
    forall i, j :: 0 <= i < j < |list| ==> list[i].hash != list[j].hash
  }

  /** Each sender's nonces strictly increase along the list. */
  ghost predicate NonceOrdered(list: seq<Tx>) {
    forall i, j :: 0 <= i < j < |list| && list[i].sender == list[j].sender ==> list[i].nonce < list[j].nonce
  }

  lemma PushDistinct(list: seq<Tx>, x: Tx)
    requires Distinct(list) && forall i :: 0 <= i < |list| ==> list[i].hash != x.hash
    ensures Distinct(list + [x])
  {
  }

  lemma PushOrdered(list: seq<Tx>, x: Tx)
    requires NonceOrdered(list) && forall i :: 0 <= i < |list| && list[i].sender == x.sender ==> list[i].nonce < x.nonce
    ensures NonceOrdered(list + [x])
  {
  }

  lemma {:induction false} FilterDistinct(list: seq<Tx>, p: Tx -> bool)
    requires Distinct(list)
    ensures Distinct(Filter(list, p))
  {
    if list != [] {
      var last := |list| - 1;
      var f := Filter(list[..last], p);
      FilterDistinct(list[..last], p);
      forall i | 0 <= i < |f|
        ensures f[i].hash != list[last].hash
      {
        FilterIn(list[..last], p, f[i]);
      }
      PushDistinct(f, list[last]);
    }
  }

  lemma {:induction false} FilterOrdered(list: seq<Tx>, p: Tx -> bool)
    requires NonceOrdered(list)
    ensures NonceOrdered(Filter(list, p))
  {
    if list != [] {
      var last := |list| - 1;
      var f := Filter(list[..last], p);
      FilterOrdered(list[..last], p);
      forall i | 0 <= i < |f| && f[i].sender == list[last].sender
        ensures f[i].nonce < list[last].nonce
      {
        FilterIn(list[..last], p, f[i]);
      }
      PushOrdered(f, list[last]);
    }
  }

  lemma FilterKeepsOrder(list: seq<Tx>, p: Tx -> bool)
    ensures Distinct(list) ==> Distinct(Filter(list, p))
    ensures NonceOrdered(list) ==> NonceOrdered(Filter(list, p))
  {
    if Distinct(list) {
      FilterDistinct(list, p);
    }
    if NonceOrdered(list) {
      FilterOrdered(list, p);
    }
  }

  function FromSender(a: Address): Tx -> bool { (x: Tx) => x.sender == a }

  function NotHash(h: Hash): Tx -> bool { (x: Tx) => x.hash != h }

  /** Not a transaction that `tx` displaces: same sender, same or later nonce. */
  function Undisturbed(tx: Tx): Tx -> bool { (x: Tx) => !(x.sender == tx.sender && x.nonce >= tx.nonce) }

  function Later(tx: Tx): Tx -> bool { (x: Tx) => x.sender == tx.sender && x.nonce > tx.nonce }

  /** A new transaction replaces the one of its sender with the same nonce, goes to the end of
      the list, and the later nonces of its sender follow it in their old order. */
  function Push(list: seq<Tx>, tx: Tx): seq<Tx> {
    Filter(list, Undisturbed(tx)) + [tx] + Filter(list, Later(tx))
  }

  function KeepLast(list: seq<Tx>, max: nat): seq<Tx> {
    if |list| <= max then list else list[|list| - max..]
  }

  function RemoveAt<T>(s: seq<T>, i: nat): seq<T>
    requires i < |s|
  {
    s[..i] + s[i + 1..]
  }

  /** In a distinct list, dropping a hash drops the one position that holds it. */
  lemma {:induction false} FilterNotHash(list: seq<Tx>, i: nat)
    requires Distinct(list) && i < |list|
    ensures Filter(list, NotHash(list[i].hash)) == RemoveAt(list, i)
  {
    var last := |list| - 1;
    if i == last {
      FilterAll(list[..last], NotHash(list[i].hash));
    } else {
      FilterNotHash(list[..last], i);
      assert RemoveAt(list, i) == RemoveAt(list[..last], i) + [list[last]];
    }
  }

  lemma JoinDistinct(a: seq<Tx>, b: seq<Tx>)
    requires Distinct(a) && Distinct(b) && forall x, y :: x in a && y in b ==> x.hash != y.hash
    ensures Distinct(a + b)
  {
  }

  lemma JoinOrdered(a: seq<Tx>, b: seq<Tx>)
    requires NonceOrdered(a) && NonceOrdered(b) && forall x, y :: x in a && y in b && x.sender == y.sender ==>
             x.nonce < y.nonce
    ensures NonceOrdered(a + b)
  {
  }

  /** Pushing keeps the list distinct and every sender's nonces increasing. */
  lemma PushKeepsOrder(list: seq<Tx>, tx: Tx)
    requires Distinct(list) && NonceOrdered(list)
    requires forall x :: x in list ==> x.hash != tx.hash
    ensures Distinct(Push(list, tx)) && NonceOrdered(Push(list, tx))
  {
    var a, b := Filter(list, Undisturbed(tx)), Filter(list, Later(tx));
    FilterKeepsOrder(list, Undisturbed(tx));
    FilterKeepsOrder(list, Later(tx));
    forall x
      ensures x in a ==> x in list && Undisturbed(tx)(x)
      ensures x in b ==> x in list && Later(tx)(x)
    {
      FilterIn(list, Undisturbed(tx), x);
      FilterIn(list, Later(tx), x);
    }
    hide NonceOrdered, Filter;
    assert forall i :: 0 <= i < |a| ==> a[i] in a;
    PushDistinct(a, tx);
    PushOrdered(a, tx);
    forall x, y | x in a + [tx] && y in b
      ensures x.hash != y.hash && (x.sender == y.sender ==> x.nonce < y.nonce)
    {
      if x in a {
        SameHashSameTx(list, x, y);
      } else {
        assert x == tx;
      }
    }
    hide Distinct;
    JoinDistinct(a + [tx], b);
    JoinOrdered(a + [tx], b);
  }

  function NotFrom(a: Address): Tx -> bool { (x: Tx) => x.sender != a }

  /** What is in the list after a push: the new transaction, and all others but the one of its
      sender with its nonce. */
  lemma PushMembers(list: seq<Tx>, tx: Tx, x: Tx)
    ensures x in Push(list, tx) <==> x == tx || (x in list && !(x.sender == tx.sender && x.nonce == tx.nonce))
  {
    FilterIn(list, Undisturbed(tx), x);
    FilterIn(list, Later(tx), x);
    hide Filter;
  }

  /** Where it is: the transactions of other senders keep their order, and right behind the new
      one come exactly the later nonces of its sender. */
  lemma PushPlaces(list: seq<Tx>, tx: Tx)
    ensures Filter(Push(list, tx), NotFrom(tx.sender)) == Filter(list, NotFrom(tx.sender))
    ensures var at := |Filter(list, Undisturbed(tx))|;
            && at < |Push(list, tx)| && Push(list, tx)[at] == tx
            && (forall i :: at < i < |Push(list, tx)| ==>
                  Push(list, tx)[i].sender == tx.sender && Push(list, tx)[i].nonce > tx.nonce)
            && (forall i :: 0 <= i < at ==>
                  !(Push(list, tx)[i].sender == tx.sender && Push(list, tx)[i].nonce >= tx.nonce))
  {
    hide Filter;
    var a, b, p := Filter(list, Undisturbed(tx)), Filter(list, Later(tx)), NotFrom(tx.sender);
    forall x
      ensures x in a ==> Undisturbed(tx)(x)
      ensures x in b ==> Later(tx)(x)
    {
      FilterIn(list, Undisturbed(tx), x);
      FilterIn(list, Later(tx), x);
    }
    PlacesFrom(a, tx, b);
    FilterConcat(a + [tx], b, p);
    FilterConcat(a, [tx], p);
    FilterOne(tx, p);
    FilterNone(b, p);
    FilterFilter(list, Undisturbed(tx), p);
    FilterSame(list, Both(Undisturbed(tx), p), p);
    assert Filter(a, p) + [] + [] == Filter(a, p);
  }

  lemma PlacesFrom(a: seq<Tx>, tx: Tx, b: seq<Tx>)
    requires (forall x :: x in a ==> Undisturbed(tx)(x)) && (forall x :: x in b ==> Later(tx)(x))
    ensures var all := a + [tx] + b;
            && all[|a|] == tx
            && (forall i :: |a| < i < |all| ==> all[i].sender == tx.sender && all[i].nonce > tx.nonce)
            && (forall i :: 0 <= i < |a| ==> !(all[i].sender == tx.sender && all[i].nonce >= tx.nonce))
  {
    var all := a + [tx] + b;
    assert forall i :: |a| < i < |all| ==> all[i] == b[i - |a| - 1] && all[i] in b;
    assert forall i :: 0 <= i < |a| ==> all[i] == a[i] && all[i] in a;
  }

  /** What the size limit keeps: the last ones, as many as it allows. */
  lemma KeepLastMeans(list: seq<Tx>, max: nat)
    ensures |KeepLast(list, max)| == Min(|list|, max)
    ensures forall i :: 0 <= i < |KeepLast(list, max)| ==>
              KeepLast(list, max)[i] == list[|list| - |KeepLast(list, max)| + i]
  {
  }

  lemma SameHashSameTx(list: seq<Tx>, x: Tx, y: Tx)
    requires Distinct(list) && x in list && y in list
    ensures x.hash == y.hash ==> x == y
  {
  }

  lemma KeepLastKeepsOrder(list: seq<Tx>, max: nat)
    ensures |KeepLast(list, max)| <= max
    ensures Distinct(list) ==> Distinct(KeepLast(list, max))
    ensures NonceOrdered(list) ==> NonceOrdered(KeepLast(list, max))
  {
  }

  /** A pushed transaction survives the size limit exactly when fewer than `max` later nonces of
      its sender are already waiting: those go behind it, and eviction takes the front. */
  lemma PushedSurvives(list: seq<Tx>, tx: Tx, max: nat)
    requires forall x :: x in list ==> x.hash != tx.hash
    ensures tx in KeepLast(Push(list, tx), max) <==> |Filter(list, Later(tx))| < max
  {
    var a, b := Filter(list, Undisturbed(tx)), Filter(list, Later(tx));
    var all := Push(list, tx);
    forall i | 0 <= i < |all| && i != |a|
      ensures all[i] != tx
    {
      if i < |a| {
        FilterIn(list, Undisturbed(tx), a[i]);
      } else {
        FilterIn(list, Later(tx), b[i - |a| - 1]);
      }
    }
    assert all[|a|] == tx;
    var kept := KeepLast(all, max);
    var from := |all| - |kept|;
    assert forall i :: 0 <= i < |kept| ==> kept[i] == all[from + i];
    if from <= |a| {
      assert kept[|a| - from] == tx;
    }
  }

  predicate Contains(list: seq<Tx>, h: Hash) { exists i :: 0 <= i < |list| && list[i].hash == h }

  /** What becomes of the list when a transaction is offered to the pool: nothing if its hash is
      there, otherwise a push of which the last `max` are kept. */
  function Accept(list: seq<Tx>, tx: Tx, max: nat): seq<Tx> {
    if Contains(list, tx.hash) then list else KeepLast(Push(list, tx), max)
  }

  /** The list after any run of offers. */
  function AcceptAll(txs: seq<Tx>, max: nat): seq<Tx> {
    if txs == [] then [] else Accept(AcceptAll(txs[..|txs| - 1], max), txs[|txs| - 1], max)
  }

  /** Whatever is offered, the list stays distinct, each sender's nonces increase, and the size
      limit holds. */
  lemma {:induction false} AcceptedOrdered(txs: seq<Tx>, max: nat)
    ensures var list := AcceptAll(txs, max); Distinct(list) && NonceOrdered(list) && |list| <= max
    decreases |txs|
  {
    if txs != [] {
      var list, tx := AcceptAll(txs[..|txs| - 1], max), txs[|txs| - 1];
      AcceptedOrdered(txs[..|txs| - 1], max);
      hide Push, KeepLast, AcceptAll;
      if !Contains(list, tx.hash) {
        PushKeepsOrder(list, tx);
        KeepLastKeepsOrder(Push(list, tx), max);
      }
    }
  }

  lemma RunWithoutLast(txs: seq<Tx>, a: Address)
    requires OneSender(txs, a) && Distinct(txs) && txs != []
    ensures var init, last := txs[..|txs| - 1], txs[|txs| - 1];
            && OneSender(init, a) && Distinct(init) && !Contains(init, last.hash)
            && forall i :: 0 <= i < |init| ==> init[i].sender == last.sender && init[i].nonce < last.nonce
  {
    assert forall i :: 0 <= i < |txs| ==> txs[i] in txs;
  }

  lemma KeepAll(list: seq<Tx>, max: nat)
    requires |list| <= max
    ensures KeepLast(list, max) == list
  {
  }

  lemma PushAtEnd(list: seq<Tx>, tx: Tx)
    requires forall i :: 0 <= i < |list| ==> list[i].sender == tx.sender && list[i].nonce < tx.nonce
    ensures Push(list, tx) == list + [tx]
  {
    hide Filter;
    FilterAll(list, Undisturbed(tx));
    FilterNone(list, Later(tx));
    assert list + [tx] + [] == list + [tx];
  }

  /** One sender's transactions offered in nonce order are simply listed. */
  lemma {:induction false} RunAccepted(txs: seq<Tx>, a: Address, max: nat)
    requires OneSender(txs, a) && Distinct(txs) && |txs| <= max
    ensures AcceptAll(txs, max) == txs
    decreases |txs|
  {
    if txs != [] {
      var init, last := txs[..|txs| - 1], txs[|txs| - 1];
      RunWithoutLast(txs, a);
      hide *;
      RunAccepted(init, a, max);
      PushAtEnd(init, last);
      assert txs == init + [last];
      AcceptPush(init, last, max);
      KeepAll(txs, max);
    }
  }

  lemma AcceptPush(txs: seq<Tx>, tx: Tx, max: nat)
    requires !Contains(AcceptAll(txs, max), tx.hash)
    ensures AcceptAll(txs + [tx], max) == KeepLast(Push(AcceptAll(txs, max), tx), max)
  {
    hide Push, KeepLast, Contains;
    assert (txs + [tx])[..|txs|] == txs;
  }

  lemma PushInFront(list: seq<Tx>, tx: Tx)
    requires OneSender(list, tx.sender) && forall x :: x in list ==> tx.nonce < x.nonce
    ensures Push(list, tx) == [tx] + list
  {
    hide Filter;
    forall x | x in list
      ensures !Undisturbed(tx)(x) && Later(tx)(x)
    {
      assert x.sender == tx.sender;
    }
    hide OneSender;
    FilterNone(list, Undisturbed(tx));
    FilterAll(list, Later(tx));
  }

  lemma KeepBehind(list: seq<Tx>, tx: Tx, max: nat)
    requires |list| == max
    ensures KeepLast([tx] + list, max) == list
  {
  }

  /** Every size limit is reached by a run after which an earlier nonce of that sender is accepted
      and evicted at once: the list is as before. */
  lemma EvictedAtOnce(txs: seq<Tx>, tx: Tx, max: nat)
    requires OneSender(txs, tx.sender) && Distinct(txs) && |txs| == max
    requires !Contains(txs, tx.hash) && forall x :: x in txs ==> tx.nonce < x.nonce
    ensures AcceptAll(txs, max) == txs && AcceptAll(txs + [tx], max) == txs
  {
    RunAccepted(txs, tx.sender, max);
    PushInFront(txs, tx);
    AcceptPush(txs, tx, max);
    hide *;
    KeepBehind(txs, tx, max);
  }

  function NotIn(list: seq<Tx>): Tx -> bool { (x: Tx) => x !in list }

  /** The slot of `nonce` among one sender's transactions: everything before it is earlier,
      everything from it on is not. */
  ghost predicate IsSlot(mine: seq<Tx>, nonce: nat, slot: nat) {
    && slot <= |mine|
    && (forall i :: 0 <= i < slot ==> mine[i].nonce < nonce)
    && (forall i :: slot <= i < |mine| ==> nonce <= mine[i].nonce)
  }

  function Replaces(mine: seq<Tx>, nonce: nat, slot: nat): bool { slot < |mine| && mine[slot].nonce == nonce }

  /** The transactions behind the slot, which have to move behind the new one. */
  function Behind(mine: seq<Tx>, nonce: nat, slot: nat): seq<Tx>
    requires slot <= |mine|
  {
    if Replaces(mine, nonce, slot) then mine[slot + 1..] else mine[slot..]
  }

  lemma MineOrdered(list: seq<Tx>, a: Address)
    requires NonceOrdered(list)
    ensures var mine := Filter(list, FromSender(a));
            OneSender(mine, a) && (forall x :: x in mine ==> x in list)
  {
    var mine := Filter(list, FromSender(a));
    FilterKeepsOrder(list, FromSender(a));
    forall x | x in mine
      ensures x in list && x.sender == a
    {
      FilterIn(list, FromSender(a), x);
    }
  }

  ghost predicate OneSender(mine: seq<Tx>, a: Address) {
    && (forall x :: x in mine ==> x.sender == a)
    && (forall i, j :: 0 <= i < j < |mine| ==> mine[i].nonce < mine[j].nonce)
  }

  lemma SlotSplitsLater(mine: seq<Tx>, tx: Tx, slot: nat)
    requires OneSender(mine, tx.sender) && IsSlot(mine, tx.nonce, slot)
    ensures Filter(mine, Later(tx)) == Behind(mine, tx.nonce, slot)
  {
    var cut := if Replaces(mine, tx.nonce, slot) then slot + 1 else slot;
    LaterFrom(mine, tx, slot, cut);
    hide Filter, OneSender, IsSlot, Later;
    SplitFilter(mine, cut, Later(tx));
  }

  lemma LaterFrom(mine: seq<Tx>, tx: Tx, slot: nat, cut: nat)
    requires OneSender(mine, tx.sender) && IsSlot(mine, tx.nonce, slot)
    requires cut == if Replaces(mine, tx.nonce, slot) then slot + 1 else slot
    ensures cut <= |mine| && forall i :: 0 <= i < |mine| ==> (Later(tx)(mine[i]) <==> cut <= i)
  {
    forall i | 0 <= i < |mine|
      ensures Later(tx)(mine[i]) <==> cut <= i
    {
      assert mine[i] in mine;
    }
  }

  /** A filter that accepts just what stands from `cut` on. */
  lemma SplitFilter(list: seq<Tx>, cut: nat, p: Tx -> bool)
    requires cut <= |list| && forall i :: 0 <= i < |list| ==> (p(list[i]) <==> cut <= i)
    ensures Filter(list, p) == list[cut..]
  {
    hide *;
    var front, behind := list[..cut], list[cut..];
    assert list == front + behind;
    FilterConcat(front, behind, p);
    FilterNone(front, p);
    FilterAll(behind, p);
  }

  lemma SlotSplitsUndisturbed(mine: seq<Tx>, tx: Tx, slot: nat)
    requires OneSender(mine, tx.sender) && IsSlot(mine, tx.nonce, slot)
    ensures Filter(mine, Undisturbed(tx)) == mine[..slot]
  {
    hide Filter;
    assert mine == mine[..slot] + mine[slot..];
    FilterConcat(mine[..slot], mine[slot..], Undisturbed(tx));
    FilterAll(mine[..slot], Undisturbed(tx));
    FilterNone(mine[slot..], Undisturbed(tx));
  }

  lemma BehindIsLater(list: seq<Tx>, tx: Tx, slot: nat)
    requires NonceOrdered(list)
    requires IsSlot(Filter(list, FromSender(tx.sender)), tx.nonce, slot)
    ensures Behind(Filter(list, FromSender(tx.sender)), tx.nonce, slot) == Filter(list, Later(tx))
    ensures Filter(list, Both(FromSender(tx.sender), Undisturbed(tx))) == Filter(list, FromSender(tx.sender))[..slot]
  {
    var mine := Filter(list, FromSender(tx.sender));
    MineOrdered(list, tx.sender);
    SlotSplitsLater(mine, tx, slot);
    SlotSplitsUndisturbed(mine, tx, slot);
    FilterFilter(list, FromSender(tx.sender), Later(tx));
    FilterSame(list, Both(FromSender(tx.sender), Later(tx)), Later(tx));
    FilterFilter(list, FromSender(tx.sender), Undisturbed(tx));
  }

  /** Removing the replaced transaction and those behind it leaves the undisturbed ones. */
  lemma RestIsUndisturbed(list: seq<Tx>, tx: Tx, slot: nat, rest: seq<Tx>)
    requires Distinct(list) && NonceOrdered(list)
    requires var mine := Filter(list, FromSender(tx.sender));
             && IsSlot(mine, tx.nonce, slot)
             && rest == if Replaces(mine, tx.nonce, slot) then Filter(list, NotHash(mine[slot].hash)) else list
    ensures var mine := Filter(list, FromSender(tx.sender));
            Filter(rest, NotIn(Behind(mine, tx.nonce, slot))) == Filter(list, Undisturbed(tx))
  {
    hide Filter;
    var mine := Filter(list, FromSender(tx.sender));
    var behind := Behind(mine, tx.nonce, slot);
    MineOrdered(list, tx.sender);
    BehindIsLater(list, tx, slot);
    hide NonceOrdered, Behind;
    forall x | x in list
      ensures x in behind <==> Later(tx)(x)
      ensures Replaces(mine, tx.nonce, slot) ==>
              (x.hash != mine[slot].hash <==> !(x.sender == tx.sender && x.nonce == tx.nonce))
      ensures !Replaces(mine, tx.nonce, slot) ==> !(x.sender == tx.sender && x.nonce == tx.nonce)
    {
      FilterIn(list, Later(tx), x);
      FilterIn(list, FromSender(tx.sender), x);
      if Replaces(mine, tx.nonce, slot) {
        SameHashSameTx(list, x, mine[slot]);
      }
    }
    if Replaces(mine, tx.nonce, slot) {
      FilterFilter(list, NotHash(mine[slot].hash), NotIn(behind));
      FilterSame(list, Both(NotHash(mine[slot].hash), NotIn(behind)), Undisturbed(tx));
    } else {
      FilterSame(list, NotIn(behind), Undisturbed(tx));
    }
  }

  /** What a push does to each sender's own transactions. */
  lemma PushPerSender(list: seq<Tx>, tx: Tx, slot: nat, a: Address)
    requires NonceOrdered(list)
    requires IsSlot(Filter(list, FromSender(tx.sender)), tx.nonce, slot)
    ensures var mine := Filter(list, FromSender(a));
            Filter(Push(list, tx), FromSender(a)) ==
              if a == tx.sender then mine[..slot] + [tx] + Behind(mine, tx.nonce, slot) else mine
  {
    var p := FromSender(a);
    var undisturbed, later := Filter(list, Undisturbed(tx)), Filter(list, Later(tx));
    FilterConcat(undisturbed + [tx], later, p);
    FilterConcat(undisturbed, [tx], p);
    FilterOne(tx, p);
    FilterFilter(list, Undisturbed(tx), p);
    if a == tx.sender {
      BehindIsLater(list, tx, slot);
      FilterSame(list, Both(Undisturbed(tx), p), Both(p, Undisturbed(tx)));
      forall x | x in later ensures p(x) { FilterIn(list, Later(tx), x); }
      FilterAll(later, p);
    } else {
      FilterSame(list, Both(Undisturbed(tx), p), p);
      forall x | x in later ensures !p(x) { FilterIn(list, Later(tx), x); }
      FilterNone(later, p);
    }
  }
}
