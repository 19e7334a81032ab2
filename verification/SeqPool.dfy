/** The sequential pool: three cross-linked indexes (`order` by sequence number, `txs` by
    hash, `accounts` by sender) that together stand for one plain list of transactions. */
module SeqPool {
  import opened Chain
  import Ordered
  import opened TxList

  datatype TxInfo = TxInfo(tx: Tx, seqNo: nat)

  type Entry = (nat, Hash)

  datatype PushResult = Known | Pushed(hash: Hash)

  function Entries(list: seq<Tx>): (r: seq<Entry>)
    ensures |r| == |list|
    ensures forall i :: 0 <= i < |list| ==> r[i] == (list[i].nonce, list[i].hash)
  {
    seq(|list|, i requires 0 <= i < |list| => (list[i].nonce, list[i].hash))
  }

  lemma EntriesPush(list: seq<Tx>, t: Tx)
    ensures Entries(list + [t]) == Entries(list) + [(t.nonce, t.hash)]
  {
  }

  lemma EntriesDrop(list: seq<Tx>, i: nat)
    requires i <= |list|
    ensures Entries(list)[i..] == Entries(list[i..])
  {
  }

  // ---- the list an order index stands for ----

  /** Every number in `order` names a transaction. */
  ghost predicate Linked(order: map<nat, Hash>, names: map<Hash, Tx>) {
    forall k :: k in order ==> order[k] in names && names[order[k]].hash == order[k]
  }

  /** `at` finds the number of every hash in `order`, so no hash has two. */
  ghost predicate Inverse(order: map<nat, Hash>, at: map<Hash, nat>) {
    forall k :: k in order ==> order[k] in at && at[order[k]] == k
  }

  /** The transactions with sequence numbers below `n`, in ascending order of number. */
  ghost function Collect(order: map<nat, Hash>, names: map<Hash, Tx>, n: nat): seq<Tx>
    requires Linked(order, names)
  {
    if n == 0 then [] else
      Collect(order, names, n - 1) + (if n - 1 in order then [names[order[n - 1]]] else [])
  }

  lemma {:induction false} CollectExt(order: map<nat, Hash>, names: map<Hash, Tx>, order': map<nat, Hash>,
                                      names': map<Hash, Tx>, n: nat)
    requires Linked(order, names) && Linked(order', names')
    requires forall k :: 0 <= k < n ==> (k in order <==> k in order')
    requires forall k :: 0 <= k < n && k in order ==> names[order[k]] == names'[order'[k]]
    ensures Collect(order, names, n) == Collect(order', names', n)
  {
    if n > 0 {
      CollectExt(order, names, order', names', n - 1);
    }
  }

  lemma CollectAppend(order: map<nat, Hash>, names: map<Hash, Tx>, n: nat, h: Hash)
    requires Linked(order, names) && Linked(order[n := h], names) && n !in order
    ensures h in names && Collect(order[n := h], names, n + 1) == Collect(order, names, n) + [names[h]]
  {
    assert order[n := h][n] == h;
    CollectExt(order, names, order[n := h], names, n);
  }

  lemma {:induction false} CollectCount(order: map<nat, Hash>, names: map<Hash, Tx>, n: nat)
    requires Linked(order, names)
    ensures |Collect(order, names, n)| == |set k | k in order && k < n|
  {
    if n > 0 {
      CollectCount(order, names, n - 1);
      var below := set k | k in order && k < n - 1;
      assert (set k | k in order && k < n) == if n - 1 in order then below + {n - 1} else below;
    } else {
      assert (set k | k in order && k < n) == {};
    }
  }

  lemma CollectLength(order: map<nat, Hash>, names: map<Hash, Tx>, n: nat)
    requires Linked(order, names) && forall k :: k in order ==> k < n
    ensures |Collect(order, names, n)| == |order|
  {
    CollectCount(order, names, n);
    assert (set k | k in order && k < n) == order.Keys;
  }

  /** Where a sequence number sits in the list, and what deleting it does. */
  lemma {:induction false} CollectRemove(order: map<nat, Hash>, names: map<Hash, Tx>, n: nat, k: nat)
    requires Linked(order, names) && k in order && k < n
    ensures var list := Collect(order, names, n); var at := |Collect(order, names, k)|;
            && at < |list| && list[at] == names[order[k]]
            && Collect(order - {k}, names, n) == RemoveAt(list, at)
  {
    CollectStep(order, names, n - 1);
    CollectStep(order - {k}, names, n - 1);
    if k == n - 1 {
      CollectExt(order, names, order - {k}, names, k);
      hide Collect;
      RemoveLast(Collect(order, names, k), names[order[k]]);
    } else {
      hide Collect;
      CollectRemove(order, names, n - 1, k);
      var list := Collect(order, names, n - 1);
      if n - 1 in order {
        hide RemoveAt;
        RemoveAtPush(list, |Collect(order, names, k)|, names[order[n - 1]]);
      }
    }
  }

  lemma CollectStep(order: map<nat, Hash>, names: map<Hash, Tx>, n: nat)
    requires Linked(order, names)
    ensures Collect(order, names, n + 1) ==
            if n in order then Collect(order, names, n) + [names[order[n]]] else Collect(order, names, n)
  {
  }

  lemma RemoveLast(list: seq<Tx>, x: Tx)
    ensures RemoveAt(list + [x], |list|) == list
  {
  }

  lemma RemoveAtPush(list: seq<Tx>, at: nat, x: Tx)
    requires at < |list|
    ensures RemoveAt(list + [x], at) == RemoveAt(list, at) + [x]
  {
  }

  lemma {:induction false} CollectIn(order: map<nat, Hash>, names: map<Hash, Tx>, n: nat, x: Tx)
    requires Linked(order, names)
    ensures x in Collect(order, names, n) <==> exists k :: 0 <= k < n && k in order && names[order[k]] == x
  {
    if n > 0 {
      CollectIn(order, names, n - 1, x);
    }
  }

  lemma {:induction false} CollectDistinct(order: map<nat, Hash>, names: map<Hash, Tx>, at: map<Hash, nat>, n: nat)
    requires Linked(order, names) && Inverse(order, at)
    ensures Distinct(Collect(order, names, n))
  {
    if n > 0 {
      CollectDistinct(order, names, at, n - 1);
      var init := Collect(order, names, n - 1);
      forall i | 0 <= i < |init|
        ensures n - 1 in order ==> init[i].hash != order[n - 1]
      {
        CollectIn(order, names, n - 1, init[i]);
      }
    }
  }

  lemma {:induction false} CollectNothingBelow(order: map<nat, Hash>, names: map<Hash, Tx>, n: nat)
    requires Linked(order, names) && forall k :: k in order ==> n <= k
    ensures Collect(order, names, n) == []
  {
    if n > 0 {
      CollectNothingBelow(order, names, n - 1);
    }
  }

  /** Deleting a number drops the transaction it names. */
  lemma CollectDrop(order: map<nat, Hash>, names: map<Hash, Tx>, at: map<Hash, nat>, n: nat, k: nat)
    requires Linked(order, names) && Inverse(order, at) && k in order && k < n
    ensures Collect(order - {k}, names, n) == Filter(Collect(order, names, n), NotHash(order[k]))
  {
    CollectRemove(order, names, n, k);
    CollectDistinct(order, names, at, n);
    FilterNotHash(Collect(order, names, n), |Collect(order, names, k)|);
  }

  lemma ExcludeOneMore(list: seq<Tx>, moved: seq<Tx>, t: Tx)
    requires Distinct(list) && t in list
    ensures Filter(Filter(list, NotIn(moved)), NotHash(t.hash)) == Filter(list, NotIn(moved + [t]))
  {
    FilterFilter(list, NotIn(moved), NotHash(t.hash));
    forall x | x in list
      ensures Both(NotIn(moved), NotHash(t.hash))(x) == NotIn(moved + [t])(x)
    {
      SameHashSameTx(list, x, t);
    }
    FilterSame(list, Both(NotIn(moved), NotHash(t.hash)), NotIn(moved + [t]));
  }

  /** Moving one more transaction to the end of a partly moved list. */
  lemma MoveOneMore(list: seq<Tx>, moved: seq<Tx>, t: Tx)
    requires Distinct(list) && t in list
    requires forall x :: x in moved ==> x.hash != t.hash
    ensures Filter(Filter(list, NotIn(moved)) + moved, NotHash(t.hash)) + [t]
         == Filter(list, NotIn(moved + [t])) + (moved + [t])
  {
    hide Filter;
    FilterConcat(Filter(list, NotIn(moved)), moved, NotHash(t.hash));
    FilterAll(moved, NotHash(t.hash));
    ExcludeOneMore(list, moved, t);
    hide *;
    Associate(Filter(list, NotIn(moved + [t])), moved, [t]);
  }

  // ---- position in an account's entries ----

  function Position(entries: seq<Entry>, p: Entry -> bool): (r: Option<nat>)
    ensures r.None? ==> forall i :: 0 <= i < |entries| ==> !p(entries[i])
    ensures r.Some? ==> r.value < |entries| && p(entries[r.value])
  {
    if entries == [] then None
    else if p(entries[0]) then Some(0)
    else match Position(entries[1..], p) case None => None case Some(i) => Some(i + 1)
  }

  function HasHash(h: Hash): Entry -> bool { (e: Entry) => e.1 == h }

  function IsEntry(nonce: nat, h: Hash): Entry -> bool { (e: Entry) => e.0 == nonce && e.1 == h }

  /** Deletes the first entry `p` accepts, if there is one. */
  function RemoveEntry(entries: seq<Entry>, p: Entry -> bool): seq<Entry> {
    match Position(entries, p) case None => entries case Some(i) => RemoveAt(entries, i)
  }

  ghost function NamesOf(txs: map<Hash, TxInfo>): map<Hash, Tx> { map h | h in txs :: txs[h].tx }

  ghost function NumbersOf(txs: map<Hash, TxInfo>): map<Hash, nat> { map h | h in txs :: txs[h].seqNo }

  // ---- `order`, `txs` and the counter as one value ----

  datatype Index = Index(order: map<nat, Hash>, txs: map<Hash, TxInfo>, next: nat) {
    /** `order` and `txs` are inverse through the sequence number, all below the counter. */
    ghost predicate Ok() {
      && (forall k {:trigger order[k]} :: k in order ==> k < next && order[k] in txs && txs[order[k]].seqNo == k)
      && (forall h {:trigger txs[h].tx.hash} {:trigger order[txs[h].seqNo]} :: h in txs ==>
            txs[h].tx.hash == h && txs[h].seqNo in order && order[txs[h].seqNo] == h)
    }

    /** The plain list the index stands for. */
    ghost function List(): seq<Tx>
      requires Ok()
    {
      Collect(order, NamesOf(txs), next)
    }

    function Unlink(h: Hash): Index
      requires h in txs
    {
      Index(order - {txs[h].seqNo}, txs - {h}, next)
    }

    /** The transaction gets a new number at the end. */
    function Renumber(h: Hash): Index
      requires h in txs
    {
      Index((order - {txs[h].seqNo})[next := h], txs[h := txs[h].(seqNo := next)], next + 1)
    }

    function Append(tx: Tx): Index {
      Index(order[next := tx.hash], txs[tx.hash := TxInfo(tx, next)], next + 1)
    }
  }

  lemma UnlinkOk(ix: Index, h: Hash)
    requires ix.Ok() && h in ix.txs
    ensures ix.Unlink(h).Ok() && ix.txs[h].tx.hash == h && ix.txs[h].seqNo in ix.order && ix.order[ix.txs[h].seqNo] == h
    ensures ix.txs[h].seqNo < ix.next && Linked(ix.order, NamesOf(ix.txs)) && Inverse(ix.order, NumbersOf(ix.txs))
  {
    assert ix.txs[h].tx.hash == h;
    assert ix.order[ix.txs[h].seqNo] == h;
  }

  lemma UnlinkDrops(ix: Index, h: Hash)
    requires ix.Ok() && h in ix.txs
    ensures ix.Unlink(h).Ok() && ix.Unlink(h).List() == Filter(ix.List(), NotHash(h))
  {
    hide Filter, Collect, Inverse;
    var after := ix.Unlink(h);
    UnlinkOk(ix, h);
    CollectDrop(ix.order, NamesOf(ix.txs), NumbersOf(ix.txs), ix.next, ix.txs[h].seqNo);
    CollectExt(after.order, NamesOf(ix.txs), after.order, NamesOf(after.txs), ix.next);
  }

  lemma AppendOk(ix: Index, tx: Tx)
    requires ix.Ok() && tx.hash !in ix.txs
    ensures ix.Append(tx).Ok() && ix.next !in ix.order
    ensures Linked(ix.order, NamesOf(ix.txs)) && Linked(ix.order, NamesOf(ix.Append(tx).txs))
    ensures Linked(ix.order[ix.next := tx.hash], NamesOf(ix.Append(tx).txs))
  {
  }

  lemma AppendAdds(ix: Index, tx: Tx)
    requires ix.Ok() && tx.hash !in ix.txs
    ensures ix.Append(tx).Ok() && ix.Append(tx).List() == ix.List() + [tx]
  {
    hide Collect;
    var after := ix.Append(tx);
    AppendOk(ix, tx);
    CollectAppend(ix.order, NamesOf(after.txs), ix.next, tx.hash);
    CollectExt(ix.order, NamesOf(ix.txs), ix.order, NamesOf(after.txs), ix.next);
  }

  lemma UpdatesCommute<K, V>(m: map<K, V>, a: K, x: V, b: K, y: V)
    requires a != b
    ensures m[a := x][b := y] == m[b := y][a := x]
  {
  }

  lemma RenumberMoves(ix: Index, h: Hash)
    requires ix.Ok() && h in ix.txs
    ensures ix.Renumber(h).Ok() && ix.Renumber(h).List() == Filter(ix.List(), NotHash(h)) + [ix.txs[h].tx]
  {
    UnlinkOk(ix, h);
    hide Index.Ok, Index.List, Filter;
    UnlinkDrops(ix, h);
    AppendAdds(ix.Unlink(h), ix.txs[h].tx);
    assert ix.Renumber(h) == ix.Unlink(h).Append(ix.txs[h].tx);
  }

  /** Every live transaction is listed once, in its place. */
  lemma ListFacts(ix: Index)
    requires ix.Ok()
    ensures Distinct(ix.List()) && |ix.List()| == |ix.order|
    ensures forall x :: x in ix.List() <==> x.hash in ix.txs && ix.txs[x.hash].tx == x
  {
    CollectDistinct(ix.order, NamesOf(ix.txs), NumbersOf(ix.txs), ix.next);
    CollectLength(ix.order, NamesOf(ix.txs), ix.next);
    forall x
      ensures x in ix.List() <==> x.hash in ix.txs && ix.txs[x.hash].tx == x
    {
      CollectIn(ix.order, NamesOf(ix.txs), ix.next, x);
      if x.hash in ix.txs && ix.txs[x.hash].tx == x {
        assert ix.order[ix.txs[x.hash].seqNo] == x.hash;
      }
    }
  }

  /** One sender's part of the list. */
  function Mine(list: seq<Tx>, a: Address): seq<Tx> { Filter(list, FromSender(a)) }

  lemma MineFacts(ix: Index, a: Address)
    requires ix.Ok() && NonceOrdered(ix.List())
    ensures var mine := Mine(ix.List(), a);
            && OneSender(mine, a) && Distinct(mine)
            && forall x :: x in mine <==> x.sender == a && x.hash in ix.txs && ix.txs[x.hash].tx == x
  {
    var mine := Mine(ix.List(), a);
    ListFacts(ix);
    MineOrdered(ix.List(), a);
    FilterKeepsOrder(ix.List(), FromSender(a));
    forall x
      ensures x in mine <==> x.sender == a && x.hash in ix.txs && ix.txs[x.hash].tx == x
    {
      FilterIn(ix.List(), FromSender(a), x);
    }
  }

  function Among(keys: set<Hash>): Tx -> bool { (x: Tx) => x.hash in keys }

  /** The first `i` of `mine` have been moved to the end of `all`, those among `keys`. */
  ghost predicate MovedTo(ix: Index, all: seq<Tx>, mine: seq<Tx>, i: nat, keys: set<Hash>)
    requires i <= |mine|
  {
    && ix.Ok()
    && var live := Filter(mine[..i], Among(keys));
       ix.List() == Filter(all, NotIn(live)) + live
  }

  lemma MoveStep(ix: Index, all: seq<Tx>, mine: seq<Tx>, i: nat, keys: set<Hash>)
    requires i < |mine| && MovedTo(ix, all, mine, i, keys)
    requires Distinct(all) && Distinct(mine)
    requires forall x :: x in mine && x.hash in keys ==> x in all
    requires mine[i].hash in keys && mine[i].hash in ix.txs
    ensures MovedTo(ix.Renumber(mine[i].hash), all, mine, i + 1, keys)
  {
    var live := Filter(mine[..i], Among(keys));
    FilterStep(mine, i, Among(keys));
    forall x | x in live
      ensures x in all && x.hash != mine[i].hash
    {
      FilterIn(mine[..i], Among(keys), x);
    }
    FilterIn(all, NotIn(live), mine[i]);
    ListFacts(ix);
    MoveOneMore(all, live, mine[i]);
    RenumberMoves(ix, mine[i].hash);
  }

  lemma LiveStep(mine: seq<Tx>, i: nat, keys: set<Hash>)
    requires i < |mine|
    ensures mine[i].hash in keys ==> Filter(mine[..i + 1], Among(keys)) == Filter(mine[..i], Among(keys)) + [mine[i]]
    ensures mine[i].hash !in keys ==> Filter(mine[..i + 1], Among(keys)) == Filter(mine[..i], Among(keys))
  {
    FilterStep(mine, i, Among(keys));
  }

  lemma MoveStart(ix: Index, all: seq<Tx>, mine: seq<Tx>, keys: set<Hash>)
    requires ix.Ok() && all == ix.List()
    ensures MovedTo(ix, all, mine, 0, keys)
  {
    hide Index.Ok, Index.List;
    assert mine[..0] == [];
    FilterAll(all, NotIn([]));
  }

  lemma MoveSkip(ix: Index, all: seq<Tx>, mine: seq<Tx>, i: nat, keys: set<Hash>)
    requires i < |mine| && MovedTo(ix, all, mine, i, keys) && mine[i].hash !in keys
    ensures MovedTo(ix, all, mine, i + 1, keys)
  {
    FilterStep(mine, i, Among(keys));
    hide Index.Ok, Index.List, Filter;
  }

  lemma MoveEnd(ix: Index, all: seq<Tx>, mine: seq<Tx>, keys: set<Hash>)
    requires MovedTo(ix, all, mine, |mine|, keys)
    ensures ix.Ok() && mine[..|mine|] == mine
    ensures ix.List() == Filter(all, NotIn(Filter(mine, Among(keys)))) + Filter(mine, Among(keys))
  {
    hide Index.Ok, Index.List, Filter;
    assert mine[..|mine|] == mine;
  }

  lemma EntriesMean(mine: seq<Tx>)
    ensures |Entries(mine)| == |mine| && forall i :: 0 <= i < |mine| ==>
            Entries(mine)[i] == (mine[i].nonce, mine[i].hash)
  {
  }

  lemma EntriesNone(mine: seq<Tx>, keys: set<Hash>)
    ensures Entries(Filter(mine[..0], Among(keys))) == []
  {
  }

  lemma LiveIsBehind(nonce: nat, slot: nat, mine: seq<Tx>, before: set<Hash>, after: set<Hash>)
    requires Distinct(mine) && slot <= |mine| && forall x :: x in mine ==> x.hash in before
    requires after == if Replaces(mine, nonce, slot) then before - {mine[slot].hash} else before
    ensures Filter(mine[slot..], Among(after)) == Behind(mine, nonce, slot)
  {
    if Replaces(mine, nonce, slot) {
      assert mine[slot..] == [mine[slot]] + mine[slot + 1..];
      FilterConcat([mine[slot]], mine[slot + 1..], Among(after));
      FilterOne(mine[slot], Among(after));
      FilterAll(mine[slot + 1..], Among(after));
    } else {
      FilterAll(mine[slot..], Among(after));
    }
  }

  /** Dropping the replaced transaction, appending, and moving those behind is a list push. */
  lemma PushInSteps(list: seq<Tx>, tx: Tx, slot: nat, rest: seq<Tx>)
    requires Distinct(list) && NonceOrdered(list) && tx !in list
    requires var mine := Mine(list, tx.sender);
             && IsSlot(mine, tx.nonce, slot)
             && rest == if Replaces(mine, tx.nonce, slot) then Filter(list, NotHash(mine[slot].hash)) else list
    ensures var behind := Behind(Mine(list, tx.sender), tx.nonce, slot);
            Filter(rest + [tx], NotIn(behind)) + behind == TxList.Push(list, tx)
  {
    var behind := Behind(Mine(list, tx.sender), tx.nonce, slot);
    MineOrdered(list, tx.sender);
    FilterConcat(rest, [tx], NotIn(behind));
    FilterOne(tx, NotIn(behind));
    RestIsUndisturbed(list, tx, slot, rest);
    BehindIsLater(list, tx, slot);
  }

  lemma DropAndAppend(start: Index, dropped: Index, tx: Tx, slot: nat)
    requires start.Ok() && tx.hash !in start.txs && NonceOrdered(start.List())
    requires slot <= |Mine(start.List(), tx.sender)|
    requires var mine := Mine(start.List(), tx.sender);
             && (Replaces(mine, tx.nonce, slot) ==> mine[slot].hash in start.txs)
             && dropped == if Replaces(mine, tx.nonce, slot) then start.Unlink(mine[slot].hash) else start
    ensures var mine := Mine(start.List(), tx.sender);
            && dropped.Ok() && dropped.Append(tx).Ok()
            && dropped.List() == (if Replaces(mine, tx.nonce, slot)
                                  then Filter(start.List(), NotHash(mine[slot].hash)) else start.List())
            && dropped.Append(tx).List() == dropped.List() + [tx]
            && dropped.txs.Keys == if Replaces(mine, tx.nonce, slot) then start.txs.Keys - {mine[slot].hash}
              else start.txs.Keys
  {
    var mine := Mine(start.List(), tx.sender);
    if Replaces(mine, tx.nonce, slot) {
      UnlinkDrops(start, mine[slot].hash);
    }
    AppendAdds(dropped, tx);
  }

  lemma StillListed(start: Index, dropped: Index, tx: Tx, slot: nat)
    requires start.Ok() && NonceOrdered(start.List()) && slot <= |Mine(start.List(), tx.sender)|
    requires dropped.Append(tx).Ok() && tx.hash !in start.txs
    requires forall h :: h in dropped.txs ==> h in start.txs && dropped.txs[h] == start.txs[h]
    ensures forall x :: x in Mine(start.List(), tx.sender)[slot..] && x.hash in dropped.txs ==>
            x in dropped.Append(tx).List()
  {
    var mine := Mine(start.List(), tx.sender);
    MineFacts(start, tx.sender);
    ListFacts(dropped.Append(tx));
    hide Index.Ok, Index.List, Mine, OneSender, Distinct, NonceOrdered;
    forall x | x in mine[slot..] && x.hash in dropped.txs
      ensures x in dropped.Append(tx).List()
    {
      assert x in mine;
    }
  }

  lemma SlotInList(mine: seq<Tx>, nonce: nat, slot: nat)
    requires IsSlot(mine, nonce, slot)
    ensures slot <= |mine|
  {
  }

  lemma SlotIsLive(ix: Index, a: Address, slot: nat)
    requires ix.Ok() && NonceOrdered(ix.List())
    ensures slot < |Mine(ix.List(), a)| ==> Mine(ix.List(), a)[slot].hash in ix.txs
  {
    MineFacts(ix, a);
    assert slot < |Mine(ix.List(), a)| ==> Mine(ix.List(), a)[slot] in Mine(ix.List(), a);
  }

  /** Everything the rest of a push relies on once the replaced transaction is dropped. */
  lemma PushPlan(start: Index, dropped: Index, tx: Tx, slot: nat)
    requires start.Ok() && tx.hash !in start.txs && NonceOrdered(start.List())
    requires var mine := Mine(start.List(), tx.sender);
             && IsSlot(mine, tx.nonce, slot)
             && (slot < |mine| ==> mine[slot].hash in start.txs)
             && dropped == if Replaces(mine, tx.nonce, slot) then start.Unlink(mine[slot].hash) else start
    ensures dropped.Append(tx).Ok() && tx.hash !in dropped.txs
    ensures var mine := Mine(start.List(), tx.sender);
            var behind := Behind(mine, tx.nonce, slot);
            && Distinct(mine[slot..]) && behind == Filter(mine[slot..], Among(dropped.txs.Keys))
            && Filter(dropped.Append(tx).List(), NotIn(behind)) + behind == TxList.Push(start.List(), tx)
            && forall x :: x in mine[slot..] && x.hash in dropped.txs ==> x in dropped.Append(tx).List()
  {
    var mine := Mine(start.List(), tx.sender);
    hide *;
    SlotInList(mine, tx.nonce, slot);
    ReplacesLive(mine, tx.nonce, slot);
    DropAndAppend(start, dropped, tx, slot);
    PlanBehind(start, tx, slot, dropped.txs.Keys);
    Unlisted(start, tx);
    PushInSteps(start.List(), tx, slot, dropped.List());
    DroppedIsPart(start, dropped, tx.nonce, slot, mine);
    StillListed(start, dropped, tx, slot);
  }

  lemma ReplacesLive(mine: seq<Tx>, nonce: nat, slot: nat)
    ensures Replaces(mine, nonce, slot) ==> slot < |mine|
  {
  }

  lemma Unlisted(start: Index, tx: Tx)
    requires start.Ok() && tx.hash !in start.txs
    ensures Distinct(start.List()) && tx !in start.List()
  {
    ListFacts(start);
  }

  lemma PlanBehind(start: Index, tx: Tx, slot: nat, keys: set<Hash>)
    requires start.Ok() && NonceOrdered(start.List())
    requires var mine := Mine(start.List(), tx.sender);
             && slot <= |mine|
             && keys == if Replaces(mine, tx.nonce, slot) then start.txs.Keys - {mine[slot].hash} else start.txs.Keys
    ensures var mine := Mine(start.List(), tx.sender);
            Distinct(mine[slot..]) && Behind(mine, tx.nonce, slot) == Filter(mine[slot..], Among(keys))
  {
    var mine := Mine(start.List(), tx.sender);
    MineFacts(start, tx.sender);
    hide Index.Ok, Index.List, Mine, Filter, NonceOrdered, OneSender;
    LiveIsBehind(tx.nonce, slot, mine, start.txs.Keys, keys);
  }

  lemma DroppedIsPart(start: Index, dropped: Index, nonce: nat, slot: nat, mine: seq<Tx>)
    requires slot < |mine| ==> mine[slot].hash in start.txs
    requires dropped == if Replaces(mine, nonce, slot) then start.Unlink(mine[slot].hash) else start
    ensures forall h :: h in dropped.txs ==> h in start.txs && dropped.txs[h] == start.txs[h]
  {
  }

  /** The account index agrees with the list, sender by sender. */
  ghost predicate AccountsAgree(accounts: map<Address, seq<Entry>>, list: seq<Tx>) {
    forall a :: EntriesOf(accounts, a) == Entries(Mine(list, a))
  }

  function EntriesOf(accounts: map<Address, seq<Entry>>, a: Address): seq<Entry> {
    if a in accounts then accounts[a] else []
  }

  lemma PushAccounts(accounts: map<Address, seq<Entry>>, list: seq<Tx>, tx: Tx, slot: nat, moved: seq<Entry>)
    requires AccountsAgree(accounts, list) && NonceOrdered(list)
    requires IsSlot(Mine(list, tx.sender), tx.nonce, slot)
    requires moved == Entries(Behind(Mine(list, tx.sender), tx.nonce, slot))
    ensures |EntriesOf(accounts, tx.sender)| >= slot
    ensures AccountsAgree(accounts[tx.sender :=
                                   EntriesOf(accounts, tx.sender)[..slot] + [(tx.nonce, tx.hash)] + moved],
                                     TxList.Push(list, tx))
  {
    var entries := EntriesOf(accounts, tx.sender);
    assert entries == Entries(Mine(list, tx.sender));
    var accounts' := accounts[tx.sender := entries[..slot] + [(tx.nonce, tx.hash)] + moved];
    forall a
      ensures EntriesOf(accounts', a) == Entries(Mine(TxList.Push(list, tx), a))
    {
      assert EntriesOf(accounts, a) == Entries(Mine(list, a));
      PushPerSender(list, tx, slot, a);
      if a == tx.sender {
        EntriesAround(Mine(list, a), slot, tx, Behind(Mine(list, a), tx.nonce, slot));
      }
    }
  }

  lemma EntriesAround(mine: seq<Tx>, slot: nat, tx: Tx, behind: seq<Tx>)
    requires slot <= |mine|
    ensures Entries(mine[..slot] + [tx] + behind) == Entries(mine)[..slot] + [(tx.nonce, tx.hash)] + Entries(behind)
  {
  }

  /** `p` recognises the entry of `t` and no entry of another transaction. */
  ghost predicate Recognises(p: Entry -> bool, t: Tx) {
    p((t.nonce, t.hash)) && forall e: Entry :: p(e) ==> e.1 == t.hash
  }

  lemma EntriesRemoveAt(mine: seq<Tx>, i: nat)
    requires i < |mine|
    ensures RemoveAt(Entries(mine), i) == Entries(RemoveAt(mine, i))
  {
  }

  /** A live transaction has exactly one entry, which is the one that is deleted. */
  lemma EntryFound(mine: seq<Tx>, t: Tx, p: Entry -> bool)
    requires Distinct(mine) && t in mine && Recognises(p, t)
    ensures RemoveEntry(Entries(mine), p) == Entries(Filter(mine, NotHash(t.hash)))
  {
    var i :| 0 <= i < |mine| && mine[i] == t;
    var entries := Entries(mine);
    assert p(entries[i]);
    var at := Position(entries, p).value;
    assert p(entries[at]);
    assert mine[at].hash == mine[i].hash;
    assert at == i;
    EntriesRemoveAt(mine, i);
    FilterNotHash(mine, i);
  }

  lemma EntriesLength(mine: seq<Tx>, t: Tx)
    requires t in mine
    ensures Entries(mine) != []
  {
  }

  /** Deleting one transaction deletes its one entry, wherever it stands. */
  lemma DropAccounts(accounts: map<Address, seq<Entry>>, list: seq<Tx>, t: Tx, p: Entry -> bool)
    requires AccountsAgree(accounts, list) && Distinct(list) && t in list && Recognises(p, t)
    ensures t.sender in accounts
    ensures AccountsAgree(accounts[t.sender := RemoveEntry(accounts[t.sender], p)], Filter(list, NotHash(t.hash)))
  {
    var mine := Mine(list, t.sender);
    assert EntriesOf(accounts, t.sender) == Entries(mine);
    MineHas(list, t);
    hide Filter, Mine, RemoveEntry, Entries, Distinct;
    EntryFound(mine, t, p);
    EntriesLength(mine, t);
    var accounts' := accounts[t.sender := RemoveEntry(accounts[t.sender], p)];
    forall a
      ensures EntriesOf(accounts', a) == Entries(Mine(Filter(list, NotHash(t.hash)), a))
    {
      DropPerSender(list, t, a);
      assert EntriesOf(accounts, a) == Entries(Mine(list, a));
    }
  }

  lemma MineHas(list: seq<Tx>, t: Tx)
    requires Distinct(list) && t in list
    ensures Distinct(Mine(list, t.sender)) && t in Mine(list, t.sender)
  {
    hide Filter;
    FilterIn(list, FromSender(t.sender), t);
    FilterKeepsOrder(list, FromSender(t.sender));
  }

  /** All three indexes still agree once a live transaction is gone from each of them. */
  lemma DropKeepsAll(ix: Index, accounts: map<Address, seq<Entry>>, h: Hash, p: Entry -> bool)
    requires ix.Ok() && NonceOrdered(ix.List()) && AccountsAgree(accounts, ix.List())
    requires h in ix.txs && Recognises(p, ix.txs[h].tx)
    ensures var t, after := ix.txs[h].tx, ix.Unlink(h);
            && t.hash == h && t.sender in accounts
            && after.Ok() && NonceOrdered(after.List()) && after.List() == Filter(ix.List(), NotHash(h))
            && AccountsAgree(accounts[t.sender := RemoveEntry(accounts[t.sender], p)], after.List())
  {
    assert ix.txs[h].tx.hash == h;
    ListFacts(ix);
    UnlinkDrops(ix, h);
    FilterKeepsOrder(ix.List(), NotHash(h));
    DropAccounts(accounts, ix.List(), ix.txs[h].tx, p);
  }

  lemma HashKnown(ix: Index, h: Hash)
    requires ix.Ok() && h in ix.txs
    ensures ix.txs[h].tx.hash == h && Recognises(HasHash(h), ix.txs[h].tx)
  {
    assert ix.txs[h].tx.hash == h;
  }

  lemma NotListed(ix: Index, h: Hash)
    requires ix.Ok() && h !in ix.txs
    ensures Filter(ix.List(), NotHash(h)) == ix.List()
  {
    ListFacts(ix);
    FilterAll(ix.List(), NotHash(h));
  }

  lemma RemoveOneMore(list: seq<Tx>, hashes: seq<Hash>, i: nat)
    requires i < |hashes|
    ensures Filter(Filter(list, NotAmong(hashes[..i])), NotHash(hashes[i])) == Filter(list, NotAmong(hashes[..i + 1]))
  {
    FilterFilter(list, NotAmong(hashes[..i]), NotHash(hashes[i]));
    FilterSame(list, Both(NotAmong(hashes[..i]), NotHash(hashes[i])), NotAmong(hashes[..i + 1]));
  }

  lemma RemoveNone(list: seq<Tx>)
    ensures Filter(list, NotAmong([])) == list
  {
    FilterAll(list, NotAmong([]));
  }

  function NotAmong(hashes: seq<Hash>): Tx -> bool { (x: Tx) => x.hash !in hashes }

  /** The smallest number names the head of the list. */
  lemma HeadOfList(ix: Index, k: nat)
    requires ix.Ok() && k in ix.order && forall j :: j in ix.order ==> k <= j
    ensures ix.order[k] in ix.txs && ix.txs[ix.order[k]].seqNo == k
    ensures |ix.List()| > 0 && ix.List()[0] == ix.txs[ix.order[k]].tx
    ensures Filter(ix.List(), NotHash(ix.order[k])) == ix.List()[1..]
  {
    var names := NamesOf(ix.txs);
    assert Linked(ix.order, names);
    CollectNothingBelow(ix.order, names, k);
    CollectRemove(ix.order, names, ix.next, k);
    CollectDistinct(ix.order, names, NumbersOf(ix.txs), ix.next);
    FilterNotHash(ix.List(), 0);
  }

  lemma LastOnes(all: seq<Tx>, gone: nat, max: nat)
    requires gone <= |all| && |all| - gone <= max && (gone == 0 || |all| - gone >= max)
    ensures all[gone..] == KeepLast(all, max)
  {
  }

  lemma SmallestKey(order: map<nat, Hash>)
    requires order != map[]
    ensures exists k :: k in order && forall j :: j in order ==> k <= j
  {
    var k :| k in order;
    Ordered.SmallestBelow(order.Keys, k);
    var m :| m in order.Keys && forall j :: j in order.Keys ==> m <= j;
    assert m in order && forall j :: j in order ==> j in order.Keys;
  }

  lemma DropPerSender(list: seq<Tx>, t: Tx, a: Address)
    requires Distinct(list) && t in list
    ensures Mine(Filter(list, NotHash(t.hash)), a) ==
            if a == t.sender then Filter(Mine(list, a), NotHash(t.hash)) else Mine(list, a)
  {
    FilterFilter(list, NotHash(t.hash), FromSender(a));
    FilterFilter(list, FromSender(a), NotHash(t.hash));
    FilterSame(list, Both(NotHash(t.hash), FromSender(a)), Both(FromSender(a), NotHash(t.hash)));
    if a != t.sender {
      forall x | x in list
        ensures x.hash == t.hash ==> x == t
      {
        SameHashSameTx(list, x, t);
      }
      FilterSame(list, Both(FromSender(a), NotHash(t.hash)), FromSender(a));
    }
  }

  class SeqPoolList {
    var order: map<nat, Hash>
    var txs: map<Hash, TxInfo>
    var accounts: map<Address, seq<Entry>>
    var seqNo: nat

    constructor ()
      ensures Valid() && View() == []
    {
      order, txs, accounts, seqNo := map[], map[], map[], 0;
    }

    ghost function Ix(): Index
      reads this
    {
      Index(order, txs, seqNo)
    }

    /** The three indexes agree: `accounts` holds exactly the live transactions of each sender,
        in list order, and every sender's nonces strictly increase. */
    ghost predicate Valid()
      reads this
    {
      Ix().Ok() && NonceOrdered(Ix().List()) && AccountsAgree(accounts, Ix().List())
    }

    /** The plain list this pool stands for. */
    ghost function View(): seq<Tx>
      requires Valid()
      reads this
    {
      Ix().List()
    }

    /** The slot of `tx` among its sender's entries; the number of entries when none has the
        same or a later nonce. */
    method FindSlot(tx: Tx) returns (known: bool, slot: nat)
      requires Valid()
      requires tx.hash in txs ==> txs[tx.hash].tx == tx
      ensures known <==> tx.hash in txs
      ensures !known ==> IsSlot(Mine(View(), tx.sender), tx.nonce, slot)
    {
      ghost var mine := Mine(View(), tx.sender);
      MineFacts(Ix(), tx.sender);
      var account := EntriesOf(accounts, tx.sender);
      assert account == Entries(mine);
      hide Index.Ok, Index.List, Mine, NonceOrdered, AccountsAgree, Distinct;
      known, slot := false, 0;
      while slot < |account|
        invariant slot <= |account|
        invariant forall i :: 0 <= i < slot ==> mine[i].nonce < tx.nonce
      {
        var (n, h) := account[slot];
        assert mine[slot] in mine;
        if tx.nonce == n && tx.hash == h {
          return true, slot;
        }
        if tx.nonce <= n {
          break;
        }
        slot := slot + 1;
      }
      assert tx in mine <==> tx.hash in txs;
    }

    /** Deletes the transaction the new one replaces, if there is one. */
    method DropReplaced(nonce: nat, slot: nat, account: seq<Entry>, ghost mine: seq<Tx>)
      requires Ix().Ok() && account == Entries(mine) && slot <= |mine|
      requires slot < |mine| ==> mine[slot].hash in txs
      modifies this`order, this`txs
      ensures Ix() == if Replaces(mine, nonce, slot) then old(Ix()).Unlink(mine[slot].hash) else old(Ix())
    {
      if slot < |account| {
        var (n, h) := account[slot];
        if nonce == n && h in txs {
          order := order - {txs[h].seqNo};
          txs := txs - {h};
        }
      }
    }

    /** The index once the transaction being pushed is entered into `txs` as well. */
    ghost function With(hash: Hash, info: TxInfo): Index
      reads this
    {
      Index(order, txs[hash := info], seqNo)
    }

    lemma WithMeans(hash: Hash, info: TxInfo)
      ensures With(hash, info) == Index(order, txs[hash := info], seqNo)
    {
    }

    /** Gives a live transaction a new number at the end of the order. */
    method Renumber(h: Hash, ghost hash: Hash, ghost info: TxInfo)
      requires h in txs && h != hash
      modifies this`order, this`txs, this`seqNo
      ensures txs.Keys == old(txs.Keys)
      ensures With(hash, info) == old(With(hash, info)).Renumber(h)
    {
      var renumbered := txs[h].(seqNo := seqNo);
      UpdatesCommute(txs, hash, info, h, renumbered);
      order := order - {txs[h].seqNo};
      order := order[seqNo := h];
      txs := txs[h := renumbered];
      seqNo := seqNo + 1;
    }

    /** Moves every still live entry to the end of the order, in the given order, while the
        transaction being pushed is in `order` but not yet in `txs`. */
    method MoveToEnd(list: seq<Entry>, ghost mine: seq<Tx>, ghost live: seq<Tx>, ghost hash: Hash, ghost info: TxInfo)
      returns (moved: seq<Entry>)
      requires With(hash, info).Ok() && hash !in txs
      requires list == Entries(mine) && Distinct(mine) && live == Filter(mine, Among(txs.Keys))
      requires forall x :: x in mine && x.hash in txs ==> x in With(hash, info).List()
      modifies this`order, this`txs, this`seqNo
      ensures With(hash, info).Ok() && moved == Entries(live)
      ensures With(hash, info).List() == Filter(old(With(hash, info)).List(), NotIn(live)) + live
    {
      hide *;
      ghost var all, keys := With(hash, info).List(), txs.Keys;
      ListFacts(With(hash, info));
      MoveStart(With(hash, info), all, mine, keys);
      moved := [];
      var i := 0;
      EntriesMean(mine);
      EntriesNone(mine, keys);
      WithMeans(hash, info);
      while i < |list|
        invariant i <= |list| && moved == Entries(Filter(mine[..i], Among(keys)))
        invariant txs.Keys == keys
        invariant MovedTo(With(hash, info), all, mine, i, keys)
      {
        var (n, h) := list[i];
        LiveStep(mine, i, keys);
        WithMeans(hash, info);
        if h in txs {
          assert mine[i] in mine;
          MoveStep(With(hash, info), all, mine, i, keys);
          EntriesPush(Filter(mine[..i], Among(keys)), mine[i]);
          Renumber(h, hash, info);
          moved := moved + [(n, h)];
        } else {
          MoveSkip(With(hash, info), all, mine, i, keys);
        }
        i := i + 1;
      }
      MoveEnd(With(hash, info), all, mine, keys);
    }

    /** Drops the replaced transaction, numbers the new one, and moves those behind after it. */
    method Enqueue(tx: Tx, slot: nat, account: seq<Entry>) returns (newNo: nat, moved: seq<Entry>)
      requires Ix().Ok() && NonceOrdered(Ix().List()) && tx.hash !in txs
      requires account == Entries(Mine(Ix().List(), tx.sender))
      requires IsSlot(Mine(Ix().List(), tx.sender), tx.nonce, slot)
      modifies this`order, this`txs, this`seqNo
      ensures With(tx.hash, TxInfo(tx, newNo)).Ok()
      ensures With(tx.hash, TxInfo(tx, newNo)).List() == TxList.Push(old(Ix()).List(), tx)
      ensures moved == Entries(Behind(Mine(old(Ix()).List(), tx.sender), tx.nonce, slot))
    {
      hide Index.Ok, Index.List, Mine, Filter, NonceOrdered, Distinct, IsSlot, Entries, TxList.Push;
      ghost var start := Ix();
      ghost var mine := Mine(start.List(), tx.sender);
      SlotIsLive(start, tx.sender, slot);
      SlotInList(mine, tx.nonce, slot);
      DropReplaced(tx.nonce, slot, account, mine);
      ghost var dropped := Ix();
      PushPlan(start, dropped, tx, slot);
      EntriesDrop(mine, slot);
      newNo := seqNo;
      seqNo := seqNo + 1;
      order := order[newNo := tx.hash];
      assert With(tx.hash, TxInfo(tx, newNo)) == dropped.Append(tx);
      moved := MoveToEnd(account[slot..], mine[slot..], Behind(mine, tx.nonce, slot), tx.hash, TxInfo(tx, newNo));
    }

    /** Adds a transaction: on the plain list this is exactly `TxList.Push`. */
    method Push(tx: Tx) returns (hash: Hash)
      requires Valid()
      requires tx.hash in txs ==> txs[tx.hash].tx == tx
      modifies this
      ensures Valid() && hash == tx.hash
      ensures tx.hash in old(txs) ==> View() == old(View())
      ensures tx.hash !in old(txs) ==> View() == TxList.Push(old(View()), tx)
    {
      hash := tx.hash;
      if tx.sender !in accounts {
        accounts := accounts[tx.sender := []];
      }
      var known, slot := FindSlot(tx);
      if known {
        return;
      }
      var account := accounts[tx.sender];
      ghost var list := View();
      ListFacts(Ix());
      var newNo, moved := Enqueue(tx, slot, account);
      PushKeepsOrder(list, tx);
      PushAccounts(accounts, list, tx, slot, moved);
      accounts := accounts[tx.sender := account[..slot] + [(tx.nonce, hash)] + moved];
      txs := txs[hash := TxInfo(tx, newNo)];
    }

    /** Removes the oldest transaction. */
    method Pop() returns (popped: Option<Tx>)
      requires Valid()
      modifies this
      ensures Valid()
      ensures old(View()) == [] ==> popped.None? && View() == []
      ensures old(View()) != [] ==> popped == Some(old(View())[0]) && View() == old(View())[1..]
    {
      if order == map[] {
        CollectLength(order, NamesOf(txs), seqNo);
        return None;
      }
      SmallestKey(order);
      var k :| k in order && forall j :: j in order ==> k <= j;
      HeadOfList(Ix(), k);
      hide Index.Ok, Index.List, NonceOrdered, AccountsAgree, Filter;
      var hash := order[k];
      var tx := txs[hash].tx;
      DropKeepsAll(Ix(), accounts, hash, IsEntry(tx.nonce, tx.hash));
      order := order - {k};
      txs := txs - {hash};
      accounts := accounts[tx.sender := RemoveEntry(accounts[tx.sender], IsEntry(tx.nonce, tx.hash))];
      popped := Some(tx);
    }

    /** Removes the oldest transactions until at most `max` are left. */
    method EvictTo(max: nat)
      requires Valid()
      modifies this
      ensures Valid() && View() == KeepLast(old(View()), max)
    {
      hide *;
      ghost var all := View();
      ghost var gone := 0;
      ViewLength();
      while |order| > max
        invariant Valid() && gone <= |all| && View() == all[gone..] && |View()| == |order|
        invariant gone == 0 || |all| - gone >= max
      {
        var popped := Pop();
        gone := gone + 1;
        ViewLength();
        if popped.None? {
          break;
        }
      }
      LastOnes(all, gone, max);
    }

    lemma ViewLength()
      requires Valid()
      ensures |View()| == |order|
    {
      CollectLength(order, NamesOf(txs), seqNo);
    }

    lemma KnownHash(h: Hash)
      requires Valid()
      ensures h in txs <==> Contains(View(), h)
    {
      ListFacts(Ix());
      if h in txs {
        assert txs[h].tx in View() && txs[h].tx.hash == h;
      }
      if Contains(View(), h) {
        var i :| 0 <= i < |View()| && View()[i].hash == h;
        assert View()[i] in View();
      }
    }

    /** Removes one transaction by hash. */
    method Remove(hash: Hash) returns (found: bool)
      requires Valid()
      modifies this
      ensures Valid() && found == (hash in old(txs))
      ensures View() == Filter(old(View()), NotHash(hash))
      ensures txs == old(txs) - {hash}
    {
      if hash !in txs {
        NotListed(Ix(), hash);
        return false;
      }
      var info := txs[hash];
      HashKnown(Ix(), hash);
      hide Index.Ok, Index.List, NonceOrdered, AccountsAgree, Filter, RemoveEntry;
      DropKeepsAll(Ix(), accounts, hash, HasHash(hash));
      txs := txs - {hash};
      accounts := accounts[info.tx.sender := RemoveEntry(accounts[info.tx.sender], HasHash(hash))];
      order := order - {info.seqNo};
      found := true;
    }

    method Clear()
      requires Valid()
      modifies this
      ensures Valid() && View() == []
    {
      accounts, txs, order := map[], map[], map[];
      CollectLength(order, NamesOf(txs), seqNo);
    }

    /** Reads the whole pool in sequence order. */
    method ListBySeq() returns (list: seq<Tx>)
      requires Valid()
      ensures list == View()
      ensures Distinct(list) && NonceOrdered(list) && forall h :: h in txs <==> exists x :: x in list && x.hash == h
    {
      list := [];
      for k := 0 to seqNo
        invariant Linked(order, NamesOf(txs)) && list == Collect(order, NamesOf(txs), k)
      {
        if k in order && order[k] in txs {
          list := list + [txs[order[k]].tx];
        }
      }
      ListFacts(Ix());
      forall h
        ensures h in txs <==> exists x :: x in list && x.hash == h
      {
        if h in txs {
          assert txs[h].tx.hash == h && txs[h].tx in list;
        }
      }
    }
  }

  /** The pool with its size limit. */
  class SeqPool {
    const max: nat
    const list: SeqPoolList

    constructor (max: nat)
      ensures this.max == max && fresh(list) && list.Valid() && list.View() == []
    {
      this.max := max;
      list := new SeqPoolList();
    }

    /** A known hash is refused; otherwise the list becomes the last `max` of the pushed list. */
    method Push(tx: Tx) returns (r: PushResult)
      requires list.Valid()
      requires tx.hash in list.txs ==> list.txs[tx.hash].tx == tx
      modifies list
      ensures list.Valid()
      ensures r == if tx.hash in old(list.txs) then Known else Pushed(tx.hash)
      ensures list.View() == Accept(old(list.View()), tx, max)
    {
      list.KnownHash(tx.hash);
      if tx.hash in list.txs {
        return Known;
      }
      var hash := list.Push(tx);
      list.EvictTo(max);
      r := Pushed(hash);
    }

    method RemoveList(hashes: seq<Hash>)
      requires list.Valid()
      modifies list
      ensures list.Valid() && list.View() == Filter(old(list.View()), NotAmong(hashes))
    {
      hide *;
      ghost var start := list.View();
      RemoveNone(start);
      var i := 0;
      assert hashes[..i] == [];
      while i < |hashes|
        invariant i <= |hashes| && list.Valid() && list.View() == Filter(start, NotAmong(hashes[..i]))
      {
        var _ := list.Remove(hashes[i]);
        RemoveOneMore(start, hashes, i);
        i := i + 1;
      }
      assert hashes[..i] == hashes;
    }
  }
}
