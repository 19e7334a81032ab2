/** Runs of the price pool: what any sequence of pushes, removals and listings keeps, and when a
    pushed transaction ends up pending. */
module PricePoolRuns {
  import opened Chain
  import opened Ordered
  import opened PricePool

  datatype Op = PushOp(tx: Tx) | RemoveOp(hash: Hash) | ListOp(query: Query)

  ghost function Step(s: Snapshot, op: Op): Snapshot {
    match op
    case PushOp(tx) => Pushed(s, tx)
    case RemoveOp(hash) => Removed(s, hash)
    case ListOp(query) => ListingOf(s, query).pool
  }

  ghost function After(s: Snapshot, ops: seq<Op>): Snapshot {
    if ops == [] then s else Step(After(s, ops[..|ops| - 1]), ops[|ops| - 1])
  }

  const EMPTY := Snapshot(map[], map[])

  // ---- the invariant and the slots ----

  lemma StepKeeps(s: Snapshot, op: Op)
    requires PoolOk(s)
    ensures PoolOk(Step(s, op)) && AllSlotsRise(s.pending, Step(s, op).pending)
  {
    hide PoolOk, Pushed, Removed, ListingOf, AllSlotsRise;
    match op {
      case PushOp(tx) => PushedKeeps(s, tx);
      case RemoveOp(hash) => RemovedKeeps(s, hash);
      case ListOp(query) => ListingKeeps(s, query);
    }
  }

  /** The pool invariant holds after every run from an empty pool. */
  lemma {:induction false} EveryRunIsOk(ops: seq<Op>)
    ensures PoolOk(After(EMPTY, ops))
    decreases |ops|
  {
    hide Step;
    if ops != [] {
      EveryRunIsOk(ops[..|ops| - 1]);
      StepKeeps(After(EMPTY, ops[..|ops| - 1]), ops[|ops| - 1]);
    }
  }

  /** The slot of a sender's nonce is occupied throughout a run. */
  ghost predicate Occupied(s: Snapshot, ops: seq<Op>, a: Address, n: nat) {
    forall k :: 0 <= k <= |ops| ==> OccupiedAt(s, ops, a, n, k)
  }

  ghost predicate OccupiedAt(s: Snapshot, ops: seq<Op>, a: Address, n: nat, k: int) {
    0 <= k <= |ops| && n in ItemsOf(After(s, ops[..k]).pending, a)
  }

  lemma OccupiedBefore(s: Snapshot, ops: seq<Op>, a: Address, n: nat)
    requires Occupied(s, ops, a, n)
    ensures n in ItemsOf(s.pending, a) && n in ItemsOf(After(s, ops).pending, a)
    ensures ops != [] ==> Occupied(s, ops[..|ops| - 1], a, n)
  {
    hide Step, ItemsOf;
    assert OccupiedAt(s, ops, a, n, 0) && ops[..0] == [];
    assert OccupiedAt(s, ops, a, n, |ops|) && ops[..|ops|] == ops;
    if ops != [] {
      var init := ops[..|ops| - 1];
      forall k | 0 <= k <= |init|
        ensures OccupiedAt(s, init, a, n, k)
      {
        assert OccupiedAt(s, ops, a, n, k) && init[..k] == ops[..k];
      }
    }
  }

  /** Over every run, a slot that stays occupied ends with its first occupant or with one that
      bids strictly more on both fee cap and priority fee. */
  lemma {:induction false} SlotHistory(s: Snapshot, ops: seq<Op>, a: Address, n: nat)
    requires PoolOk(s) && Occupied(s, ops, a, n)
    ensures PoolOk(After(s, ops)) && n in ItemsOf(s.pending, a) && n in ItemsOf(After(s, ops).pending, a)
    ensures var first, last := ItemsOf(s.pending, a)[n], ItemsOf(After(s, ops).pending, a)[n];
            last == first || (first.feeCap < last.feeCap && first.tipCap < last.tipCap)
    decreases |ops|
  {
    hide Step, PoolOk, ItemsOf;
    OccupiedBefore(s, ops, a, n);
    if ops != [] {
      var init := ops[..|ops| - 1];
      SlotHistory(s, init, a, n);
      StepKeeps(After(s, init), ops[|ops| - 1]);
      assert SlotsRise(ItemsOf(After(s, init).pending, a), ItemsOf(After(s, ops).pending, a));
    }
  }

  // ---- when a push succeeds ----

  /** Exactly when a pushed transaction is pending afterwards: a known hash changes nothing; in an
      occupied slot it has to raise both fee cap and priority fee; in a free one there has to be
      room, or a later nonce to make room. */
  lemma PushedHolds(s: Snapshot, tx: Tx)
    requires PoolOk(s)
    ensures var items := ItemsOf(s.pending, tx.sender);
            Holds(Pushed(s, tx).pending, tx) <==>
              if tx.hash in s.caches then Holds(s.pending, tx)
              else if tx.nonce in items then items[tx.nonce].feeCap < tx.feeCap && items[tx.nonce].tipCap < tx.tipCap
              else |items| < 20 || exists n :: n in items && tx.nonce < n
  {
    var items := ItemsOf(s.pending, tx.sender);
    if tx.hash !in s.caches {
      assert Kept(items, tx.sender, s.caches);
      AddedHolds(items, tx);
      if tx.nonce in items {
        assert items[tx.nonce].hash in s.caches;
      }
    }
  }

  /** What else a push does: of another slot of the sender, only the largest nonce of a full list
      goes, and only for a new transaction before it; other senders are left alone. */
  lemma PushedOthers(s: Snapshot, tx: Tx, a: Address, n: nat)
    requires PoolOk(s) && n in ItemsOf(s.pending, a) && !(a == tx.sender && n == tx.nonce)
    ensures var items, after := ItemsOf(s.pending, a), ItemsOf(Pushed(s, tx).pending, a);
            && (n !in after <==> && a == tx.sender && tx.hash !in s.caches && tx.nonce !in items && |items| == 20
                                 && tx.nonce < n && forall m :: m in items ==> m <= n)
            && (n in after ==> after[n] == items[n])
  {
    if a == tx.sender && tx.hash !in s.caches {
      assert Kept(s.pending[a], a, s.caches);
      hide PoolOk, Kept;
      AddedOthers(s.pending[a], tx, n);
      hide Add;
    }
  }

  lemma AddedOthers(items: Items, tx: Tx, n: nat)
    requires |items| <= USER_MAX && n in items && n != tx.nonce
    ensures var after := Add(items, tx, 0);
            && (n !in after <==>
                  tx.nonce !in items && |items| == 20 && tx.nonce < n && forall m :: m in items ==> m <= n)
            && (n in after ==> after[n] == items[n])
  {
    var more := items[tx.nonce := tx];
    if tx.nonce in items {
      assert more.Keys == items.Keys && |more| == |more.Keys|;
    } else {
      var keys := items.Keys + {tx.nonce};
      assert more.Keys == keys && |keys| == |items| + 1;
      if |items| == USER_MAX {
        LargestIs(keys, n);
      }
    }
  }

  lemma LargestIs(s: set<nat>, n: nat)
    requires n in s
    ensures Largest(s) == n <==> forall m :: m in s ==> m <= n
  {
  }

  /** A removal forgets its hash and no other, so the transaction can be pushed again. */
  lemma RemovedForgets(s: Snapshot, hash: Hash, other: Hash)
    ensures var after := Removed(s, hash);
            && hash !in after.caches
            && (other != hash ==> (other in after.caches <==> other in s.caches))
            && (other != hash && other in s.caches ==> after.caches[other] == s.caches[other])
  {
  }

  lemma AddedHolds(items: Items, tx: Tx)
    requires |items| <= USER_MAX
    ensures var after := Add(items, tx, 0);
            tx.nonce in after && after[tx.nonce] == tx <==>
              if tx.nonce in items then items[tx.nonce] == tx || Outbids(items[tx.nonce], tx, 0)
              else |items| < USER_MAX || exists n :: n in items && tx.nonce < n
  {
    if tx.nonce in items {
      assert items[tx.nonce := tx].Keys == items.Keys;
      assert |items[tx.nonce := tx]| == |items[tx.nonce := tx].Keys|;
    } else {
      PutHolds(items, tx);
    }
  }

  lemma PutHolds(items: Items, tx: Tx)
    requires |items| <= USER_MAX && tx.nonce !in items
    ensures tx.nonce in Put(items, tx) && Put(items, tx)[tx.nonce] == tx <==>
            |items| < USER_MAX || exists n :: n in items && tx.nonce < n
  {
    var keys := items.Keys + {tx.nonce};
    assert items[tx.nonce := tx].Keys == keys && |keys| == |items| + 1;
    if |items| == USER_MAX {
      LargestIsNew(items.Keys, tx.nonce);
      assert tx.nonce in Put(items, tx) <==> Largest(keys) != tx.nonce;
    }
  }

  lemma LargestIsNew(s: set<nat>, k: nat)
    requires k !in s
    ensures Largest(s + {k}) != k <==> exists n :: n in s && k < n
  {
    var top := Largest(s + {k});
    if n :| n in s && k < n {
      assert n in s + {k};
    }
    if top != k {
      assert k in s + {k};
      assert top in s && k < top;
    }
  }

  /** A transaction that is cached but not pending is refused in every run, until its hash is
      removed. */
  lemma {:induction false} RefusedEverAfter(s: Snapshot, ops: seq<Op>, tx: Tx)
    requires PoolOk(s) && tx.hash in s.caches && s.caches[tx.hash] == tx && !Holds(s.pending, tx)
    requires RemoveOp(tx.hash) !in ops
    ensures var later := After(s, ops);
            && PoolOk(later) && tx.hash in later.caches && later.caches[tx.hash] == tx
            && !Holds(later.pending, tx) && Pushed(later, tx) == later
    decreases |ops|
  {
    hide Step, PoolOk, Holds;
    if ops != [] {
      var init, last := ops[..|ops| - 1], ops[|ops| - 1];
      assert ops == init + [last];
      RefusedEverAfter(s, init, tx);
      StepKeeps(After(s, init), last);
      StepRefuses(After(s, init), last, tx);
    }
  }

  lemma StepRefuses(s: Snapshot, op: Op, tx: Tx)
    requires PoolOk(s) && tx.hash in s.caches && s.caches[tx.hash] == tx && !Holds(s.pending, tx)
    requires op != RemoveOp(tx.hash)
    ensures var after := Step(s, op);
            tx.hash in after.caches && after.caches[tx.hash] == tx && !Holds(after.pending, tx)
  {
    match op {
      case PushOp(other) =>
        if other.hash !in s.caches {
          OthersStayOut(s, other, tx);
        }
      case RemoveOp(hash) =>
        RemovedShrinks(s, hash, tx);
      case ListOp(query) =>
        ListedShrinks(s, query, tx);
    }
  }

  lemma OthersStayOut(s: Snapshot, other: Tx, tx: Tx)
    requires PoolOk(s) && other.hash !in s.caches && tx.hash in s.caches && !Holds(s.pending, tx)
    ensures !Holds(Pushed(s, other).pending, tx)
  {
    var items := ItemsOf(s.pending, other.sender);
    assert Kept(items, other.sender, s.caches);
    AddedIsNew(items, other.sender, s.caches, other, tx.nonce);
    hide PoolOk, Add, Kept;
  }

  lemma AddedIsNew(items: Items, a: Address, caches: map<Hash, Tx>, tx: Tx, n: nat)
    requires Kept(items, a, caches) && tx.sender == a
    ensures n in Add(items, tx, 0) ==> Add(items, tx, 0)[n] == tx || (n in items && Add(items, tx, 0)[n] == items[n])
  {
    AddKeeps(items, tx, 0, a);
    hide Add, Stored, SlotsRise;
  }

  lemma RemovedShrinks(s: Snapshot, hash: Hash, tx: Tx)
    requires !Holds(s.pending, tx)
    ensures !Holds(Removed(s, hash).pending, tx)
  {
  }

  lemma ListedShrinks(s: Snapshot, query: Query, tx: Tx)
    requires PoolOk(s) && tx.hash in s.caches && s.caches[tx.hash] == tx && !Holds(s.pending, tx)
    ensures var pool := ListingOf(s, query).pool;
            !Holds(pool.pending, tx) && tx.hash in pool.caches && pool.caches[tx.hash] == tx
  {
    ListingKeeps(s, query);
    var pool := ListingOf(s, query).pool;
    assert pool.caches == Uncached(s.caches, s.pending, pool.pending);
    hide ListingOf, PoolOk, AllSlotsRise, SizeUpTo;
    assert Cleaned(ItemsOf(s.pending, tx.sender), ItemsOf(pool.pending, tx.sender), query.baseFee);
  }

  // ---- a full list drops what comes behind it ----

  function Pushes(txs: seq<Tx>): (ops: seq<Op>)
    ensures |ops| == |txs| && forall i :: 0 <= i < |txs| ==> ops[i] == PushOp(txs[i])
  {
    seq(|txs|, i requires 0 <= i < |txs| => PushOp(txs[i]))
  }

  /** One sender's transactions with increasing nonces and hashes of their own. */
  ghost predicate Row(txs: seq<Tx>, a: Address) {
    && (forall i :: 0 <= i < |txs| ==> txs[i].sender == a)
    && (forall i, j :: 0 <= i < j < |txs| ==> txs[i].nonce < txs[j].nonce && txs[i].hash != txs[j].hash)
  }

  function ItemsFrom(txs: seq<Tx>): Items {
    if txs == [] then map[] else
      var last := txs[|txs| - 1];
      ItemsFrom(txs[..|txs| - 1])[last.nonce := last]
  }

  function CachesFrom(txs: seq<Tx>): map<Hash, Tx> {
    if txs == [] then map[] else
      var last := txs[|txs| - 1];
      CachesFrom(txs[..|txs| - 1])[last.hash := last]
  }

  /** The pool that holds just these transactions, all pending. */
  function Holding(txs: seq<Tx>, a: Address): Snapshot {
    Snapshot(if txs == [] then map[] else map[a := ItemsFrom(txs)], CachesFrom(txs))
  }

  lemma RowBefore(txs: seq<Tx>, a: Address)
    requires Row(txs, a) && txs != []
    ensures var init, last := txs[..|txs| - 1], txs[|txs| - 1];
            && Row(init, a) && last.sender == a
            && forall i :: 0 <= i < |init| ==> init[i].nonce < last.nonce && init[i].hash != last.hash
  {
    assert forall i :: 0 <= i < |txs| - 1 ==> txs[..|txs| - 1][i] == txs[i];
  }

  lemma {:induction false} RowMembers(txs: seq<Tx>, a: Address, n: nat, h: Hash)
    requires Row(txs, a)
    ensures n in ItemsFrom(txs) ==> exists i :: 0 <= i < |txs| && txs[i].nonce == n
    ensures h in CachesFrom(txs) ==> exists i :: 0 <= i < |txs| && txs[i].hash == h
    decreases |txs|
  {
    if txs != [] {
      var init, last := txs[..|txs| - 1], txs[|txs| - 1];
      RowBefore(txs, a);
      hide Row;
      RowMembers(init, a, n, h);
      assert forall i :: 0 <= i < |init| ==> init[i] == txs[i];
      assert txs[|txs| - 1] == last;
    }
  }

  lemma {:induction false} RowSize(txs: seq<Tx>, a: Address)
    requires Row(txs, a)
    ensures |ItemsFrom(txs)| == |txs|
    decreases |txs|
  {
    if txs != [] {
      var init, last := txs[..|txs| - 1], txs[|txs| - 1];
      RowBefore(txs, a);
      hide Row;
      RowSize(init, a);
      RowMembers(init, a, last.nonce, last.hash);
      assert ItemsFrom(txs).Keys == ItemsFrom(init).Keys + {last.nonce};
    }
  }

  /** Pushing a row of up to twenty makes it pending. */
  lemma {:induction false} RowIsHeld(txs: seq<Tx>, a: Address)
    requires Row(txs, a) && |txs| <= USER_MAX
    ensures After(EMPTY, Pushes(txs)) == Holding(txs, a)
    decreases |txs|
  {
    if txs != [] {
      var init, last := txs[..|txs| - 1], txs[|txs| - 1];
      assert Pushes(txs)[..|txs| - 1] == Pushes(init);
      RowBefore(txs, a);
      hide Row, Pushed, Holding;
      RowIsHeld(init, a);
      HoldOneMore(txs, a);
    }
  }

  lemma HoldOneMore(txs: seq<Tx>, a: Address)
    requires txs != [] && |txs| <= USER_MAX && Row(txs, a)
    ensures Pushed(Holding(txs[..|txs| - 1], a), txs[|txs| - 1]) == Holding(txs, a)
  {
    var init, last := txs[..|txs| - 1], txs[|txs| - 1];
    RowBefore(txs, a);
    RowMembers(init, a, last.nonce, last.hash);
    RowSize(txs, a);
    hide Row;
    assert Add(ItemsFrom(init), last, 0) == ItemsFrom(txs);
    hide Add;
    assert ItemsOf(Holding(init, a).pending, a) == ItemsFrom(init);
  }

  /** Every sender's list can be filled, and then a later nonce is accepted, dropped at once, and
      refused from then on. */
  lemma DroppedAtOnce(txs: seq<Tx>, tx: Tx)
    requires Row(txs + [tx], tx.sender) && |txs| == USER_MAX
    ensures var full := After(EMPTY, Pushes(txs));
            var after := Pushed(full, tx);
            && full == Holding(txs, tx.sender) && |ItemsOf(full.pending, tx.sender)| == USER_MAX
              && tx.hash !in full.caches
            && tx.hash in after.caches && !Holds(after.pending, tx) && Pushed(after, tx) == after
  {
    RowBefore(txs + [tx], tx.sender);
    assert (txs + [tx])[..|txs|] == txs;
    hide Row;
    RowIsHeld(txs, tx.sender);
    EveryRunIsOk(Pushes(txs));
    RowSize(txs, tx.sender);
    RowMembers(txs, tx.sender, tx.nonce, tx.hash);
    forall n | n in ItemsFrom(txs)
      ensures n < tx.nonce
    {
      RowMembers(txs, tx.sender, n, 0);
    }
    hide After, PoolOk, ItemsFrom, CachesFrom;
    PushedHolds(After(EMPTY, Pushes(txs)), tx);
  }
}
