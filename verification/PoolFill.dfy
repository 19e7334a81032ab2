/** Filling a block from the sequential pool and from the price pool. */
module PoolFill {
  import opened Chain
  import opened Evm
  import opened BuildEnv
  import opened Trials
  import opened Merge
  import PriceHeads
  import PricePool
  import SeqPool
  import TxList

  /** The order `sub` keeps what it takes from `list`. */
  ghost predicate TakenFrom(sub: seq<Tx>, list: seq<Tx>)
    decreases |list|
  {
    if sub == [] then true
    else if list == [] then false
    else if sub[|sub| - 1] == list[|list| - 1] && TakenFrom(sub[..|sub| - 1], list[..|list| - 1]) then true
    else TakenFrom(sub, list[..|list| - 1])
  }

  lemma TakeNext(sub: seq<Tx>, list: seq<Tx>, i: nat)
    requires i < |list| && TakenFrom(sub, list[..i])
    ensures TakenFrom(sub, list[..i + 1]) && TakenFrom(sub + [list[i]], list[..i + 1])
  {
    assert list[..i + 1][..i] == list[..i];
    assert (sub + [list[i]])[..|sub|] == sub;
  }

  /** The transactions were tried in list order, all of them unless a stop came. */
  ghost predicate Follows(trials: seq<Trial>, list: seq<Tx>) {
    InTurn(trials, list) && (|trials| == |list| || Stopped(trials))
  }

  ghost predicate InTurn(trials: seq<Trial>, list: seq<Tx>) {
    |trials| <= |list| && forall i :: 0 <= i < |trials| ==> trials[i].tx == list[i]
  }

  lemma TurnStart(list: seq<Tx>)
    ensures InTurn([], list) && TxList.Filter(list, SeqPool.NotAmong([])) == list
  {
    TxList.FilterAll(list, SeqPool.NotAmong([]));
  }

  lemma NextTurn(trials: seq<Trial>, list: seq<Tx>, t: Trial)
    requires InTurn(trials, list) && |trials| < |list| && t.tx == list[|trials|]
    ensures InTurn(trials + [t], list)
  {
  }

  lemma RemovedOneMore(view: seq<Tx>, removed: seq<Hash>, h: Hash)
    ensures TxList.Filter(TxList.Filter(view, SeqPool.NotAmong(removed)), TxList.NotHash(h))
         == TxList.Filter(view, SeqPool.NotAmong(removed + [h]))
  {
    var more := removed + [h];
    assert more[..|removed|] == removed && more[..|removed| + 1] == more && more[|removed|] == h;
    hide *;
    SeqPool.RemoveOneMore(view, more, |removed|);
  }

  /** Commits the pool's transactions in sequence order. A transaction whose nonce has passed or
      that is not supported is removed from the pool; a stop ends the phase. */
  method FillSeq(env: Environment, alive: Alive, pool: SeqPool.SeqPoolList)
    returns (internals: seq<nat>, ghost trials: seq<Trial>)
    requires env.Valid() && pool.Valid()
    modifies env, env.state, pool
    ensures env.Valid() && pool.Valid() && env.state.flushed == old(env.state.flushed)
    ensures env.Capacity() == old(env.Capacity()) && env.minerBalance == old(env.minerBalance)
    ensures Lead(env.ctx, old(env.Here()), trials, alive.forever, env.Here())
    ensures Follows(trials, old(pool.View()))
    ensures env.txs == old(env.txs) + Successes(trials) && TakenFrom(Successes(trials), old(pool.View()))
    ensures pool.View() == TxList.Filter(old(pool.View()), SeqPool.NotAmong(Removals(trials)))
    ensures forall x :: x in Successes(trials) ==> x.hash !in Removals(trials)
    ensures |internals| == |Successes(trials)|
  {
    hide *;
    internals, trials := [], [];
    var list := pool.ListBySeq();
    TurnStart(list);
    ghost var start := env.Here();
    LeadStart(env.ctx, start, alive.forever);
    var i := 0;
    while i < |list|
      invariant i <= |list| && env.Valid() && pool.Valid() && env.state.flushed == old(env.state.flushed)
      invariant env.Capacity() == old(env.Capacity()) && env.minerBalance == old(env.minerBalance)
      invariant Lead(env.ctx, start, trials, alive.forever, env.Here()) && !Stopped(trials)
      invariant |trials| == i && InTurn(trials, list)
      invariant env.txs == old(env.txs) + Successes(trials) && |internals| == |Successes(trials)|
      invariant pool.View() == TxList.Filter(list, SeqPool.NotAmong(Removals(trials)))
    {
      var tx := list[i];
      ghost var here, done := env.Here(), trials;
      var action := env.CommitTransaction(alive, tx);
      ghost var t := Trial(tx, action);
      LeadPush(env.ctx, start, done, alive.forever, here, t);
      ListsPush(done, t);
      NextTurn(done, list, t);
      Associate(old(env.txs), Successes(done), [tx]);
      RemovedOneMore(list, Removals(done), tx.hash);
      StillInPool(done, list, tx);
      pool.KnownHash(tx.hash);
      trials := done + [t];
      if action.Success? {
        if tx.hash in pool.txs {
          var blocks: nat := *;
          internals := internals + [blocks];
        }
      } else if action.RemoveTx? {
        var _ := pool.Remove(tx.hash);
      } else if action.Stop? {
        break;
      }
      i := i + 1;
    }
    SequentialFate(trials, list);
    FollowsMade(trials, list);
  }

  /** A transaction whose turn has not come is still in the pool. */
  lemma StillInPool(trials: seq<Trial>, list: seq<Tx>, tx: Tx)
    requires InTurn(trials, list) && TxList.Distinct(list) && |trials| < |list| && tx == list[|trials|]
    ensures TxList.Contains(TxList.Filter(list, SeqPool.NotAmong(Removals(trials))), tx.hash)
  {
    RemovalsIff(trials, tx.hash);
    TxList.FilterIn(list, SeqPool.NotAmong(Removals(trials)), tx);
  }

  lemma FollowsMade(trials: seq<Trial>, list: seq<Tx>)
    requires InTurn(trials, list) && (|trials| == |list| || Stopped(trials))
    ensures Follows(trials, list)
  {
  }

  /** What goes into the block keeps the list's order, and none of it is removed. */
  lemma SequentialFate(trials: seq<Trial>, list: seq<Tx>)
    requires InTurn(trials, list) && TxList.Distinct(list)
    ensures TakenFrom(Successes(trials), list) && forall x :: x in Successes(trials) ==> x.hash !in Removals(trials)
  {
    SuccessesTaken(trials, list);
    forall x | x in Successes(trials)
      ensures x.hash !in Removals(trials)
    {
      SuccessesIff(trials, x);
      RemovalsIff(trials, x.hash);
    }
  }

  lemma {:induction false} SuccessesTaken(trials: seq<Trial>, list: seq<Tx>)
    requires InTurn(trials, list)
    ensures TakenFrom(Successes(trials), list[..|trials|]) && TakenFrom(Successes(trials), list)
    decreases |trials|
  {
    if trials != [] {
      var n := |trials| - 1;
      SuccessesTaken(trials[..n], list);
      TakeNext(Successes(trials[..n]), list, n);
      assert trials == trials[..n] + [trials[n]];
      ListsPush(trials[..n], trials[n]);
    }
    Widen(list, |trials|, Successes(trials));
  }

  lemma {:induction false} Widen(list: seq<Tx>, i: nat, added: seq<Tx>)
    requires i <= |list| && TakenFrom(added, list[..i])
    ensures TakenFrom(added, list)
    decreases |list| - i
  {
    if i < |list| {
      TakeNext(added, list, i);
      Widen(list, i + 1, added);
    } else {
      assert list[..i] == list;
    }
  }

  // ---- price pool ----

  /** The cached transactions, which hashes identify. */
  ghost function Cached(caches: map<Hash, Tx>): set<Tx> {
    set h | h in caches :: caches[h]
  }

  /** What the price pool offers can be handed to the merge: keyed by sender, told apart by
      hash, each list a run of consecutive nonces whose transactions can all pay. */
  lemma OffersAreQueues(result: map<Address, seq<Tx>>, pending: PricePool.Pending, caches: map<Hash, Tx>, baseFee: nat)
    requires PricePool.Offers(result, pending, Some(baseFee)) && PricePool.AllKept(pending, caches)
    ensures PriceHeads.Keyed(result, Cached(caches)) && PriceHeads.Injective(Cached(caches))
    ensures PriceHeads.Runnable(result, baseFee) == result
    ensures forall a :: a in result ==> ConsecutiveNonces(result[a])
  {
    hide ConsecutiveNonces, PricePool.Kept, PricePool.RunOf, EffectiveGasTip;
    forall a, x | a in result && x in result[a]
      ensures x.sender == a && x in Cached(caches)
    {
      assert PricePool.RunOf(result[a], pending[a], Some(baseFee)) && PricePool.Kept(pending[a], a, caches);
      OfferedIsKept(result[a], pending[a], a, caches, baseFee, x);
    }
    forall a | a in result
      ensures result[a] != [] && CanPay(result[a][0], Some(baseFee)) && ConsecutiveNonces(result[a])
    {
      assert PricePool.RunOf(result[a], pending[a], Some(baseFee));
      RunStarts(result[a], pending[a], baseFee);
    }
  }

  lemma OfferedIsKept(run: seq<Tx>, items: PricePool.Items, a: Address, caches: map<Hash, Tx>, baseFee: nat, x: Tx)
    requires PricePool.RunOf(run, items, Some(baseFee)) && PricePool.Kept(items, a, caches) && x in run
    ensures x.sender == a && x.hash in caches && caches[x.hash] == x
  {
  }

  lemma RunStarts(run: seq<Tx>, items: PricePool.Items, baseFee: nat)
    requires PricePool.RunOf(run, items, Some(baseFee))
    ensures run != [] && CanPay(run[0], Some(baseFee)) && ConsecutiveNonces(run)
  {
  }

  const USIZE_MAX: nat := 0xFFFF_FFFF_FFFF_FFFF

  predicate HashIn(page: seq<Tx>, h: Hash) { exists i :: 0 <= i < |page| && page[i].hash == h }

  /** What an outcome does to the sender's queue. */
  function MoveOf(action: CommitAction): Move { if Settles(action) then Shift else Drop }

  function Attempts(trials: seq<Trial>): (log: seq<Attempt>)
    ensures |log| == |trials| && forall i :: 0 <= i < |log| ==>
            log[i] == Attempt(trials[i].tx, MoveOf(trials[i].action))
  {
    seq(|trials|, i requires 0 <= i < |trials| => Attempt(trials[i].tx, MoveOf(trials[i].action)))
  }

  /** `log` leads from the queues `q` to `q'`. */
  ghost predicate Logged(q: Queues, baseFee: nat, log: seq<Attempt>, q': Queues) {
    Live(q, baseFee) && Run(q, baseFee, log, q')
  }

  lemma LogStart(q: Queues, baseFee: nat)
    requires Live(q, baseFee)
    ensures Logged(q, baseFee, Attempts([]), q)
  {
  }

  lemma LogNext(q: Queues, baseFee: nat, trials: seq<Trial>, q': Queues, t: Trial)
    requires Logged(q, baseFee, Attempts(trials), q') && Live(q', baseFee) && Leads(q', baseFee, t.tx)
    ensures Logged(q, baseFee, Attempts(trials + [t]), After(q', baseFee, t.tx.sender, MoveOf(t.action)))
  {
    RunPush(q, baseFee, Attempts(trials), q', Attempt(t.tx, MoveOf(t.action)));
    assert Attempts(trials + [t]) == Attempts(trials) + [Attempt(t.tx, MoveOf(t.action))];
  }

  lemma LogMeans(q: Queues, baseFee: nat, log: seq<Attempt>, q': Queues)
    requires Logged(q, baseFee, log, q')
    ensures Live(q, baseFee) && Run(q, baseFee, log, q')
  {
  }

  lemma FrontOnPage(page: seq<Tx>, tx: Tx)
    requires page != [] && page[0] == tx
    ensures HashIn(page, tx.hash)
  {
  }

  /** What a price phase moves: the build, the queues still to serve, the pool and the block. */
  datatype Market = Market(point: Point, queues: Queues, pool: PricePool.Snapshot, txs: seq<Tx>)

  ghost function MarketOf(env: Environment, pool: PricePool.PricePool,
                          list: PriceHeads.TransactionsByPriceAndNonce): Market
    reads env, env.state, pool, list
  {
    Market(env.Here(), list.queues, pool.Now(), env.txs)
  }

  /** The trials so far account for all that has moved. */
  ghost predicate PriceMidway(ctx: Context, from: Market, trials: seq<Trial>, forever: bool, now: Market) {
    && Lead(ctx, from.point, trials, forever, now.point)
    && Logged(from.queues, ctx.header.baseFee, Attempts(trials), now.queues)
    && now.pool == PricePool.RemovedAll(from.pool, Removals(trials))
    && now.txs == from.txs + Successes(trials)
  }

  lemma PriceStart(ctx: Context, from: Market, forever: bool)
    requires Live(from.queues, ctx.header.baseFee)
    ensures PriceMidway(ctx, from, [], forever, from) && !Stopped([])
  {
    LeadStart(ctx, from.point, forever);
    LogStart(from.queues, ctx.header.baseFee);
  }

  /** What one attempt moves. */
  ghost function AfterAttempt(ctx: Context, m: Market, t: Trial): Market
    requires t.tx.sender in m.queues && m.queues[t.tx.sender] != []
  {
    Market(Moved(ctx, t.tx, m.point, t.action),
           After(m.queues, ctx.header.baseFee, t.tx.sender, MoveOf(t.action)),
           if t.action.RemoveTx? then PricePool.Removed(m.pool, t.tx.hash) else m.pool,
           if t.action.Success? then m.txs + [t.tx] else m.txs)
  }

  lemma PriceNext(ctx: Context, from: Market, trials: seq<Trial>, forever: bool, m: Market, t: Trial)
    requires PriceMidway(ctx, from, trials, forever, m) && !Stopped(trials)
    requires Decided(ctx, t.tx, m.point, t.action, forever)
    requires Live(m.queues, ctx.header.baseFee) && Leads(m.queues, ctx.header.baseFee, t.tx)
    ensures PriceMidway(ctx, from, trials + [t], forever, AfterAttempt(ctx, m, t))
    ensures Stopped(trials + [t]) == t.action.Stop?
  {
    hide Lead, Logged, Decided, Moved, After, PricePool.Removed, PricePool.RemovedAll, Successes, Removals, Attempts;
    LeadPush(ctx, from.point, trials, forever, m.point, t);
    LogNext(from.queues, ctx.header.baseFee, trials, m.queues, t);
    ListsPush(trials, t);
    PricePool.RemovedPush(from.pool, Removals(trials), t.tx.hash);
    Associate(from.txs, Successes(trials), [t.tx]);
  }

  /** Attempts the front of the list and moves on as the outcome demands. */
  method AttemptFront(env: Environment, alive: Alive, pool: PricePool.PricePool,
                      list: PriceHeads.TransactionsByPriceAndNonce, tx: Tx)
    returns (action: CommitAction)
    requires env.Valid() && pool.Valid() && list.Valid() && list.baseFee == env.ctx.header.baseFee
    requires list.heads != [] && tx == list.heads[0].tx
    modifies env, env.state, pool, list
    ensures env.Valid() && pool.Valid() && list.Valid()
    ensures env.Capacity() == old(env.Capacity()) && env.minerBalance == old(env.minerBalance)
    ensures Decided(env.ctx, tx, old(env.Here()), action, alive.forever)
    ensures tx.sender in old(list.queues) && old(list.queues)[tx.sender] != []
    ensures MarketOf(env, pool, list) == AfterAttempt(env.ctx, old(MarketOf(env, pool, list)), Trial(tx, action))
    ensures list.Len() == old(list.Len()) - 1
  {
    hide *;
    ghost var m := MarketOf(env, pool, list);
    MarketMeans(env, pool, list);
    action := env.CommitTransaction(alive, tx);
    MoveMeans(action);
    match action {
      case Success(_) =>
        list.ShiftHead();
      case RemoveTx =>
        var _ := pool.Remove(tx.hash);
        list.ShiftHead();
      case Pop =>
        list.Pop();
      case MarkFail(_) =>
        list.Pop();
      case Stop =>
        list.Pop();
    }
    MarketMeans(env, pool, list);
    AttemptMeans(env.ctx, m, Trial(tx, action), MarketOf(env, pool, list));
  }

  lemma MarketMeans(env: Environment, pool: PricePool.PricePool, list: PriceHeads.TransactionsByPriceAndNonce)
    ensures MarketOf(env, pool, list) == Market(env.Here(), list.queues, pool.Now(), env.txs)
  {
  }

  lemma AttemptMeans(ctx: Context, m: Market, t: Trial, m': Market)
    requires t.tx.sender in m.queues && m.queues[t.tx.sender] != []
    requires m'.point == Moved(ctx, t.tx, m.point, t.action)
    requires m'.queues == After(m.queues, ctx.header.baseFee, t.tx.sender, MoveOf(t.action))
    requires m'.pool == if t.action.RemoveTx? then PricePool.Removed(m.pool, t.tx.hash) else m.pool
    requires m'.txs == if t.action.Success? then m.txs + [t.tx] else m.txs
    ensures m' == AfterAttempt(ctx, m, t)
  {
    hide Moved, After, PricePool.Removed, MoveOf;
  }

  lemma MoveMeans(action: CommitAction)
    ensures MoveOf(action) == if action.Success? || action.RemoveTx? then Shift else Drop
  {
  }

  /** Serves the queues while the best next transaction is on the page. The first one is, so at
      least one is used up. */
  method CommitPage(env: Environment, alive: Alive, pool: PricePool.PricePool,
                    list: PriceHeads.TransactionsByPriceAndNonce, page: seq<Tx>,
                    ghost from: Market, ghost before: seq<Trial>)
    returns (stop: bool, ghost trials: seq<Trial>)
    requires env.Valid() && pool.Valid() && list.Valid() && list.baseFee == env.ctx.header.baseFee
    requires page != [] && list.heads != [] && page[0] == list.heads[0].tx && !Stopped(before)
    requires PriceMidway(env.ctx, from, before, alive.forever, MarketOf(env, pool, list))
    modifies env, env.state, pool, list
    ensures env.Valid() && pool.Valid() && list.Valid() && stop == Stopped(trials)
    ensures env.Capacity() == old(env.Capacity()) && env.minerBalance == old(env.minerBalance)
    ensures PriceMidway(env.ctx, from, trials, alive.forever, MarketOf(env, pool, list))
    ensures |trials| + list.Len() == |before| + old(list.Len()) && list.Len() < old(list.Len())
  {
    hide *;
    trials, stop := before, false;
    while true
      invariant env.Valid() && pool.Valid() && list.Valid() && !Stopped(trials) && !stop
      invariant env.Capacity() == old(env.Capacity()) && env.minerBalance == old(env.minerBalance)
      invariant PriceMidway(env.ctx, from, trials, alive.forever, MarketOf(env, pool, list))
      invariant |trials| + list.Len() == |before| + old(list.Len())
      invariant list.Len() < old(list.Len())
                || (list.Len() == old(list.Len()) && list.heads != [] && page[0] == list.heads[0].tx)
      decreases list.Len()
    {
      var next := list.Peek();
      if next.None? {
        return;
      }
      if list.Len() == old(list.Len()) {
        FrontOnPage(page, next.value);
      }
      if !HashIn(page, next.value.hash) {
        return;
      }
      list.ValidIsLive();
      MarketMeans(env, pool, list);
      ghost var m := MarketOf(env, pool, list);
      var action := AttemptFront(env, alive, pool, list, next.value);
      ghost var t := Trial(next.value, action);
      PriceNext(env.ctx, from, trials, alive.forever, m, t);
      trials := trials + [t];
      if action.Stop? {
        stop := true;
        return;
      }
    }
  }

  /** Attempts the offered transactions, best next one first, a page at a time. The trials are a
      run of the merge from the queues held. It ends even if the deadline never passes, since
      every page uses up a transaction; then all queues are used up, or the gas is. */
  method CommitPool(env: Environment, alive: Alive, pool: PricePool.PricePool,
                    list: PriceHeads.TransactionsByPriceAndNonce, limit: nat)
    returns (ghost trials: seq<Trial>)
    requires env.Valid() && pool.Valid() && list.Valid() && list.baseFee == env.ctx.header.baseFee
    modifies env, env.state, pool, list
    ensures env.Valid() && pool.Valid() && env.state.flushed == env.state.world
    ensures env.Capacity() == old(env.Capacity()) && env.minerBalance == old(env.minerBalance)
    ensures PriceMidway(env.ctx, old(MarketOf(env, pool, list)), trials, alive.forever, MarketOf(env, pool, list))
    ensures |trials| + list.Len() == old(list.Len())
    ensures alive.forever ==> list.queues == map[] || (Stopped(trials) && env.gasPool <= TX_GAS)
  {
    hide *;
    trials := [];
    list.ValidIsLive();
    ghost var from := MarketOf(env, pool, list);
    MarketMeans(env, pool, list);
    PriceStart(env.ctx, from, alive.forever);
    while true
      invariant env.Valid() && pool.Valid() && list.Valid() && !Stopped(trials)
      invariant env.Capacity() == old(env.Capacity()) && env.minerBalance == old(env.minerBalance)
      invariant |trials| + list.Len() == old(list.Len())
      invariant PriceMidway(env.ctx, from, trials, alive.forever, MarketOf(env, pool, list))
      decreases list.Len()
    {
      var running := alive.IsAlive();
      if !running {
        break;
      }
      list.ValidIsLive();
      var page := list.PeekN(limit);
      if |page| == 0 {
        break;
      }
      var stop;
      stop, trials := CommitPage(env, alive, pool, list, page, from, trials);
      if stop {
        break;
      }
    }
    MarketMeans(env, pool, list);
    if alive.forever && Stopped(trials) {
      PriceStopped(env.ctx, from, trials, MarketOf(env, pool, list));
    }
    env.Unfold();
    env.FlushState();
    MarketMeans(env, pool, list);
  }

  lemma PriceStopped(ctx: Context, from: Market, trials: seq<Trial>, now: Market)
    requires PriceMidway(ctx, from, trials, true, now) && Stopped(trials)
    ensures now.point.gasPool <= TX_GAS
  {
    hide Logged, Lead, Successes, Removals, Attempts, Stopped;
    StoppedForGas(ctx, from.point, trials, now.point);
  }

  /** What the price pool lists for a build that stands at `p`. */
  ghost function PriceListing(ctx: Context, p: Point, prices: PricePool.Snapshot, size: nat): PricePool.Listing {
    PricePool.ListingOf(prices, PricePool.Query(p.marks, Some(ctx.header.baseFee), USIZE_MAX, size))
  }

  /** A whole price phase on a pool: the trials are a run of the merge on what the pool offers by
      the marks so far, with each outcome due at its point, until all is used up or a stop. */
  ghost predicate PricePhase(ctx: Context, p: Point, prices: PricePool.Snapshot, size: nat, trials: seq<Trial>,
                             left: Queues, forever: bool) {
    var listing := PriceListing(ctx, p, prices, size);
    && Logged(listing.offers, ctx.header.baseFee, Attempts(trials), left)
    && Judged(ctx, p.(marks := listing.marks), trials, forever)
    && (forever ==> left == map[] || Stopped(trials))
  }

  /** The price pool after a price phase: listed, and without what can never go into a block. */
  ghost function PricesAfter(ctx: Context, p: Point, prices: PricePool.Snapshot, size: nat,
                             trials: seq<Trial>): PricePool.Snapshot {
    PricePool.RemovedAll(PriceListing(ctx, p, prices, size).pool, Removals(trials))
  }

  ghost function PointAfterPrices(ctx: Context, p: Point, prices: PricePool.Snapshot, size: nat,
                                  trials: seq<Trial>): Point {
    PointAfter(ctx, p.(marks := PriceListing(ctx, p, prices, size).marks), trials)
  }

  /** Fetches what the pool offers for this base fee and commits it. */
  method FillPrice(env: Environment, alive: Alive, pool: PricePool.PricePool)
    returns (ghost trials: seq<Trial>, ghost left: Queues)
    requires env.Valid() && pool.Valid()
    modifies env, env.state, pool
    ensures env.Valid() && pool.Valid() && env.state.flushed == env.state.world
    ensures env.Capacity() == old(env.Capacity()) && env.minerBalance == old(env.minerBalance)
    ensures PricePhase(env.ctx, old(env.Here()), old(pool.Now()), pool.limitedSize, trials, left, alive.forever)
    ensures env.Here() == PointAfterPrices(env.ctx, old(env.Here()), old(pool.Now()), pool.limitedSize, trials)
    ensures pool.Now() == PricesAfter(env.ctx, old(env.Here()), old(pool.Now()), pool.limitedSize, trials)
    ensures env.txs == old(env.txs) + Successes(trials)
    ensures |trials| <= PriceHeads.SumLen(PriceListing(env.ctx, old(env.Here()), old(pool.Now()),
                                                       pool.limitedSize).offers)
  {
    hide *;
    var baseFee := env.ctx.header.baseFee;
    ghost var p, prices := env.Here(), pool.Now();
    ghost var q := PricePool.Query(env.checkedTxs, Some(baseFee), USIZE_MAX, pool.limitedSize);
    env.Unfold();
    pool.Unfold();
    PricePool.ListingOffers(prices, q);
    PricePool.ListingKeeps(prices, q);
    var result, filter := pool.List(env.checkedTxs, Some(baseFee), USIZE_MAX);
    env.MarkChecked(filter);
    pool.Unfold();
    PricePool.PoolMeans(pool.Now());
    OffersAreQueues(result, pool.pending, pool.caches, baseFee);
    var list := new PriceHeads.TransactionsByPriceAndNonce(result, baseFee, Cached(pool.caches));
    ghost var from := MarketOf(env, pool, list);
    MarketMeans(env, pool, list);
    trials := CommitPool(env, alive, pool, list, 20);
    left := list.queues;
    MarketMeans(env, pool, list);
    PhaseMade(env.ctx, p, prices, pool.limitedSize, from, trials, alive.forever, MarketOf(env, pool, list));
  }

  lemma PhaseMade(ctx: Context, p: Point, prices: PricePool.Snapshot, size: nat, from: Market, trials: seq<Trial>,
                  forever: bool, now: Market)
    requires var listing :=
             PricePool.ListingOf(prices, PricePool.Query(p.marks, Some(ctx.header.baseFee), USIZE_MAX, size));
             from.point == p.(marks := listing.marks) && from.queues == listing.offers && from.pool == listing.pool
    requires PriceMidway(ctx, from, trials, forever, now) && (forever ==> now.queues == map[] || Stopped(trials))
    ensures PricePhase(ctx, p, prices, size, trials, now.queues, forever)
    ensures now.point == PointAfterPrices(ctx, p, prices, size, trials)
    ensures now.pool == PricesAfter(ctx, p, prices, size, trials) && now.txs == from.txs + Successes(trials)
    ensures from.queues == PriceListing(ctx, p, prices, size).offers
  {
    hide Logged, Judged, PricePool.ListingOf, PointAfter, Successes, Removals, Attempts, Stopped;
  }

  /** Attempt `i` leaves the miner a greater tip than the next one, or the same with a greater
      hash, unless that is the same sender's next transaction. */
  ghost predicate GreedyAt(trials: seq<Trial>, baseFee: nat, i: nat)
    requires i + 1 < |trials|
  {
    var x, y := trials[i].tx, trials[i + 1].tx;
    var tip, other := Min(x.tipCap, x.feeCap - baseFee), Min(y.tipCap, y.feeCap - baseFee);
    && baseFee <= x.feeCap && baseFee <= y.feeCap
    && (y.sender == x.sender || tip > other || (tip == other && x.hash > y.hash))
  }

  /** What a price phase tries, for every sender and every attempt: each sender's attempts are a
      prefix of a run of its pending transactions, so without gaps in nonces; each attempt pays
      more than the one after it unless that is the same sender's next; a sender is tried again
      only after it got a transaction in or had one removed. */
  lemma PhaseIsGreedy(ctx: Context, p: Point, prices: PricePool.Snapshot, size: nat, trials: seq<Trial>,
                      left: Queues, forever: bool)
    requires PricePool.PoolOk(prices) && PricePhase(ctx, p, prices, size, trials, left, forever)
    ensures var offered, log := PriceListing(ctx, p, prices, size).offers, Attempts(trials);
            && PricePool.Offers(offered, prices.pending, Some(ctx.header.baseFee))
            && (forall a :: AttemptsOf(log, a) <= QueueOf(offered, a))
            && (forall a :: ConsecutiveNonces(AttemptsOf(log, a)))
    ensures forall i :: 0 <= i < |trials| - 1 ==> GreedyAt(trials, ctx.header.baseFee, i)
    ensures forall i, j :: 0 <= i < j < |trials| && trials[i].tx.sender == trials[j].tx.sender ==>
              trials[i].action.Success? || trials[i].action.RemoveTx?
  {
    var offered, baseFee := PriceListing(ctx, p, prices, size).offers, ctx.header.baseFee;
    hide PricePool.ListingOf, Judged, Logged, ConsecutiveNonces, PricePool.RunOf;
    PricePool.ListingOffers(prices, PricePool.Query(p.marks, Some(baseFee), USIZE_MAX, size));
    forall a | a in offered
      ensures ConsecutiveNonces(offered[a])
    {
      RunStarts(offered[a], prices.pending[a], baseFee);
    }
    hide PricePool.Offers;
    TrialsAreGreedy(offered, baseFee, trials, left);
  }

  lemma TrialsAreGreedy(offered: Queues, baseFee: nat, trials: seq<Trial>, left: Queues)
    requires Logged(offered, baseFee, Attempts(trials), left)
    requires forall a :: a in offered ==> ConsecutiveNonces(offered[a])
    ensures forall a :: AttemptsOf(Attempts(trials), a) <= QueueOf(offered, a)
    ensures forall a :: ConsecutiveNonces(AttemptsOf(Attempts(trials), a))
    ensures forall i :: 0 <= i < |trials| - 1 ==> GreedyAt(trials, baseFee, i)
    ensures forall i, j :: 0 <= i < j < |trials| && trials[i].tx.sender == trials[j].tx.sender ==>
              trials[i].action.Success? || trials[i].action.RemoveTx?
  {
    hide AttemptsOf, ConsecutiveNonces;
    var log := Attempts(trials);
    LogMeans(offered, baseFee, log, left);
    hide Logged;
    forall a
      ensures AttemptsOf(log, a) <= QueueOf(offered, a) && ConsecutiveNonces(AttemptsOf(log, a))
    {
      AttemptsArePrefix(offered, baseFee, log, left, a);
      AttemptsAreConsecutive(offered, baseFee, log, left, a);
    }
    forall i | 0 <= i < |trials| - 1
      ensures GreedyAt(trials, baseFee, i)
    {
      NeighboursAreGreedy(offered, baseFee, log, left, i);
    }
    forall i, j | 0 <= i < j < |trials| && trials[i].tx.sender == trials[j].tx.sender
      ensures trials[i].action.Success? || trials[i].action.RemoveTx?
    {
      MoveMeans(trials[i].action);
      if log[i].move.Drop? {
        DroppedIsFinal(offered, baseFee, log, left, i, j);
      }
    }
  }

  /** Nobody is passed over: without a deadline every offered transaction is tried, unless the
      gas ran out or a transaction of its sender was refused and kept. */
  lemma PhaseServesAll(ctx: Context, p: Point, prices: PricePool.Snapshot, size: nat, trials: seq<Trial>,
                       left: Queues, a: Address)
    requires PricePool.PoolOk(prices) && PricePhase(ctx, p, prices, size, trials, left, true) && !Stopped(trials)
    ensures || AttemptsOf(Attempts(trials), a) == QueueOf(PriceListing(ctx, p, prices, size).offers, a)
            || exists i :: 0 <= i < |trials| && trials[i].tx.sender == a
                           && (trials[i].action.Pop? || trials[i].action.MarkFail? || trials[i].action.Stop?)
  {
    hide *;
    var offered, baseFee, log := PriceListing(ctx, p, prices, size).offers, ctx.header.baseFee, Attempts(trials);
    PhaseMeans(ctx, p, prices, size, trials, left, true, a);
    StillRunning(trials, |trials|, a);
    assert log[..|trials|] == log;
    OfferPays(offered, a, baseFee);
    ServedOut(offered, baseFee, log, left, a);
    NothingLeft(left, a, AttemptsOf(log, a));
  }

  lemma OfferPays(offered: Queues, a: Address, baseFee: nat)
    requires a in offered ==> forall x :: x in offered[a] ==> baseFee <= x.feeCap
    ensures forall x :: x in QueueOf(offered, a) ==> baseFee <= x.feeCap
  {
  }

  lemma NothingLeft(left: Queues, a: Address, done: seq<Tx>)
    requires left == map[]
    ensures done + QueueOf(left, a) == done
  {
  }

  /** Every attempt is the best there is: it leaves the miner a greater tip than the next offered
      transaction `y` of every other sender that is still in the running, or the same with a
      greater hash. */
  lemma AttemptIsBest(ctx: Context, p: Point, prices: PricePool.Snapshot, size: nat, trials: seq<Trial>,
                      left: Queues, forever: bool, i: nat, a: Address, y: Tx)
    requires PricePool.PoolOk(prices) && PricePhase(ctx, p, prices, size, trials, left, forever)
    requires i < |trials| && a != trials[i].tx.sender && a in PriceListing(ctx, p, prices, size).offers
    requires forall j :: 0 <= j < i && trials[j].tx.sender == a ==>
               trials[j].action.Success? || trials[j].action.RemoveTx?
    requires var offer, done := PriceListing(ctx, p, prices, size).offers[a], AttemptsOf(Attempts(trials)[..i], a);
             |done| < |offer| && y == offer[|done|]
    ensures var x, baseFee := trials[i].tx, ctx.header.baseFee;
            var tip, other := Min(x.tipCap, x.feeCap - baseFee), Min(y.tipCap, y.feeCap - baseFee);
            tip > other || (tip == other && x.hash > y.hash)
  {
    hide *;
    var offered, baseFee, log := PriceListing(ctx, p, prices, size).offers, ctx.header.baseFee, Attempts(trials);
    PhaseMeans(ctx, p, prices, size, trials, left, forever, a);
    StillRunning(trials, i, a);
    EachIsBest(offered, baseFee, log, left, i, a, y);
  }

  lemma PhaseMeans(ctx: Context, p: Point, prices: PricePool.Snapshot, size: nat, trials: seq<Trial>,
                   left: Queues, forever: bool, a: Address)
    requires PricePool.PoolOk(prices) && PricePhase(ctx, p, prices, size, trials, left, forever)
    ensures var offered, baseFee := PriceListing(ctx, p, prices, size).offers, ctx.header.baseFee;
            && Live(offered, baseFee) && Run(offered, baseFee, Attempts(trials), left) && |Attempts(trials)| == |trials|
            && (a in offered ==> forall x :: x in offered[a] ==> baseFee <= x.feeCap)
            && (forever ==> left == map[] || Stopped(trials))
  {
    var offered, baseFee := PriceListing(ctx, p, prices, size).offers, ctx.header.baseFee;
    hide PricePool.ListingOf, Judged, Stopped, Run, Live, PricePool.RunOf;
    PricePool.ListingOffers(prices, PricePool.Query(p.marks, Some(baseFee), USIZE_MAX, size));
    if a in offered {
      RunPays(offered[a], prices.pending[a], baseFee);
    }
  }

  /** Only a refusal that keeps the transaction gives up on its sender. */
  lemma StillRunning(trials: seq<Trial>, i: nat, a: Address)
    requires i <= |trials|
    ensures |Attempts(trials)| == |trials| && forall j :: 0 <= j < |trials| ==> Attempts(trials)[j].tx == trials[j].tx
    ensures GivenUp(Attempts(trials)[..i], a) <==>
            exists j :: 0 <= j < i && trials[j].tx.sender == a
                        && (trials[j].action.Pop? || trials[j].action.MarkFail? || trials[j].action.Stop?)
  {
    var log := Attempts(trials)[..i];
    assert forall j :: 0 <= j < i ==> log[j] == Attempt(trials[j].tx, MoveOf(trials[j].action));
    if j :| 0 <= j < i && trials[j].tx.sender == a
            && (trials[j].action.Pop? || trials[j].action.MarkFail? || trials[j].action.Stop?) {
      assert log[j].tx.sender == a && log[j].move.Drop?;
    }
  }

  lemma RunPays(run: seq<Tx>, items: PricePool.Items, baseFee: nat)
    requires PricePool.RunOf(run, items, Some(baseFee))
    ensures forall x :: x in run ==> baseFee <= x.feeCap
  {
  }
}
