/** Filling a block with bundles: each bundle goes in whole, or leaves no trace. */
module BundleFill {
  import opened Chain
  import opened Evm
  import opened BlockReplay
  import opened BuildEnv
  import opened Trials
  import BundlePool

  datatype BundleStatus = Submitted | RevertedIn(txHash: Hash)

  datatype BundleResult = BundleResult(bundle: BundlePool.Bundle, status: BundleStatus)

  /** The transactions of the submitted bundles, in order. */
  function SubmittedTxs(results: seq<BundleResult>): seq<PoolTx> {
    if results == [] then [] else
      var last := results[|results| - 1];
      SubmittedTxs(results[..|results| - 1]) + (if last.status.Submitted? then last.bundle.txs else [])
  }

  function TxsOf(list: seq<PoolTx>): (r: seq<Tx>)
    ensures |r| == |list| && forall i :: 0 <= i < |list| ==> r[i] == list[i].tx
  {
    seq(|list|, i requires 0 <= i < |list| => list[i].tx)
  }

  /** Each listed transaction succeeded or was allowed to revert; its receipt is at `from` on. */
  ghost predicate Allowed(list: seq<PoolTx>, receipts: seq<Receipt>, from: nat) {
    && from + |list| <= |receipts|
    && forall k :: 0 <= k < |list| ==> receipts[from + k].success || list[k].allowRevert
  }

  lemma AllowedJoin(a: seq<PoolTx>, b: seq<PoolTx>, receipts: seq<Receipt>, more: seq<Receipt>, from: nat)
    requires Allowed(a, receipts, from) && from + |a| == |receipts|
    requires receipts <= more && Allowed(b, more, |receipts|)
    ensures Allowed(a + b, more, from)
  {
    forall k | 0 <= k < |a + b|
      ensures more[from + k].success || (a + b)[k].allowRevert
    {
      if k < |a| {
        assert more[from + k] == receipts[from + k];
      } else {
        assert more[|receipts| + (k - |a|)].success || b[k - |a|].allowRevert;
      }
    }
  }

  lemma TxsOfJoin(a: seq<PoolTx>, b: seq<PoolTx>)
    ensures TxsOf(a + b) == TxsOf(a) + TxsOf(b)
  {
  }

  lemma SubmittedPush(results: seq<BundleResult>, r: BundleResult)
    ensures SubmittedTxs(results + [r]) ==
            if r.status.Submitted? then SubmittedTxs(results) + r.bundle.txs else SubmittedTxs(results)
  {
    assert (results + [r])[..|results|] == results;
  }

  // ---- one bundle ----

  /** The transaction ran, and succeeded or was allowed to revert. */
  predicate Passes(poolTx: PoolTx, action: CommitAction) {
    action.Success? && (poolTx.allowRevert || action.receipt.success)
  }

  /** The first transactions of a bundle were tried and all passed. */
  ghost predicate Passing(txs: seq<PoolTx>, trials: seq<Trial>) {
    && |trials| <= |txs|
    && forall i :: 0 <= i < |trials| ==> trials[i].tx == txs[i].tx && Passes(txs[i], trials[i].action)
  }

  /** Why a bundle has its status: all its transactions passed, or all passed up to the one
      that is named, which did not. */
  ghost predicate Explained(txs: seq<PoolTx>, status: BundleStatus, trials: seq<Trial>) {
    match status
    case Submitted => |trials| == |txs| && Passing(txs, trials)
    case RevertedIn(h) =>
      && 0 < |trials| <= |txs|
      && var k := |trials| - 1;
         && Passing(txs, trials[..k])
         && trials[k].tx == txs[k].tx && !Passes(txs[k], trials[k].action) && h == txs[k].tx.hash
  }

  /** In plain words: a submitted bundle's transactions all ran, and each succeeded or may revert;
      a reverted one names its first transaction that was refused, or that ran and reverted
      without leave. */
  lemma StatusForCause(txs: seq<PoolTx>, status: BundleStatus, trials: seq<Trial>)
    requires Explained(txs, status, trials)
    ensures |trials| <= |txs| && forall i :: 0 <= i < |trials| ==> trials[i].tx == txs[i].tx
    ensures forall i :: 0 <= i < (if status.Submitted? then |trials| else |trials| - 1) ==>
              trials[i].action.Success? && (trials[i].action.receipt.success || txs[i].allowRevert)
    ensures status.Submitted? ==> |trials| == |txs|
    ensures status.RevertedIn? ==>
              && trials != []
              && var k := |trials| - 1;
                 && status.txHash == txs[k].tx.hash
                 && (trials[k].action.Success? ==> !trials[k].action.receipt.success && !txs[k].allowRevert)
  {
    if status.RevertedIn? {
      var k := |trials| - 1;
      assert forall i :: 0 <= i < k ==> trials[..k][i] == trials[i];
    }
  }

  /** A bundle that was taken back leaves the build where it was, except that its trials stay
      marked, other than those that had run. */
  ghost function PointAfterBundle(ctx: Context, p: Point, status: BundleStatus, trials: seq<Trial>): Point {
    var last := PointAfter(ctx, p, trials);
    if status.Submitted? then last else p.(marks := last.marks - Hashes(Successes(trials)))
  }

  /** A bundle that was taken back moves nothing but marks: those of its trials that had run are
      erased, the others stay as tried. */
  lemma TakenBackMarks(ctx: Context, p: Point, h: Hash, trials: seq<Trial>, x: Hash)
    ensures var after, last := PointAfterBundle(ctx, p, RevertedIn(h), trials), PointAfter(ctx, p, trials);
            && after.world == p.world && after.gasPool == p.gasPool && after.count == p.count
              && after.gasUsed == p.gasUsed
            && (x in after.marks <==>
                  x in last.marks && forall i :: 0 <= i < |trials| && trials[i].tx.hash == x ==>
                    !trials[i].action.Success?)
            && (x in after.marks ==> after.marks[x] == last.marks[x])
  {
    hide PointAfter, Successes;
    if x in Hashes(Successes(trials)) {
      var tx :| tx in Successes(trials) && tx.hash == x;
      SuccessesIff(trials, tx);
    }
    forall i | 0 <= i < |trials| && trials[i].tx.hash == x && trials[i].action.Success?
      ensures x in Hashes(Successes(trials))
    {
      SuccessesIff(trials, trials[i].tx);
    }
  }

  /** A bundle's trials lead from one point to another. */
  ghost predicate BundleLed(ctx: Context, p: Point, txs: seq<PoolTx>, status: BundleStatus, trials: seq<Trial>,
                            forever: bool, p': Point) {
    Judged(ctx, p, trials, forever) && Explained(txs, status, trials) && p' == PointAfterBundle(ctx, p, status, trials)
  }

  lemma LedSubmitted(ctx: Context, p: Point, txs: seq<PoolTx>, trials: seq<Trial>, forever: bool, p': Point)
    requires Lead(ctx, p, trials, forever, p') && Passing(txs, trials) && |trials| == |txs|
    ensures BundleLed(ctx, p, txs, Submitted, trials, forever, p')
  {
  }

  lemma LedReverted(ctx: Context, p: Point, txs: seq<PoolTx>, h: Hash, trials: seq<Trial>, forever: bool, p': Point)
    requires Lead(ctx, p, trials, forever, p') && Explained(txs, RevertedIn(h), trials)
    ensures BundleLed(ctx, p, txs, RevertedIn(h), trials, forever, p.(marks := p'.marks - Hashes(Successes(trials))))
  {
  }

  /** Mid-bundle: all trials passed, and their transactions and receipts were appended. */
  ghost predicate Midway(list: seq<PoolTx>, trials: seq<Trial>, txs0: seq<Tx>, receipts0: seq<Receipt>, txs: seq<Tx>,
                         receipts: seq<Receipt>) {
    && Passing(list, trials) && Successes(trials) == TxsOf(list[..|trials|]) && txs == txs0 + Successes(trials)
    && receipts0 <= receipts && |receipts| == |receipts0| + |trials|
    && Allowed(list[..|trials|], receipts, |receipts0|)
  }

  lemma MidwayStart(list: seq<PoolTx>, txs: seq<Tx>, receipts: seq<Receipt>)
    ensures Midway(list, [], txs, receipts, txs, receipts)
  {
  }

  lemma MidwayPass(list: seq<PoolTx>, trials: seq<Trial>, txs0: seq<Tx>, receipts0: seq<Receipt>, txs: seq<Tx>,
                   receipts: seq<Receipt>, t: Trial)
    requires Midway(list, trials, txs0, receipts0, txs, receipts) && |trials| < |list|
    requires t.tx == list[|trials|].tx && Passes(list[|trials|], t.action)
    ensures Midway(list, trials + [t], txs0, receipts0, txs + [t.tx], receipts + [t.action.receipt])
  {
    var k := |trials|;
    PassingPush(list, trials, t);
    AllowedPush(list, k, receipts, t.action.receipt, |receipts0|);
    ListsPush(trials, t);
    hide Successes, Allowed, Passing;
    Associate(txs0, Successes(trials), [t.tx]);
  }

  lemma PassingPush(list: seq<PoolTx>, trials: seq<Trial>, t: Trial)
    requires Passing(list, trials) && |trials| < |list| && t.tx == list[|trials|].tx && Passes(list[|trials|], t.action)
    ensures Passing(list, trials + [t])
  {
  }

  lemma AllowedPush(list: seq<PoolTx>, k: nat, receipts: seq<Receipt>, r: Receipt, from: nat)
    requires k < |list| && Allowed(list[..k], receipts, from) && from + k == |receipts|
    requires r.success || list[k].allowRevert
    ensures Allowed(list[..k + 1], receipts + [r], from) && TxsOf(list[..k + 1]) == TxsOf(list[..k]) + [list[k].tx]
  {
    assert list[..k + 1] == list[..k] + [list[k]];
    AllowedJoin(list[..k], [list[k]], receipts, receipts + [r], from);
    hide Allowed;
    TxsOfJoin(list[..k], [list[k]]);
  }

  lemma FailExplained(list: seq<PoolTx>, trials: seq<Trial>, t: Trial)
    requires Passing(list, trials) && |trials| < |list| && t.tx == list[|trials|].tx
    requires !Passes(list[|trials|], t.action)
    ensures Explained(list, RevertedIn(t.tx.hash), trials + [t])
  {
    hide Passing;
    assert (trials + [t])[..|trials|] == trials;
  }

  lemma MidwayMeans(list: seq<PoolTx>, trials: seq<Trial>, txs0: seq<Tx>, receipts0: seq<Receipt>, txs: seq<Tx>,
                    receipts: seq<Receipt>)
    requires Midway(list, trials, txs0, receipts0, txs, receipts)
    ensures Passing(list, trials) && txs == txs0 + Successes(trials) && receipts == receipts0 + receipts[|receipts0|..]
  {
    hide Passing, Allowed, Successes, TxsOf;
  }

  lemma Cut<T>(a: seq<T>, b: seq<T>, c: seq<T>)
    requires c == a + b
    ensures |a| <= |c| && c[..|a|] == a && c[|a|..] == b
  {
  }

  /** What a failing transaction leaves to take back. */
  lemma MidwayFail(list: seq<PoolTx>, trials: seq<Trial>, txs0: seq<Tx>, receipts0: seq<Receipt>, txs: seq<Tx>,
                   receipts: seq<Receipt>,
                   t: Trial, txs': seq<Tx>, receipts': seq<Receipt>)
    requires Midway(list, trials, txs0, receipts0, txs, receipts) && |trials| < |list|
    requires t.tx == list[|trials|].tx && !Passes(list[|trials|], t.action)
    requires if t.action.Success? then txs' == txs + [t.tx] && receipts' == receipts + [t.action.receipt]
             else txs' == txs && receipts' == receipts
    ensures Explained(list, RevertedIn(t.tx.hash), trials + [t])
    ensures |txs0| <= |txs'| && txs'[..|txs0|] == txs0 && txs'[|txs0|..] == Successes(trials + [t])
    ensures |receipts0| <= |receipts'| && receipts'[..|receipts0|] == receipts0
  {
    hide *;
    MidwayMeans(list, trials, txs0, receipts0, txs, receipts);
    FailExplained(list, trials, t);
    ListsPush(trials, t);
    var late := receipts[|receipts0|..];
    if t.action.Success? {
      Associate(txs0, Successes(trials), [t.tx]);
      Associate(receipts0, late, [t.action.receipt]);
      Cut(receipts0, late + [t.action.receipt], receipts');
    } else {
      Cut(receipts0, late, receipts');
    }
    Cut(txs0, Successes(trials + [t]), txs');
  }

  lemma MidwayDone(list: seq<PoolTx>, trials: seq<Trial>, txs0: seq<Tx>, receipts0: seq<Receipt>, txs: seq<Tx>,
                   receipts: seq<Receipt>)
    requires Midway(list, trials, txs0, receipts0, txs, receipts) && |trials| == |list|
    ensures Passing(list, trials) && txs == txs0 + TxsOf(list) && receipts0 <= receipts
    ensures Allowed(list, receipts, |receipts0|)
  {
    assert list[..|trials|] == list;
  }

  /** Commits a bundle's transactions one by one. The first that is refused, or that reverts
      without leave, takes the whole bundle back: state, transactions, receipts and gas. */
  method TryBundle(env: Environment, alive: Alive, bundle: BundlePool.Bundle)
    returns (status: BundleStatus, stop: bool, ghost trials: seq<Trial>)
    requires env.Valid() && env.state.flushed == env.state.world
    modifies env, env.state
    ensures env.Valid() && env.state.flushed == env.state.world
    ensures env.Capacity() == old(env.Capacity()) && env.minerBalance == old(env.minerBalance)
    ensures BundleLed(env.ctx, old(env.Here()), bundle.txs, status, trials, alive.forever, env.Here())
    ensures stop == Stopped(trials)
    ensures status.Submitted? ==>
              && env.txs == old(env.txs) + TxsOf(bundle.txs)
              && old(env.receipts) <= env.receipts && Allowed(bundle.txs, env.receipts, |old(env.receipts)|)
    ensures status.RevertedIn? ==>
              && env.txs == old(env.txs) && env.receipts == old(env.receipts)
              && env.state.world == old(env.state.world)
              && env.gasPool == old(env.gasPool) && env.gasUsed == old(env.gasUsed)
  {
    hide *;
    var root := env.state.flushed;
    var startCount := |env.txs|;
    ghost var txs0, receipts0, start := env.txs, env.receipts, env.Here();
    trials := [];
    env.Unfold();
    FaithfulLength(env.ctx, env.parent, env.txs, env.state.world, env.receipts);
    LeadStart(env.ctx, start, alive.forever);
    MidwayStart(bundle.txs, env.txs, env.receipts);
    var idx := 0;
    while idx < |bundle.txs|
      invariant idx <= |bundle.txs| && env.Valid() && env.state.flushed == root
      invariant env.Capacity() == old(env.Capacity()) && env.minerBalance == old(env.minerBalance)
      invariant |trials| == idx && Midway(bundle.txs, trials, txs0, receipts0, env.txs, env.receipts)
      invariant Lead(env.ctx, start, trials, alive.forever, env.Here()) && !Stopped(trials)
    {
      var poolTx := bundle.txs[idx];
      ghost var here, txs, receipts := env.Here(), env.txs, env.receipts;
      var action := env.CommitTransaction(alive, poolTx.tx);
      ghost var t := Trial(poolTx.tx, action);
      LeadPush(env.ctx, start, trials, alive.forever, here, t);
      PassesMeans(poolTx, action);
      if action.Success? && (poolTx.allowRevert || action.receipt.success) {
        MidwayPass(bundle.txs, trials, txs0, receipts0, txs, receipts, t);
        env.Remark(poolTx.tx.hash);
        idx, trials := idx + 1, trials + [t];
        continue;
      }
      MidwayFail(bundle.txs, trials, txs0, receipts0, txs, receipts, t, env.txs, env.receipts);
      trials := trials + [t];
      LedReverted(env.ctx, start, bundle.txs, poolTx.tx.hash, trials, alive.forever, env.Here());
      env.Unfold();
      env.Rollback(root, startCount);
      env.Unfold();
      return RevertedIn(poolTx.tx.hash), action.Stop?, trials;
    }
    MidwayDone(bundle.txs, trials, txs0, receipts0, env.txs, env.receipts);
    LedSubmitted(env.ctx, start, bundle.txs, trials, alive.forever, env.Here());
    env.FlushState();
    env.Unfold();
    status, stop := Submitted, false;
  }

  lemma PassesMeans(poolTx: PoolTx, action: CommitAction)
    ensures Passes(poolTx, action) == (action.Success? && (poolTx.allowRevert || action.receipt.success))
  {
  }

  // ---- all bundles ----

  lemma NoneYet(receipts: seq<Receipt>)
    ensures Allowed([], receipts, |receipts|)
  {
  }

  /** Bundle atomicity: the results are about a prefix of the listed bundles, the transactions
      added are the in-order concatenation of exactly the submitted ones, and each of these
      succeeded or was allowed to revert. */
  ghost predicate Atomic(listed: seq<BundlePool.Bundle>, results: seq<BundleResult>,
                         txs0: seq<Tx>, receipts0: seq<Receipt>, txs: seq<Tx>, receipts: seq<Receipt>) {
    && |results| <= |listed| && (forall i :: 0 <= i < |results| ==> results[i].bundle == listed[i])
    && txs == txs0 + TxsOf(SubmittedTxs(results))
    && receipts0 <= receipts && |receipts| == |receipts0| + |SubmittedTxs(results)|
    && Allowed(SubmittedTxs(results), receipts, |receipts0|)
  }

  lemma AtomicStart(listed: seq<BundlePool.Bundle>, txs: seq<Tx>, receipts: seq<Receipt>)
    ensures Atomic(listed, [], txs, receipts, txs, receipts)
  {
    NoneYet(receipts);
  }

  lemma AtomicStep(listed: seq<BundlePool.Bundle>, results: seq<BundleResult>, status: BundleStatus, txs0: seq<Tx>,
                   receipts0: seq<Receipt>,
                   txs: seq<Tx>, receipts: seq<Receipt>, txs': seq<Tx>, receipts': seq<Receipt>)
    requires Atomic(listed, results, txs0, receipts0, txs, receipts) && |results| < |listed|
    requires var bundle := listed[|results|];
             if status.Submitted?
             then txs' == txs + TxsOf(bundle.txs) && receipts <= receipts' && |receipts'| == |receipts| + |bundle.txs|
                  && Allowed(bundle.txs, receipts', |receipts|)
             else txs' == txs && receipts' == receipts
    ensures Atomic(listed, results + [BundleResult(listed[|results|], status)], txs0, receipts0, txs', receipts')
  {
    hide Allowed;
    var bundle, done := listed[|results|], SubmittedTxs(results);
    SubmittedPush(results, BundleResult(bundle, status));
    hide SubmittedTxs;
    if status.Submitted? {
      TxsOfJoin(done, bundle.txs);
      Associate(txs0, TxsOf(done), TxsOf(bundle.txs));
      AllowedJoin(done, bundle.txs, receipts, receipts', |receipts0|);
    }
  }

  /** Where the build stands after these bundles. */
  ghost function PointAfterBundles(ctx: Context, p: Point, results: seq<BundleResult>, trials: seq<seq<Trial>>): Point
    requires |results| == |trials|
  {
    if results == [] then p else
      var n := |results| - 1;
      PointAfterBundle(ctx, PointAfterBundles(ctx, p, results[..n], trials[..n]), results[n].status, trials[n])
  }

  ghost predicate StoppedIn(trials: seq<seq<Trial>>) { trials != [] && Stopped(trials[|trials| - 1]) }

  /** Each bundle was tried where those before it left the build, has the status its trials
      explain, and none was tried after a stop. */
  ghost predicate BundlesJudged(ctx: Context, p: Point, results: seq<BundleResult>, trials: seq<seq<Trial>>,
                                forever: bool) {
    && |results| == |trials|
    && (results == [] ||
        var n := |results| - 1;
        && BundlesJudged(ctx, p, results[..n], trials[..n], forever) && !StoppedIn(trials[..n])
        && Judged(ctx, PointAfterBundles(ctx, p, results[..n], trials[..n]), trials[n], forever)
        && Explained(results[n].bundle.txs, results[n].status, trials[n]))
  }

  ghost predicate BundlesLed(ctx: Context, p: Point, results: seq<BundleResult>, trials: seq<seq<Trial>>,
                             forever: bool, p': Point) {
    BundlesJudged(ctx, p, results, trials, forever) && p' == PointAfterBundles(ctx, p, results, trials)
  }

  lemma BundlesStart(ctx: Context, p: Point, forever: bool)
    ensures BundlesLed(ctx, p, [], [], forever, p) && !StoppedIn([])
  {
  }

  lemma BundlesPush(ctx: Context, p: Point, results: seq<BundleResult>, trials: seq<seq<Trial>>, forever: bool,
                    p': Point, r: BundleResult, ts: seq<Trial>, p'': Point)
    requires BundlesLed(ctx, p, results, trials, forever, p') && !StoppedIn(trials)
    requires BundleLed(ctx, p', r.bundle.txs, r.status, ts, forever, p'')
    ensures BundlesLed(ctx, p, results + [r], trials + [ts], forever, p'') && StoppedIn(trials + [ts]) == Stopped(ts)
  {
    hide Judged, Explained, PointAfterBundle, Stopped;
    assert (results + [r])[..|results|] == results && (trials + [ts])[..|trials|] == trials;
  }

  /** Goes through the listed bundles until the deadline or a stop: without a deadline, every
      listed bundle has its result unless the last one stopped. */
  method FillBundles(env: Environment, alive: Alive, listed: seq<BundlePool.Bundle>)
    returns (results: seq<BundleResult>, ghost trials: seq<seq<Trial>>)
    requires env.Valid() && env.state.flushed == env.state.world
    modifies env, env.state
    ensures env.Valid() && env.state.flushed == env.state.world
    ensures env.Capacity() == old(env.Capacity()) && env.minerBalance == old(env.minerBalance)
    ensures Atomic(listed, results, old(env.txs), old(env.receipts), env.txs, env.receipts)
    ensures BundlesLed(env.ctx, old(env.Here()), results, trials, alive.forever, env.Here())
    ensures |results| == |listed| || !alive.forever || StoppedIn(trials)
  {
    hide Faithful, GasSum, Allowed, Atomic, BundlesLed, BundleLed, StoppedIn, Stopped;
    results, trials := [], [];
    AtomicStart(listed, env.txs, env.receipts);
    ghost var start := env.Here();
    BundlesStart(env.ctx, start, alive.forever);
    var i := 0;
    while i < |listed|
      invariant i == |results| <= |listed| && env.Valid() && env.state.flushed == env.state.world
      invariant env.Capacity() == old(env.Capacity()) && env.minerBalance == old(env.minerBalance)
      invariant Atomic(listed, results, old(env.txs), old(env.receipts), env.txs, env.receipts)
      invariant BundlesLed(env.ctx, start, results, trials, alive.forever, env.Here()) && !StoppedIn(trials)
    {
      var ok := alive.IsAlive();
      if !ok {
        break;
      }
      var bundle := listed[i];
      ghost var txs, receipts, here := env.txs, env.receipts, env.Here();
      FaithfulLength(env.ctx, env.parent, env.txs, env.state.world, env.receipts);
      var status, stop, ts := TryBundle(env, alive, bundle);
      FaithfulLength(env.ctx, env.parent, env.txs, env.state.world, env.receipts);
      AtomicStep(listed, results, status, old(env.txs), old(env.receipts), txs, receipts, env.txs, env.receipts);
      var result := BundleResult(bundle, status);
      BundlesPush(env.ctx, start, results, trials, alive.forever, here, result, ts, env.Here());
      results, trials := results + [result], trials + [ts];
      i := i + 1;
      if stop {
        break;
      }
    }
  }
}
