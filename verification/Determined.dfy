/** Without a deadline, what a fill tries and what comes of it is determined by the pools and the
    parent state. */
module Determined {
  import opened Chain
  import opened Evm
  import opened BlockReplay
  import opened BuildEnv
  import opened Trials
  import opened BundleFill
  import opened PoolFill
  import opened Builder
  import opened Merge
  import opened Ordered
  import BundlePool
  import PricePool

  // ---- the listed bundles ----

  lemma HasMember(t: seq<nat>)
    requires t != []
    ensures exists k :: k in t
  {
    assert t[0] in t;
  }

  lemma {:induction false} AscendingDetermined(s: seq<nat>, t: seq<nat>)
    requires Ascending(s) && Ascending(t) && forall k :: k in s <==> k in t
    ensures s == t
    decreases |s|
  {
    if s == [] {
      if t != [] {
        HasMember(t);
        assert false;
      }
    } else {
      SmallestFirst(s);
      assert t != [];
      SmallestFirst(t);
      assert s[0] == t[0];
      hide Ascending;
      AscendingDetermined(s[1..], t[1..]);
      assert s == [s[0]] + s[1..] && t == [t[0]] + t[1..];
    }
  }

  lemma SmallestFirst(s: seq<nat>)
    requires Ascending(s) && s != []
    ensures s[0] in s && (forall k :: k in s ==> s[0] <= k)
    ensures Ascending(s[1..]) && forall k :: k in s[1..] <==> k in s && k != s[0]
  {
    forall k
      ensures k in s[1..] <==> k in s && k != s[0]
    {
      if k in s[1..] {
        var i :| 0 <= i < |s[1..]| && s[1..][i] == k;
        assert s[i + 1] == k;
      }
    }
  }

  lemma ListedDetermined(l: seq<BundlePool.Bundle>, m: seq<BundlePool.Bundle>, pool: BundlePool.Bundles, header: Header)
    requires ListsActive(l, pool, header) && ListsActive(m, pool, header)
    ensures l == m
  {
    var s, t := BundlePool.Uuids(l), BundlePool.Uuids(m);
    hide BundlePool.Visible, BundlePool.Uuids;
    forall k
      ensures k in s <==> k in t
    {
      SameUuid(l, m, k);
      SameUuid(m, l, k);
    }
    AscendingDetermined(s, t);
    forall i | 0 <= i < |l|
      ensures l[i] == m[i]
    {
      assert l[i] in l && m[i] in m && s[i] == t[i];
    }
  }

  lemma SameUuid(l: seq<BundlePool.Bundle>, m: seq<BundlePool.Bundle>, k: nat)
    requires forall b :: b in l <==> b in m
    ensures k in BundlePool.Uuids(l) ==> k in BundlePool.Uuids(m)
  {
    if k in BundlePool.Uuids(l) {
      var i :| 0 <= i < |l| && BundlePool.Uuids(l)[i] == k;
      assert l[i] in m;
      var j :| 0 <= j < |m| && m[j] == l[i];
      assert BundlePool.Uuids(m)[j] == k;
    }
  }

  // ---- bundles ----

  /** A shorter record of one bundle cannot be complete. */
  lemma BundleNotShorter(ctx: Context, p: Point, txs: seq<PoolTx>, r: BundleStatus, ts: seq<Trial>, r': BundleStatus,
                         us: seq<Trial>)
    requires Judged(ctx, p, ts, true) && Explained(txs, r, ts) && Judged(ctx, p, us, true) && Explained(txs, r', us)
    ensures |ts| >= |us|
  {
    if |ts| < |us| {
      JudgedPrefix(ctx, p, us, true, |ts|);
      var cut := us[..|ts|];
      forall i | 0 <= i < |ts|
        ensures cut[i].tx == ts[i].tx && Passes(txs[i], us[i].action)
      {
        SamePlace(txs, r, ts, i);
        SamePlace(txs, r', us, i);
        assert us[..|us| - 1][i] == us[i];
      }
      OutcomesDetermined(ctx, p, ts, cut);
    }
  }

  lemma SamePlace(txs: seq<PoolTx>, r: BundleStatus, ts: seq<Trial>, i: nat)
    requires Explained(txs, r, ts) && i < |ts|
    ensures i < |txs| && ts[i].tx == txs[i].tx
  {
    if r.RevertedIn? && i < |ts| - 1 {
      assert ts[..|ts| - 1][i] == ts[i];
    }
  }

  lemma BundleDetermined(ctx: Context, p: Point, txs: seq<PoolTx>, r: BundleStatus, ts: seq<Trial>, r': BundleStatus,
                         us: seq<Trial>)
    requires Judged(ctx, p, ts, true) && Explained(txs, r, ts) && Judged(ctx, p, us, true) && Explained(txs, r', us)
    ensures r == r' && ts == us
  {
    BundleNotShorter(ctx, p, txs, r, ts, r', us);
    BundleNotShorter(ctx, p, txs, r', us, r, ts);
    forall i | 0 <= i < |ts|
      ensures ts[i].tx == us[i].tx
    {
      SamePlace(txs, r, ts, i);
      SamePlace(txs, r', us, i);
    }
    OutcomesDetermined(ctx, p, ts, us);
  }

  lemma {:induction false} BundlesJudgedPrefix(ctx: Context, p: Point, results: seq<BundleResult>,
                                               trials: seq<seq<Trial>>, n: nat)
    requires BundlesJudged(ctx, p, results, trials, true) && n <= |results|
    ensures |results| == |trials| && BundlesJudged(ctx, p, results[..n], trials[..n], true)
    ensures n < |results| ==> !StoppedIn(trials[..n])
    decreases |results|
  {
    if n == |results| {
      assert results[..n] == results && trials[..n] == trials;
    } else {
      var k := |results| - 1;
      LastJudged(ctx, p, results, trials);
      hide *;
      BundlesJudgedPrefix(ctx, p, results[..k], trials[..k], n);
      ShorterPrefix(results, k, n);
      ShorterPrefix(trials, k, n);
    }
  }

  lemma ShorterPrefix<T>(s: seq<T>, k: nat, n: nat)
    requires n <= k <= |s|
    ensures s[..k][..n] == s[..n]
  {
  }

  /** What the last result of a record stands on. */
  lemma LastJudged(ctx: Context, p: Point, results: seq<BundleResult>, trials: seq<seq<Trial>>)
    requires BundlesJudged(ctx, p, results, trials, true) && results != []
    ensures |results| == |trials|
    ensures var n := |results| - 1;
            && BundlesJudged(ctx, p, results[..n], trials[..n], true) && !StoppedIn(trials[..n])
            && Judged(ctx, PointAfterBundles(ctx, p, results[..n], trials[..n]), trials[n], true)
            && Explained(results[n].bundle.txs, results[n].status, trials[n])
  {
    hide Judged, Explained, PointAfterBundles, StoppedIn;
  }

  lemma {:induction false} BundlesDetermined(ctx: Context, p: Point, rs: seq<BundleResult>, ts: seq<seq<Trial>>,
                                             rs': seq<BundleResult>, us: seq<seq<Trial>>)
    requires BundlesJudged(ctx, p, rs, ts, true) && BundlesJudged(ctx, p, rs', us, true) && |rs| == |rs'|
    requires forall i :: 0 <= i < |rs| ==> rs[i].bundle == rs'[i].bundle
    ensures rs == rs' && ts == us
    decreases |rs|
  {
    if rs != [] {
      var k := |rs| - 1;
      LastJudged(ctx, p, rs, ts);
      LastJudged(ctx, p, rs', us);
      hide *;
      assert forall i :: 0 <= i < k ==> rs[..k][i] == rs[i] && rs'[..k][i] == rs'[i];
      BundlesDetermined(ctx, p, rs[..k], ts[..k], rs'[..k], us[..k]);
      BundleDetermined(ctx, PointAfterBundles(ctx, p, rs[..k], ts[..k]), rs[k].bundle.txs, rs[k].status, ts[k],
                       rs'[k].status, us[k]);
      LastOf(rs);
      LastOf(rs');
      LastOf(ts);
      LastOf(us);
    }
  }

  lemma LastOf<T>(s: seq<T>)
    requires s != []
    ensures s == s[..|s| - 1] + [s[|s| - 1]]
  {
  }

  lemma BundlesNotShorter(ctx: Context, p: Point, listed: seq<BundlePool.Bundle>, rs: seq<BundleResult>,
                          ts: seq<seq<Trial>>, rs': seq<BundleResult>, us: seq<seq<Trial>>)
    requires BundlePhase(ctx, p, listed, rs, ts, true) && BundlePhase(ctx, p, listed, rs', us, true)
    ensures |rs| >= |rs'|
  {
    if |rs| < |rs'| {
      BundlesJudgedPrefix(ctx, p, rs', us, |rs|);
      BundlesDetermined(ctx, p, rs, ts, rs'[..|rs|], us[..|rs|]);
      assert false;
    }
  }

  lemma BundlePhaseDetermined(ctx: Context, p: Point, listed: seq<BundlePool.Bundle>, rs: seq<BundleResult>,
                              ts: seq<seq<Trial>>, rs': seq<BundleResult>, us: seq<seq<Trial>>)
    requires BundlePhase(ctx, p, listed, rs, ts, true) && BundlePhase(ctx, p, listed, rs', us, true)
    ensures rs == rs' && ts == us && |rs| == |ts|
  {
    BundlesNotShorter(ctx, p, listed, rs, ts, rs', us);
    BundlesNotShorter(ctx, p, listed, rs', us, rs, ts);
    BundlesDetermined(ctx, p, rs, ts, rs', us);
  }

  // ---- the sequential pool ----

  lemma SequentialNotShorter(ctx: Context, p: Point, list: seq<Tx>, ts: seq<Trial>, us: seq<Trial>)
    requires Judged(ctx, p, ts, true) && Follows(ts, list) && Judged(ctx, p, us, true) && Follows(us, list)
    ensures |ts| >= |us|
  {
    if |ts| < |us| {
      JudgedPrefix(ctx, p, us, true, |ts|);
      OutcomesDetermined(ctx, p, ts, us[..|ts|]);
      assert false;
    }
  }

  lemma SequentialDetermined(ctx: Context, p: Point, list: seq<Tx>, ts: seq<Trial>, us: seq<Trial>)
    requires Judged(ctx, p, ts, true) && Follows(ts, list) && Judged(ctx, p, us, true) && Follows(us, list)
    ensures ts == us
  {
    SequentialNotShorter(ctx, p, list, ts, us);
    SequentialNotShorter(ctx, p, list, us, ts);
    OutcomesDetermined(ctx, p, ts, us);
  }

  // ---- the price pool ----

  lemma LeaderDetermined(q: Queues, baseFee: nat, x: Tx, y: Tx)
    requires Live(q, baseFee) && Leads(q, baseFee, x) && Leads(q, baseFee, y)
    ensures x == y
  {
  }

  lemma {:induction false} TrialsDetermined(ctx: Context, p: Point, q: Queues, ts: seq<Trial>, left: Queues,
                                            us: seq<Trial>, left': Queues, n: nat)
    requires Judged(ctx, p, ts, true) && Logged(q, ctx.header.baseFee, Attempts(ts), left)
    requires Judged(ctx, p, us, true) && Logged(q, ctx.header.baseFee, Attempts(us), left')
    requires n <= |ts| && n <= |us|
    ensures ts[..n] == us[..n]
  {
    if n > 0 {
      var k := n - 1;
      hide *;
      TrialsDetermined(ctx, p, q, ts, left, us, left', k);
      NextDetermined(q, ctx.header.baseFee, ts, left, us, left', k);
      JudgedPrefix(ctx, p, ts, true, k);
      JudgedPrefix(ctx, p, us, true, k);
      ActionDetermined(ctx, PointAfter(ctx, p, ts[..k]), ts[k], us[k]);
      LongerPrefix(ts, us, k);
    }
  }

  lemma LongerPrefix(ts: seq<Trial>, us: seq<Trial>, k: nat)
    requires k < |ts| && k < |us| && ts[..k] == us[..k] && ts[k] == us[k]
    ensures ts[..k + 1] == us[..k + 1]
  {
    assert ts[..k + 1] == ts[..k] + [ts[k]] && us[..k + 1] == us[..k] + [us[k]];
  }

  lemma ActionDetermined(ctx: Context, p: Point, t: Trial, u: Trial)
    requires Decided(ctx, t.tx, p, t.action, true) && Decided(ctx, u.tx, p, u.action, true) && t.tx == u.tx
    ensures t == u
  {
  }

  lemma AttemptsPrefix(ts: seq<Trial>, n: nat)
    requires n <= |ts|
    ensures |Attempts(ts)| == |ts| && Attempts(ts)[..n] == Attempts(ts[..n])
    ensures n < |ts| ==> Attempts(ts)[n].tx == ts[n].tx
  {
  }

  lemma NextDetermined(q: Queues, baseFee: nat, ts: seq<Trial>, left: Queues, us: seq<Trial>, left': Queues, n: nat)
    requires Logged(q, baseFee, Attempts(ts), left) && Logged(q, baseFee, Attempts(us), left')
    requires n < |ts| && n < |us| && ts[..n] == us[..n]
    ensures ts[n].tx == us[n].tx
  {
    LogMeans(q, baseFee, Attempts(ts), left);
    LogMeans(q, baseFee, Attempts(us), left');
    hide *;
    AttemptsPrefix(ts, n);
    AttemptsPrefix(us, n);
    RunReaches(q, baseFee, Attempts(ts), left, n);
    RunReaches(q, baseFee, Attempts(us), left', n);
    LeaderDetermined(QueuesAfter(q, baseFee, Attempts(ts[..n])), baseFee, ts[n].tx, us[n].tx);
  }

  lemma PriceNotShorter(ctx: Context, p: Point, q: Queues, ts: seq<Trial>, left: Queues, us: seq<Trial>, left': Queues)
    requires Judged(ctx, p, ts, true) && Logged(q, ctx.header.baseFee, Attempts(ts), left)
    requires left == map[] || Stopped(ts)
    requires Judged(ctx, p, us, true) && Logged(q, ctx.header.baseFee, Attempts(us), left')
    ensures |ts| >= |us|
  {
    if |ts| < |us| {
      var n, baseFee := |ts|, ctx.header.baseFee;
      TrialsDetermined(ctx, p, q, ts, left, us, left', n);
      assert us[..n] == ts;
      AttemptsPrefix(ts, n);
      AttemptsPrefix(us, n);
      JudgedPrefix(ctx, p, us, true, n);
      RunReaches(q, baseFee, Attempts(ts), left, n);
      RunReaches(q, baseFee, Attempts(us), left', n);
      assert false;
    }
  }

  lemma PriceDetermined(ctx: Context, p: Point, prices: PricePool.Snapshot, size: nat, ts: seq<Trial>, left: Queues,
                        us: seq<Trial>, left': Queues)
    requires PricePhase(ctx, p, prices, size, ts, left, true) && PricePhase(ctx, p, prices, size, us, left', true)
    ensures ts == us && left == left'
  {
    var listing := PriceListing(ctx, p, prices, size);
    var q, from := listing.offers, p.(marks := listing.marks);
    hide Logged, Judged, PriceListing, Attempts, Stopped;
    PriceNotShorter(ctx, from, q, ts, left, us, left');
    PriceNotShorter(ctx, from, q, us, left', ts, left);
    TrialsDetermined(ctx, from, q, ts, left, us, left', |ts|);
    assert ts[..|ts|] == ts && us[..|us|] == us;
    LeftDetermined(q, ctx.header.baseFee, Attempts(ts), left, left');
  }

  lemma LeftDetermined(q: Queues, baseFee: nat, log: seq<Attempt>, left: Queues, left': Queues)
    requires Logged(q, baseFee, log, left) && Logged(q, baseFee, log, left')
    ensures left == left'
  {
    RunReaches(q, baseFee, log, left, |log|);
    RunReaches(q, baseFee, log, left', |log|);
  }

  // ---- the whole fill ----

  /** Two fills without a deadline, from the same point and on the same pools, have the same record
      up to the payment, and leave the same pools: nothing listed or offered can be left out,
      reordered or decided otherwise. */
  lemma FillDetermined(o: Origin, o': Origin, ctx: Context, p: Point, pools: Pools, receipts: seq<Receipt>,
                       receipts': seq<Receipt>)
    requires InOrder(o, ctx, p, pools, receipts, true) && InOrder(o', ctx, p, pools, receipts', true)
    ensures o == o'.(tip := o.tip)
  {
    hide ListsActive, BundlePhase, Judged, Follows, PricePhase, Allowed, PointAfter, PointAfterBundles, SubmittedTxs;
    ListedDetermined(o.listed, o'.listed, pools.bundles, ctx.header);
    BundlePhaseDetermined(ctx, p, o.listed, o.bundles, o.bundleTrials, o'.bundles, o'.bundleTrials);
    SequentialDetermined(ctx, AfterBundles(o, ctx, p), pools.view, o.sequential, o'.sequential);
    PriceDetermined(ctx, AfterSequential(o, ctx, p), pools.prices, pools.size, o.attempts, o.left, o'.attempts,
                    o'.left);
  }
}
