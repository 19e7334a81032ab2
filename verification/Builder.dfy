/** Building a block: fill bundles, the sequential pool and the price pool, pay the proposer,
    credit withdrawals. */
module Builder {
  import opened Chain
  import opened World
  import opened Evm
  import opened Executor
  import opened BlockReplay
  import opened BuildEnv
  import opened Trials
  import opened BundleFill
  import opened PoolFill
  import BundlePool
  import Merge
  import Ordered
  import PricePool
  import SeqPool
  import TxList

  // ---- tips ----

  datatype TipsRule = TipsRule(start: nat, numIncrement: nat, maxNumIncrement: nat, blocksIncrement: nat,
                               maxBlocksIncrement: nat)

  datatype TipsStrategy = TipsStrategy(max: nat, bundle: Option<TipsRule>, internal: Option<TipsRule>,
                                       normal: Option<TipsRule>)

  function Greatest(list: seq<nat>): (m: nat)
    requires list != []
    ensures m in list && forall x :: x in list ==> x <= m
  {
    if |list| == 1 then list[0] else
      var m := Greatest(list[..|list| - 1]);
      assert list == list[..|list| - 1] + [list[|list| - 1]];
      Max(m, list[|list| - 1])
  }

  /** What the strategy adds to the measured reward, never more than its maximum. */
  function Extra(s: TipsStrategy, internals: seq<nat>, bundles: nat): nat {
    var bundle := if s.bundle.Some? && bundles > 0 then s.bundle.value.start else 0;
    var internal :=
      if s.internal.Some? && internals != [] then
        s.internal.value.start
        + Min(|internals| * s.internal.value.numIncrement, s.internal.value.maxNumIncrement)
        + Min(Greatest(internals) * s.internal.value.blocksIncrement, s.internal.value.maxBlocksIncrement)
      else 0;
    var normal := if s.normal.Some? then s.normal.value.start else 0;
    Min(Max(Max(internal, bundle), normal), s.max)
  }

  function GetTips(s: TipsStrategy, reward: nat, internals: seq<nat>, bundles: nat): (amount: nat)
    ensures reward <= amount <= reward + s.max
  {
    reward + Extra(s, internals, bundles)
  }

  /** One more private transaction or bundle never lowers what is paid. */
  lemma MoreWorkNeverPaysLess(s: TipsStrategy, reward: nat, internals: seq<nat>, live: nat, bundles: nat)
    ensures GetTips(s, reward, internals, bundles) <= GetTips(s, reward, internals + [live], bundles)
    ensures GetTips(s, reward, internals, bundles) <= GetTips(s, reward, internals, bundles + 1)
  {
    if internals != [] && s.internal.Some? {
      var rule, more := s.internal.value, internals + [live];
      assert Greatest(internals) in more;
      ProductMonotone(|internals|, |more|, rule.numIncrement);
      ProductMonotone(Greatest(internals), Greatest(more), rule.blocksIncrement);
    }
  }

  /** The payment in numbers. `longest` is the longest a private transaction waited. What is added
      to the reward is the greatest of what bundles, private transactions and an ordinary block
      are worth, or the maximum if that is less. */
  lemma TipsInNumbers(s: TipsStrategy, reward: nat, internals: seq<nat>, bundles: nat, longest: nat)
    requires internals != [] ==> longest in internals && forall x :: x in internals ==> x <= longest
    ensures var extra := GetTips(s, reward, internals, bundles) - reward;
            var forBundles := if s.bundle.Some? && bundles > 0 then s.bundle.value.start else 0;
            var forOrdinary := if s.normal.Some? then s.normal.value.start else 0;
            var forPrivate :=
              if s.internal.None? || internals == [] then 0 else
                var rule := s.internal.value;
                rule.start + Min(|internals| * rule.numIncrement, rule.maxNumIncrement)
                           + Min(longest * rule.blocksIncrement, rule.maxBlocksIncrement);
            && (extra == s.max || (extra >= forBundles && extra >= forOrdinary && extra >= forPrivate))
            && (extra == forBundles || extra == forOrdinary || extra == forPrivate
                || (extra == s.max && (s.max < forBundles || s.max < forOrdinary || s.max < forPrivate)))
            && extra <= s.max
  {
    if internals != [] {
      assert Greatest(internals) == longest;
    }
    hide Greatest;
  }

  // ---- profit ----

  datatype BuildError = NoTx | FeeTooLow | SendTipsFail(action: CommitAction) | InternalError

  datatype Result<+T> = Ok(value: T) | Err(error: BuildError)

  /** The miner's tips on the first `n` transactions. */
  ghost function TipsPaid(txs: seq<Tx>, receipts: seq<Receipt>, baseFee: nat, n: nat): nat
    requires n <= |txs| && n <= |receipts|
    requires forall i :: 0 <= i < n ==> baseFee <= txs[i].feeCap
  {
    if n == 0 then 0 else
      TipsPaid(txs, receipts, baseFee, n - 1) + receipts[n - 1].gasUsed * MinerTip(txs[n - 1], baseFee)
  }

  lemma TipsStep(txs: seq<Tx>, receipts: seq<Receipt>, baseFee: nat, n: nat)
    requires n < |txs| && n < |receipts| && forall i :: 0 <= i <= n ==> baseFee <= txs[i].feeCap
    ensures EffectiveGasTip(txs[n], Some(baseFee)).Some?
    ensures TipsPaid(txs, receipts, baseFee, n + 1)
         == TipsPaid(txs, receipts, baseFee, n) + receipts[n].gasUsed * EffectiveGasTip(txs[n], Some(baseFee)).value
  {
  }

  /** Each transaction adds its gas times the smaller of its priority fee and what its fee cap
      leaves over the base fee. */
  lemma TipsStepInNumbers(txs: seq<Tx>, receipts: seq<Receipt>, baseFee: nat, n: nat)
    requires n < |txs| && n < |receipts| && forall i :: 0 <= i <= n ==> baseFee <= txs[i].feeCap
    ensures TipsPaid(txs, receipts, baseFee, n + 1) - TipsPaid(txs, receipts, baseFee, n)
         == receipts[n].gasUsed * Min(txs[n].tipCap, txs[n].feeCap - baseFee)
  {
  }

  /** Every included transaction could pay, so its tip is defined. */
  lemma IncludedCanPay(ctx: Context, parent: World, txs: seq<Tx>, w: World, receipts: seq<Receipt>)
    requires Sound(ctx) && Faithful(ctx, parent, txs, w, receipts)
    ensures |receipts| == |txs| && forall i :: 0 <= i < |txs| ==> ctx.header.baseFee <= txs[i].feeCap
  {
    FaithfulLength(ctx, parent, txs, w, receipts);
    forall i | 0 <= i < |txs|
      ensures ctx.header.baseFee <= txs[i].feeCap
    {
      ReceiptAt(StepOf(ctx), parent, txs, i);
      var before := Replay(StepOf(ctx), parent, txs[..i]).world;
      assert StepOf(ctx)(txs[i], before) == Execute(ctx, txs[i], before);
      RunWithinLimit(ctx, txs[i], before);
    }
  }

  /** The measured reward of a block: tips earned, but no more than the miner's balance grew over
      what was noted. */
  ghost function RewardOf(ctx: Context, parent: World, txs: seq<Tx>, noted: nat): nat
    requires Sound(ctx) && Replay(StepOf(ctx), parent, txs).Built?
  {
    var r := Replay(StepOf(ctx), parent, txs);
    IncludedCanPay(ctx, parent, txs, r.world, r.receipts);
    Min(TipsPaid(txs, r.receipts, ctx.header.baseFee, |txs|), Max(0, Balance(r.world, ctx.header.miner) - noted))
  }

  lemma RewardMeans(ctx: Context, parent: World, txs: seq<Tx>, w: World, receipts: seq<Receipt>, noted: nat)
    requires Sound(ctx) && Faithful(ctx, parent, txs, w, receipts)
    ensures |receipts| == |txs| && forall i :: 0 <= i < |txs| ==> ctx.header.baseFee <= txs[i].feeCap
    ensures Replay(StepOf(ctx), parent, txs).Built?
    ensures RewardOf(ctx, parent, txs, noted) ==
            Min(TipsPaid(txs, receipts, ctx.header.baseFee, |txs|), Max(0, Balance(w, ctx.header.miner) - noted))
    ensures RewardOf(ctx, parent, txs, noted) <= Max(0, Balance(w, ctx.header.miner) - noted)
  {
    IncludedCanPay(ctx, parent, txs, w, receipts);
    hide Sound, TipsPaid;
  }

  /** The reward of a valid environment. */
  ghost function Reward(env: Environment): nat
    requires env.Valid()
    reads env, env.state
  {
    RewardOf(env.ctx, env.parent, env.txs, env.minerBalance)
  }

  /** The tips earned, transaction by transaction. The two internal errors cannot occur. */
  method SumTips(txs: seq<Tx>, receipts: seq<Receipt>, baseFee: nat) returns (r: Result<nat>)
    requires |receipts| == |txs| && forall i :: 0 <= i < |txs| ==> baseFee <= txs[i].feeCap
    ensures r == Ok(TipsPaid(txs, receipts, baseFee, |txs|))
  {
    var total, idx := 0, 0;
    assert TipsPaid(txs, receipts, baseFee, 0) == 0;
    hide TipsPaid;
    while idx < |txs|
      invariant idx <= |txs| && total == TipsPaid(txs, receipts, baseFee, idx)
    {
      TipsStep(txs, receipts, baseFee, idx);
      if idx >= |receipts| {
        return Err(InternalError);
      }
      var tip := EffectiveGasTip(txs[idx], Some(baseFee));
      if tip.None? {
        return Err(InternalError);
      }
      total := total + receipts[idx].gasUsed * tip.value;
      idx := idx + 1;
    }
    r := Ok(total);
  }

  /** The measured reward. */
  method CalculateProfit(env: Environment) returns (r: Result<nat>)
    requires env.Valid()
    ensures r == Ok(Reward(env))
  {
    hide Faithful, Sound, GasSum, RewardOf, Reward, TipsPaid, Balance, BuildEnv.Environment.Valid;
    env.Unfold();
    RewardMeans(env.ctx, env.parent, env.txs, env.state.world, env.receipts, env.minerBalance);
    RewardHere(env);
    var current := Balance(env.state.world, env.ctx.header.miner);
    var changed := if current >= env.minerBalance then current - env.minerBalance else 0;
    var tips := SumTips(env.txs, env.receipts, env.ctx.header.baseFee);
    match tips {
      case Err(e) =>
        r := Err(e);
      case Ok(total) =>
        r := Ok(Min(total, changed));
    }
  }

  /** A transaction of somebody else leaves a key-owned miner at least its tip, and exactly that if
      it reverted. */
  lemma MinerTipped(ctx: Context, tx: Tx, w: World)
    requires Sound(ctx) && Execute(ctx, tx, w).Ran? && ctx.header.miner in ctx.eoas && ctx.header.miner != tx.sender
    ensures ctx.header.baseFee <= tx.feeCap
    ensures var r, miner := Execute(ctx, tx, w), ctx.header.miner;
            var tip := r.usedGas * Min(tx.tipCap, tx.feeCap - ctx.header.baseFee);
            && Balance(r.world, miner) >= Balance(w, miner) + tip
            && (!r.success ==> Balance(r.world, miner) == Balance(w, miner) + tip)
  {
    var miner := ctx.header.miner;
    var bought, exit, written := Stages(ctx, tx, w);
    BoughtBalance(ctx, tx, w, miner);
    WrittenEffect(ctx, tx, bought, miner);
    SettledBalance(ctx, tx, written, exit.usedGas, miner);
    FeesInNumbers(ctx, tx);
    if !exit.success {
      RevertedRun(ctx, tx, w, miner);
    }
    hide Sound, Execute, Settled, Bought, Tip, Price, Written;
  }

  /** The tips are real: over any valid block without transactions of its own, a key-owned miner
      earns at least the tips paid, and exactly these if every transaction reverted. */
  lemma {:induction false} MinerEarns(ctx: Context, parent: World, txs: seq<Tx>, receipts: seq<Receipt>, n: nat)
    requires Sound(ctx) && ctx.header.miner in ctx.eoas && n <= |txs| == |receipts|
    requires Replay(StepOf(ctx), parent, txs).Built? && receipts == Replay(StepOf(ctx), parent, txs).receipts
    requires forall i :: 0 <= i < |txs| ==> txs[i].sender != ctx.header.miner && ctx.header.baseFee <= txs[i].feeCap
    ensures Replay(StepOf(ctx), parent, txs[..n]).Built?
    ensures var earned :=
            Balance(Replay(StepOf(ctx), parent, txs[..n]).world, ctx.header.miner) - Balance(parent, ctx.header.miner);
            && earned >= TipsPaid(txs, receipts, ctx.header.baseFee, n)
            && ((forall i :: 0 <= i < n ==> !receipts[i].success) ==>
                earned == TipsPaid(txs, receipts, ctx.header.baseFee, n))
  {
    hide *;
    if n == 0 {
      NothingEarned(ctx, parent, txs, receipts);
    } else {
      var k := n - 1;
      MinerEarns(ctx, parent, txs, receipts, k);
      PrefixRuns(ctx, parent, txs, k);
      MinerTipped(ctx, txs[k], Replay(StepOf(ctx), parent, txs[..k]).world);
      TipsStepInNumbers(txs, receipts, ctx.header.baseFee, k);
    }
  }

  lemma NothingEarned(ctx: Context, parent: World, txs: seq<Tx>, receipts: seq<Receipt>)
    ensures Replay(StepOf(ctx), parent, txs[..0]) == Built(parent, [])
    ensures TipsPaid(txs, receipts, ctx.header.baseFee, 0) == 0
  {
  }

  /** How transaction `k` of a valid block ran. */
  lemma PrefixRuns(ctx: Context, parent: World, txs: seq<Tx>, k: nat)
    requires Replay(StepOf(ctx), parent, txs).Built? && k < |txs|
    ensures var before, after, receipts :=
            Replay(StepOf(ctx), parent, txs[..k]), Replay(StepOf(ctx), parent, txs[..k + 1]),
                                           Replay(StepOf(ctx), parent, txs).receipts;
            && before.Built? && after.Built? && |receipts| == |txs|
            && var run := Execute(ctx, txs[k], before.world);
               run.Ran? && after.world == run.world && receipts[k].gasUsed == run.usedGas
                 && receipts[k].success == run.success
  {
    hide *;
    ReceiptAt(StepOf(ctx), parent, txs, k);
    StepMeans(ctx, txs[k], Replay(StepOf(ctx), parent, txs[..k]).world);
    assert txs[..k + 1] == txs[..k] + [txs[k]];
    ReplayPush(StepOf(ctx), parent, txs[..k], txs[k]);
    ExtendMeans(Replay(StepOf(ctx), parent, txs[..k]), txs[k],
                Execute(ctx, txs[k], Replay(StepOf(ctx), parent, txs[..k]).world));
  }

  lemma StepMeans(ctx: Context, tx: Tx, w: World)
    ensures StepOf(ctx)(tx, w) == Execute(ctx, tx, w)
  {
  }

  lemma ExtendMeans(before: Replayed, tx: Tx, run: Outcome)
    requires before.Built? && run.Ran?
    ensures Extend(before, tx, run).Built? && Extend(before, tx, run).world == run.world
  {
  }

  /** So the cap on the reward does not bite: it is the tips paid. */
  lemma RewardIsTips(ctx: Context, parent: World, txs: seq<Tx>)
    requires Sound(ctx) && ctx.header.miner in ctx.eoas && Replay(StepOf(ctx), parent, txs).Built?
    requires forall i :: 0 <= i < |txs| ==> txs[i].sender != ctx.header.miner
    ensures var receipts := Replay(StepOf(ctx), parent, txs).receipts;
            && |receipts| == |txs| && (forall i :: 0 <= i < |txs| ==> ctx.header.baseFee <= txs[i].feeCap)
            && RewardOf(ctx, parent, txs, Balance(parent, ctx.header.miner))
               == TipsPaid(txs, receipts, ctx.header.baseFee, |txs|)
  {
    var r := Replay(StepOf(ctx), parent, txs);
    RewardMeans(ctx, parent, txs, r.world, r.receipts, Balance(parent, ctx.header.miner));
    MinerEarns(ctx, parent, txs, r.receipts, |txs|);
    assert txs[..|txs|] == txs;
    hide Sound, RewardOf, TipsPaid, Replay;
  }

  // ---- paying the proposer ----

  /** A payment of `amount`, fee included, by the payer to the recipient. */
  function TipTx(ctx: Context, payer: Address, recipient: Address, w: World, hash: Hash, gas: nat, amount: nat): Tx
    requires ctx.header.baseFee * gas <= amount
  {
    Tx(hash, payer, Nonce(w, payer), gas, ctx.header.baseFee, ctx.header.baseFee, Some(recipient),
       amount - ctx.header.baseFee * gas, [])
  }

  lemma Commute(a: nat, b: nat)
    ensures a * b == b * a
  {
  }

  /** The payment costs the payer at most `amount`. */
  lemma TipCost(ctx: Context, payer: Address, recipient: Address, w: World, hash: Hash, gas: nat, amount: nat)
    requires Sound(ctx) && payer in ctx.eoas && ctx.header.baseFee * gas <= amount
    requires Execute(ctx, TipTx(ctx, payer, recipient, w, hash, gas, amount), w).Ran?
    ensures var run := Execute(ctx, TipTx(ctx, payer, recipient, w, hash, gas, amount), w);
            Balance(w, payer) <= Balance(run.world, payer) + amount
  {
    var tx := TipTx(ctx, payer, recipient, w, hash, gas, amount);
    assert Price(ctx, tx) == ctx.header.baseFee && tx.gasLimit == gas && tx.sender == payer;
    assert tx.value == amount - ctx.header.baseFee * gas;
    hide *;
    var used := Execute(ctx, tx, w).usedGas;
    RunWithinLimit(ctx, tx, w);
    EoaEffect(ctx, tx, w, payer);
    ProductMonotone(used, gas, ctx.header.baseFee);
    Commute(gas, ctx.header.baseFee);
  }

  /** The nonce is the payer's and the base fee is met, so with gas to spare only missing funds
      or the interpreter can refuse the payment. */
  lemma TipVerdict(ctx: Context, payer: Address, recipient: Address, hash: Hash, gas: nat, amount: nat, p: Point)
    requires ctx.header.baseFee * gas <= amount && gas <= TIP_RESERVE <= p.gasPool
    ensures var v := Verdict(ctx, TipTx(ctx, payer, recipient, p.world, hash, gas, amount), p);
            || v.Success?
            || (v == MarkFail(ExecFailed(InsufficientFunds)) && Balance(p.world, payer) < amount)
            || v == RemoveTx
    ensures var tx := TipTx(ctx, payer, recipient, p.world, hash, gas, amount);
            Verdict(ctx, tx, p) == RemoveTx ==>
              Affords(tx, p.world) && ctx.evm(ctx.header, tx, Bought(ctx, tx, p.world)).NotSupported?
  {
    assert gas * ctx.header.baseFee == ctx.header.baseFee * gas;
    VerdictIff(ctx, TipTx(ctx, payer, recipient, p.world, hash, gas, amount), p);
  }

  /** Sends the payment out of the gas kept in reserve. Without wrap-around it is never stopped
      or popped for lack of block gas. */
  method SendTip(env: Environment, payer: Address, recipient: Address, gas: nat, amount: nat)
    returns (action: CommitAction, ghost tx: Tx)
    requires env.Valid() && env.ctx.header.baseFee * gas <= amount && gas <= TIP_RESERVE
    modifies env, env.state
    ensures env.Valid() && env.minerBalance == old(env.minerBalance)
    ensures tx == Tx(tx.hash, payer, Nonce(old(env.state.world), payer), gas, env.ctx.header.baseFee,
                     env.ctx.header.baseFee,
                     Some(recipient), amount - env.ctx.header.baseFee * gas, [])
    ensures env.txs == old(env.txs) + if action.Success? then [tx] else []
    ensures action.Success? ==> env.receipts == old(env.receipts) + [action.receipt]
    ensures old(env.gasPool) + TIP_RESERVE < TWO_64 ==>
              env.Capacity() == old(env.Capacity()) + TIP_RESERVE
                && TipRefusal(action, Balance(old(env.state.world), payer), amount)
    ensures action.Success? && payer in env.ctx.eoas ==>
            Balance(old(env.state.world), payer) <= Balance(env.state.world, payer) + amount
  {
    hide *;
    var hash: Hash := *;
    ghost var w := env.state.world;
    var payment := TipTx(env.ctx, payer, recipient, env.state.world, hash, gas, amount);
    tx := payment;
    TipTxMeans(env.ctx, payer, recipient, w, hash, gas, amount);
    env.Unfold();
    AddFits(env.gasPool, TIP_RESERVE);
    env.ReleaseReserve();
    env.Unfold();
    var alive := new Alive(true);
    if env.gasPool >= TIP_RESERVE {
      TipVerdict(env.ctx, payer, recipient, hash, gas, amount, env.Here());
    }
    ghost var here := env.Here();
    action := env.CommitTransaction(alive, payment);
    TipDecided(env.ctx, payment, here, action, Balance(w, payer), amount);
    if action.Success? && payer in env.ctx.eoas {
      TipCost(env.ctx, payer, recipient, w, hash, gas, amount);
    }
  }

  lemma TipTxMeans(ctx: Context, payer: Address, recipient: Address, w: World, hash: Hash, gas: nat, amount: nat)
    requires ctx.header.baseFee * gas <= amount
    ensures TipTx(ctx, payer, recipient, w, hash, gas, amount) ==
            Tx(hash, payer, Nonce(w, payer), gas, ctx.header.baseFee, ctx.header.baseFee, Some(recipient),
               amount - ctx.header.baseFee * gas, [])
  {
  }

  lemma AddFits(a: nat, b: nat)
    ensures a + b < TWO_64 ==> Add64(a, b) == a + b
  {
  }

  lemma TipDecided(ctx: Context, tx: Tx, p: Point, action: CommitAction, balance: nat, amount: nat)
    requires Decided(ctx, tx, p, action, true)
    ensures var v := Verdict(ctx, tx, p);
            v.Success? || (v == MarkFail(ExecFailed(InsufficientFunds)) && balance < amount) || v == RemoveTx ==>
              TipRefusal(action, balance, amount)
  {
    hide Verdict;
  }

  /** How a payment can end: it runs, the payer cannot fund it, or the interpreter will not do
      it. */
  predicate TipRefusal(action: CommitAction, balance: nat, amount: nat) {
    action.Success? || (action == MarkFail(ExecFailed(InsufficientFunds)) && balance < amount) || action == RemoveTx
  }

  /** The gas set aside for a payment: more if the recipient has code. */
  function TipGas(w: World, recipient: Address): (gas: nat)
    ensures gas <= TIP_RESERVE
  {
    if |Get(w, recipient).code| == 0 then 21000 else 32000
  }

  lemma TipGasInNumbers(w: World, recipient: Address)
    ensures |Get(w, recipient).code| == 0 ==> TipGas(w, recipient) == 21000
    ensures |Get(w, recipient).code| > 0 ==> TipGas(w, recipient) == 32000
  {
  }

  /** Pays the proposer from the payer's account. */
  method FillTips(env: Environment, payer: Address, strategy: TipsStrategy, internals: seq<nat>, bundles: nat)
    returns (r: Result<nat>, ghost tip: seq<Tx>)
    requires env.Valid()
    modifies env, env.state
    ensures env.Valid() && env.minerBalance == old(env.minerBalance) && env.txs == old(env.txs) + tip
    ensures r.Err? ==> r.error.FeeTooLow? || r.error.SendTipsFail?
    // the outcomes
    ensures r.Ok? && env.tipsRecipient.None? ==> tip == [] && r.value == 0 && env.state.world == old(env.state.world)
    ensures r.Err? ==> env.tipsRecipient.Some?
    ensures env.tipsRecipient.Some? ==>
              var amount := GetTips(strategy, old(Reward(env)), internals, bundles);
              var fee := env.ctx.header.baseFee * TipGas(old(env.state.world), env.tipsRecipient.value);
              && (r == Err(FeeTooLow) <==> amount < fee)
              && (r.Ok? ==>
                    && r.value == amount - fee && |tip| == 1
                    && tip[0] == Tx(tip[0].hash, payer, Nonce(old(env.state.world), payer),
                                    TipGas(old(env.state.world), env.tipsRecipient.value),
                                    env.ctx.header.baseFee, env.ctx.header.baseFee, env.tipsRecipient, r.value, [])
                    && exists receipt :: env.receipts == old(env.receipts) + [receipt] && receipt.success)
              && (r.Err? ==> |tip| == if r.error.SendTipsFail? && r.error.action.Success? then 1 else 0)
              && (r.Err? && r.error.SendTipsFail? ==> !PaidOut(r.error.action))
              && (r.Err? && r.error.SendTipsFail? && old(env.gasPool) + TIP_RESERVE < TWO_64 ==>
                    TipRefusal(r.error.action, Balance(old(env.state.world), payer), amount))
    // gas
    ensures old(env.gasPool) + TIP_RESERVE < TWO_64 ==> env.Capacity() <= old(env.Capacity()) + TIP_RESERVE
    ensures old(env.gasPool) + TIP_RESERVE < TWO_64 && r.Ok? ==>
              env.Capacity() == old(env.Capacity()) + if env.tipsRecipient.Some? then TIP_RESERVE else 0
    // bounded spend when the builder is its own miner
    ensures r.Ok? ==> r.value <= old(Reward(env)) + strategy.max
    ensures r.Ok? && env.ctx.header.miner == payer && payer in env.ctx.eoas ==>
              Balance(env.state.world, payer) + strategy.max >=
                Min(env.minerBalance, Balance(old(env.state.world), payer))
  {
    hide *;
    tip := [];
    ghost var w := env.state.world;
    env.Unfold();
    RewardMeans(env.ctx, env.parent, env.txs, w, env.receipts, env.minerBalance);
    RewardHere(env);
    var measured := CalculateProfit(env);
    var reward;
    match measured {
      case Err(e) =>
        return Err(e), tip;
      case Ok(value) =>
        reward := value;
    }
    if env.tipsRecipient.None? {
      SpendNothing(env.minerBalance, Balance(w, payer), strategy.max);
      return Ok(0), tip;
    }
    var recipient := env.tipsRecipient.value;
    var gas := TipGas(env.state.world, recipient);
    var amount := GetTips(strategy, reward, internals, bundles);
    var fee := env.ctx.header.baseFee * gas;
    if amount < fee {
      return Err(FeeTooLow), tip;
    }
    var action, tx := SendTip(env, payer, recipient, gas, amount);
    tip := if action.Success? then [tx] else [];
    PaidOutMeans(action);
    if action.Success? && action.receipt.success {
      r := Ok(amount - fee);
      if env.ctx.header.miner == payer && payer in env.ctx.eoas {
        SpendAtMost(env.minerBalance, Balance(w, payer), Balance(env.state.world, payer), reward, amount, strategy.max);
      }
    } else {
      r := Err(SendTipsFail(action));
    }
  }

  lemma RewardHere(env: Environment)
    requires env.Valid()
    ensures Sound(env.ctx) && Replay(StepOf(env.ctx), env.parent, env.txs).Built?
    ensures Reward(env) == RewardOf(env.ctx, env.parent, env.txs, env.minerBalance)
  {
    hide RewardOf, Sound;
  }

  lemma SpendNothing(noted: nat, balance: nat, max: nat)
    ensures balance + max >= Min(noted, balance)
  {
  }

  lemma SpendAtMost(noted: nat, before: nat, after: nat, reward: nat, amount: nat, max: nat)
    requires reward <= Max(0, before - noted) && amount <= reward + max && before <= after + amount
    ensures after + max >= Min(noted, before)
  {
  }

  lemma PaidOutMeans(action: CommitAction)
    ensures PaidOut(action) == (action.Success? && action.receipt.success)
  {
  }

  predicate PaidOut(action: CommitAction) { action.Success? && action.receipt.success }

  /** The payment ran and reverted, could not be funded, or is not supported. */
  predicate TipFailed(action: CommitAction) {
    !PaidOut(action) && (action.Success? || action == MarkFail(ExecFailed(InsufficientFunds)) || action == RemoveTx)
  }

  // ---- the whole build ----

  datatype FillResult = FillResult(bundles: seq<BundleResult>, internals: seq<nat>, profit: nat)

  /** What the pools hold when a build starts. */
  datatype Pools = Pools(bundles: BundlePool.Bundles, view: seq<Tx>, prices: PricePool.Snapshot, size: nat)

  /** The record of a fill: what was listed, everything that was tried, and the payment. */
  datatype Origin = Origin(
    listed: seq<BundlePool.Bundle>, bundles: seq<BundleResult>, bundleTrials: seq<seq<Trial>>,
    sequential: seq<Trial>,
    attempts: seq<Trial>, left: Merge.Queues,
    tip: seq<Tx>)

  ghost function Parts(o: Origin): seq<Tx> {
    TxsOf(SubmittedTxs(o.bundles)) + Successes(o.sequential) + Successes(o.attempts) + o.tip
  }

  /** The state that executing `txs` on the parent state leaves. */
  ghost function StateAfter(ctx: Context, parent: World, txs: seq<Tx>): World {
    var r := Replay(StepOf(ctx), parent, txs);
    if r.Built? then r.world else parent
  }

  lemma FaithfulState(ctx: Context, parent: World, txs: seq<Tx>, w: World, receipts: seq<Receipt>)
    requires Faithful(ctx, parent, txs, w, receipts)
    ensures StateAfter(ctx, parent, txs) == w
  {
  }

  /** Where a fill starts: on the parent state, with the reserve kept back. */
  ghost function Opening(ctx: Context, parent: World, marks: map<Hash, bool>): Point {
    Point(parent, Sub64(ctx.header.gasLimit, TIP_RESERVE), 0, 0, marks)
  }

  /** The active bundles of the pool, in uuid order. */
  ghost predicate ListsActive(listed: seq<BundlePool.Bundle>, pool: BundlePool.Bundles, header: Header) {
    && Ordered.Ascending(BundlePool.Uuids(listed))
    && forall b :: b in listed <==>
      b.uuid in BundlePool.Visible(pool, header.number, header.timestamp) && pool[b.uuid] == b
  }

  /** In numbers: exactly the pool's bundles for the header's block number whose times allow its
      timestamp. */
  lemma ListedIff(listed: seq<BundlePool.Bundle>, pool: BundlePool.Bundles, header: Header, b: BundlePool.Bundle)
    requires ListsActive(listed, pool, header)
    ensures b in listed <==>
            && b.uuid in pool && pool[b.uuid] == b && b.blockNumber == header.number
            && (b.minTimestamp.Some? ==> b.minTimestamp.value <= header.timestamp)
            && (b.maxTimestamp.Some? ==> header.timestamp <= b.maxTimestamp.value)
  {
    BundlePool.VisibleIff(pool, header.number, header.timestamp, b.uuid);
    hide BundlePool.Visible;
  }

  /** The bundle phase: a prefix of the listed bundles was tried, all of them unless the deadline
      or a stop came, each with the status its trials explain. */
  ghost predicate BundlePhase(ctx: Context, p: Point, listed: seq<BundlePool.Bundle>, results: seq<BundleResult>,
                              trials: seq<seq<Trial>>, forever: bool) {
    && |results| <= |listed| && (forall i :: 0 <= i < |results| ==> results[i].bundle == listed[i])
    && BundlesJudged(ctx, p, results, trials, forever)
    && (|results| == |listed| || !forever || StoppedIn(trials))
  }

  /** Where the build stands after the bundles, and after the sequential pool. */
  ghost function AfterBundles(o: Origin, ctx: Context, p: Point): Point
    requires |o.bundles| == |o.bundleTrials|
  {
    PointAfterBundles(ctx, p, o.bundles, o.bundleTrials)
  }

  ghost function AfterSequential(o: Origin, ctx: Context, p: Point): Point
    requires |o.bundles| == |o.bundleTrials|
  {
    PointAfter(ctx, AfterBundles(o, ctx, p), o.sequential)
  }

  /** The whole fill, traced back to the pools: every phase takes what its pool lists or offers,
      in its order, and every outcome is the one due where the build then stood. */
  ghost predicate InOrder(o: Origin, ctx: Context, p: Point, pools: Pools, receipts: seq<Receipt>, forever: bool) {
    && ListsActive(o.listed, pools.bundles, ctx.header)
    && BundlePhase(ctx, p, o.listed, o.bundles, o.bundleTrials, forever)
    && Allowed(SubmittedTxs(o.bundles), receipts, 0)
    && Judged(ctx, AfterBundles(o, ctx, p), o.sequential, forever) && Follows(o.sequential, pools.view)
    && PricePhase(ctx, AfterSequential(o, ctx, p), pools.prices, pools.size, o.attempts, o.left, forever)
  }

  /** What the pools hold after a fill with this record. */
  ghost function PoolsAfter(o: Origin, ctx: Context, p: Point, pools: Pools): Pools
    requires |o.bundles| == |o.bundleTrials|
  {
    Pools(BundlePool.Purge(pools.bundles, ctx.header.number, ctx.header.timestamp),
          TxList.Filter(pools.view, SeqPool.NotAmong(Removals(o.sequential))),
          PricesAfter(ctx, AfterSequential(o, ctx, p), pools.prices, pools.size, o.attempts),
          pools.size)
  }

  lemma RecordIsComplete(o: Origin, ctx: Context, p: Point, pools: Pools, receipts: seq<Receipt>, forever: bool)
    requires InOrder(o, ctx, p, pools, receipts, forever)
    ensures |o.bundles| == |o.bundleTrials|
  {
  }

  lemma JoinParts(o: Origin, ctx: Context, p: Point, pools: Pools, forever: bool, p1: Point, p2: Point,
                  txs1: seq<Tx>, receipts1: seq<Receipt>, txs: seq<Tx>, receipts: seq<Receipt>)
    requires ListsActive(o.listed, pools.bundles, ctx.header)
    requires Atomic(o.listed, o.bundles, [], [], txs1, receipts1) && receipts1 <= receipts
    requires BundlesLed(ctx, p, o.bundles, o.bundleTrials, forever, p1)
    requires |o.bundles| == |o.listed| || !forever || StoppedIn(o.bundleTrials)
    requires Lead(ctx, p1, o.sequential, forever, p2) && Follows(o.sequential, pools.view)
    requires PricePhase(ctx, p2, pools.prices, pools.size, o.attempts, o.left, forever)
    requires txs == txs1 + Successes(o.sequential) + Successes(o.attempts) + o.tip
    ensures txs == Parts(o) && InOrder(o, ctx, p, pools, receipts, forever)
    ensures |o.bundles| == |o.bundleTrials| && AfterSequential(o, ctx, p) == p2
  {
    hide Successes, SubmittedTxs, TxsOf, Follows, PricePhase, ListsActive, Judged, PointAfter, PointAfterBundles,
      StoppedIn;
    assert [] + TxsOf(SubmittedTxs(o.bundles)) == TxsOf(SubmittedTxs(o.bundles));
  }

  /** Receipts of an initial part of a valid block stay its receipts. */
  lemma FaithfulPrefix(ctx: Context, parent: World, txs1: seq<Tx>, w1: World, receipts1: seq<Receipt>, txs: seq<Tx>,
                       w: World, receipts: seq<Receipt>)
    requires Faithful(ctx, parent, txs1, w1, receipts1) && Faithful(ctx, parent, txs, w, receipts) && txs1 <= txs
    ensures receipts1 <= receipts
  {
    assert txs[..|txs1|] == txs1;
    ReplayPrefix(StepOf(ctx), parent, txs, |txs1|);
  }

  ghost function PoolsNow(bundlePool: BundlePool.BundlePool, seqPool: SeqPool.SeqPoolList,
                          pricePool: PricePool.PricePool): Pools
    requires seqPool.Valid()
    reads bundlePool, seqPool, pricePool
  {
    Pools(bundlePool.uuid, seqPool.View(), pricePool.Now(), pricePool.limitedSize)
  }

  /** The three pool phases, in order. */
  method FillFromPools(env: Environment, alive: Alive, bundlePool: BundlePool.BundlePool,
                       seqPool: SeqPool.SeqPoolList, pricePool: PricePool.PricePool)
    returns (results: seq<BundleResult>, internals: seq<nat>, ghost origin: Origin)
    requires env.Valid() && env.txs == [] && env.receipts == [] && env.state.flushed == env.state.world
    requires bundlePool.Valid() && seqPool.Valid() && pricePool.Valid()
    modifies env, env.state, bundlePool, seqPool, pricePool
    ensures env.Valid() && bundlePool.Valid() && seqPool.Valid() && pricePool.Valid()
    ensures env.Capacity() == old(env.Capacity()) && env.minerBalance == old(env.minerBalance)
    ensures env.txs == Parts(origin) && results == origin.bundles && origin.tip == []
    ensures InOrder(origin, env.ctx, old(env.Here()), old(PoolsNow(bundlePool, seqPool, pricePool)), env.receipts,
                    alive.forever)
    ensures |origin.bundles| == |origin.bundleTrials|
    ensures PoolsNow(bundlePool, seqPool, pricePool)
         == PoolsAfter(origin, env.ctx, old(env.Here()), old(PoolsNow(bundlePool, seqPool, pricePool)))
  {
    hide *;
    ghost var pools, p := PoolsNow(bundlePool, seqPool, pricePool), env.Here();
    PoolsMeans(bundlePool, seqPool, pricePool);
    var listed := bundlePool.List(env.ctx.header.number, env.ctx.header.timestamp);
    ListedIsActive(listed, pools.bundles, env.ctx.header);
    ghost var bundleTrials;
    results, bundleTrials := FillBundles(env, alive, listed);
    env.Unfold();
    ghost var txs1, receipts1, w1, p1 := env.txs, env.receipts, env.state.world, env.Here();
    ghost var sequential;
    internals, sequential := FillSeq(env, alive, seqPool);
    ghost var p2 := env.Here();
    var attempts, left := FillPrice(env, alive, pricePool);
    env.Unfold();
    origin := Origin(listed, results, bundleTrials, sequential, attempts, left, []);
    AddedInOrder(txs1, sequential, attempts, env.txs);
    FaithfulPrefix(env.ctx, env.parent, txs1, w1, receipts1, env.txs, env.state.world, env.receipts);
    JoinParts(origin, env.ctx, p, pools, alive.forever, p1, p2, txs1, receipts1, env.txs, env.receipts);
    PoolsMeans(bundlePool, seqPool, pricePool);
    PoolsAfterMeans(origin, env.ctx, p, pools, p2);
  }

  lemma AddedInOrder(txs1: seq<Tx>, sequential: seq<Trial>, attempts: seq<Trial>, txs: seq<Tx>)
    requires txs == txs1 + Successes(sequential) + Successes(attempts)
    ensures txs1 <= txs && txs == txs1 + Successes(sequential) + Successes(attempts) + []
  {
    Associate(txs1, Successes(sequential), Successes(attempts));
    hide Successes;
  }

  lemma PoolsMeans(bundlePool: BundlePool.BundlePool, seqPool: SeqPool.SeqPoolList, pricePool: PricePool.PricePool)
    requires seqPool.Valid()
    ensures PoolsNow(bundlePool, seqPool, pricePool) ==
            Pools(bundlePool.uuid, seqPool.View(), pricePool.Now(), pricePool.limitedSize)
  {
  }

  lemma PoolsAfterMeans(o: Origin, ctx: Context, p: Point, pools: Pools, p2: Point)
    requires |o.bundles| == |o.bundleTrials| && AfterSequential(o, ctx, p) == p2
    ensures PoolsAfter(o, ctx, p, pools) ==
            Pools(BundlePool.Step(pools.bundles, BundlePool.ListOp(ctx.header.number, ctx.header.timestamp)),
                  TxList.Filter(pools.view, SeqPool.NotAmong(Removals(o.sequential))),
                  PricesAfter(ctx, p2, pools.prices, pools.size, o.attempts), pools.size)
  {
    hide BundlePool.Purge, TxList.Filter, SeqPool.NotAmong, PricesAfter, AfterSequential, Removals;
  }

  /** A payment leaves the record of the pool phases as it is. */
  lemma PaymentAdded(o: Origin, ctx: Context, p: Point, pools: Pools, receipts: seq<Receipt>, forever: bool,
                     tip: seq<Tx>, receipts': seq<Receipt>)
    requires InOrder(o, ctx, p, pools, receipts, forever) && o.tip == [] && receipts <= receipts'
    ensures InOrder(o.(tip := tip), ctx, p, pools, receipts', forever) && Parts(o.(tip := tip)) == Parts(o) + tip
    ensures |o.bundles| == |o.bundleTrials| && PoolsAfter(o.(tip := tip), ctx, p, pools) == PoolsAfter(o, ctx, p, pools)
  {
    RecordIsComplete(o, ctx, p, pools, receipts, forever);
    PartsWithTip(o, tip);
    SameRecord(o, o.(tip := tip), ctx, p, pools, receipts, forever, receipts');
  }

  lemma PartsWithTip(o: Origin, tip: seq<Tx>)
    requires o.tip == []
    ensures Parts(o.(tip := tip)) == Parts(o) + tip
  {
    hide Successes, SubmittedTxs, TxsOf;
  }

  lemma AllowedLater(list: seq<PoolTx>, receipts: seq<Receipt>, receipts': seq<Receipt>)
    requires Allowed(list, receipts, 0) && receipts <= receipts'
    ensures Allowed(list, receipts', 0)
  {
  }

  lemma SameRecord(o: Origin, o': Origin, ctx: Context, p: Point, pools: Pools, receipts: seq<Receipt>,
                   forever: bool, receipts': seq<Receipt>)
    requires InOrder(o, ctx, p, pools, receipts, forever) && o' == o.(tip := o'.tip) && receipts <= receipts'
    requires |o.bundles| == |o.bundleTrials|
    ensures InOrder(o', ctx, p, pools, receipts', forever)
    ensures PoolsAfter(o', ctx, p, pools) == PoolsAfter(o, ctx, p, pools)
  {
    hide SubmittedTxs, Allowed, Follows, PricePhase, ListsActive, Judged, BundlePhase, PointAfter, PointAfterBundles,
         BundlePool.Purge, TxList.Filter, SeqPool.NotAmong, PricesAfter, Removals;
    AllowedLater(SubmittedTxs(o.bundles), receipts, receipts');
  }

  /** The profit that is reported after the transactions `txs`: the value of the payment, which
      is what the strategy makes of their measured reward, less the fee. */
  ghost predicate Reported(ctx: Context, parent: World, recipient: Option<Address>, txs: seq<Tx>, tip: seq<Tx>,
                           result: FillResult, strategy: TipsStrategy) {
    && Sound(ctx) && Replay(StepOf(ctx), parent, txs).Built?
    && if recipient.None? then tip == [] && result.profit == 0 else
         var reward := RewardOf(ctx, parent, txs, Balance(parent, ctx.header.miner));
         var fee := ctx.header.baseFee * TipGas(StateAfter(ctx, parent, txs), recipient.value);
         && |tip| == 1 && tip[0].to == recipient
         && result.profit == tip[0].value == GetTips(strategy, reward, result.internals, |result.bundles|) - fee
  }

  /** So it never exceeds the measured reward by more than the strategy's maximum. */
  lemma ProfitBounded(ctx: Context, parent: World, recipient: Option<Address>, txs: seq<Tx>, tip: seq<Tx>,
                      result: FillResult, strategy: TipsStrategy)
    requires Reported(ctx, parent, recipient, txs, tip, result, strategy)
    ensures result.profit <= RewardOf(ctx, parent, txs, Balance(parent, ctx.header.miner)) + strategy.max
  {
    hide RewardOf, TipGas, StateAfter, Sound, Replay;
  }

  /** Fills the block. Whatever mix of successes, refusals, reverted bundles and stops occurs,
      the environment stays a faithful replay of its transactions, which are the submitted
      bundles, then the sequential pool's, then the price pool's, then the payment. */
  method FillTransactions(env: Environment, alive: Alive, bundlePool: BundlePool.BundlePool,
                          seqPool: SeqPool.SeqPoolList,
                          pricePool: PricePool.PricePool, payer: Address, strategy: TipsStrategy)
    returns (r: Result<FillResult>, ghost origin: Origin)
    requires env.Valid() && env.txs == [] && env.receipts == [] && env.gasUsed == 0
    requires env.state.flushed == env.state.world == env.parent
    requires bundlePool.Valid() && seqPool.Valid() && pricePool.Valid() && env.ctx.header.gasLimit < TWO_64
    modifies env, env.state, bundlePool, seqPool, pricePool
    ensures env.Valid() && bundlePool.Valid() && seqPool.Valid() && pricePool.Valid()
    // where the transactions come from, and what the pools keep
    ensures env.txs == Parts(origin) && |origin.bundles| == |origin.bundleTrials|
    ensures InOrder(origin, env.ctx, Opening(env.ctx, env.parent, old(env.checkedTxs)),
                    old(PoolsNow(bundlePool, seqPool, pricePool)),
                    env.receipts, alive.forever)
    ensures PoolsNow(bundlePool, seqPool, pricePool)
         == PoolsAfter(origin, env.ctx, Opening(env.ctx, env.parent, old(env.checkedTxs)),
                       old(PoolsNow(bundlePool, seqPool, pricePool)))
    // the outcomes
    ensures r == Err(NoTx) <==> env.txs == []
    ensures r.Ok? ==> r.value.bundles == origin.bundles && |origin.tip| <= |env.txs|
                      && Reported(env.ctx, env.parent, env.tipsRecipient, env.txs[..|env.txs| - |origin.tip|],
                                  origin.tip, r.value, strategy)
    ensures r.Err? ==> r.error.NoTx? || (env.tipsRecipient.Some? && (r.error.FeeTooLow? || r.error.SendTipsFail?))
    ensures r.Err? && r.error.SendTipsFail? && TIP_RESERVE <= env.ctx.header.gasLimit ==> TipFailed(r.error.action)
    // gas
    ensures TIP_RESERVE <= env.ctx.header.gasLimit ==> env.Capacity() <= env.ctx.header.gasLimit
    ensures TIP_RESERVE <= env.ctx.header.gasLimit && r.Ok? ==>
              env.Capacity() == env.ctx.header.gasLimit - if env.tipsRecipient.Some? then 0 else TIP_RESERVE
    // bounded spend
    ensures r.Ok? ==> SpendBounded(env.ctx, env.parent, env.txs, |env.txs| - |origin.tip|, env.state.world, payer,
                                   strategy)
  {
    hide *;
    ghost var pools, marks := PoolsNow(bundlePool, seqPool, pricePool), env.checkedTxs;
    env.Open();
    ReserveFits(env.ctx.header.gasLimit);
    env.Unfold();
    ghost var p := env.Here();
    OpeningMeans(env.ctx, env.parent, marks);
    var results, internals;
    results, internals, origin := FillFromPools(env, alive, bundlePool, seqPool, pricePool);
    env.Unfold();
    ghost var txs, receipts, w, tip := env.txs, env.receipts, env.state.world, [];
    FaithfulState(env.ctx, env.parent, txs, w, receipts);
    if |env.txs| == 0 {
      r := Err(NoTx);
      PaymentAdded(origin, env.ctx, p, pools, receipts, alive.forever, [], receipts);
    } else {
      r, tip := PayProposer(env, payer, strategy, internals, results);
      env.Unfold();
      FaithfulPrefix(env.ctx, env.parent, txs, w, receipts, env.txs, env.state.world, env.receipts);
      PaymentAdded(origin, env.ctx, p, pools, receipts, alive.forever, tip, env.receipts);
      origin := origin.(tip := tip);
      assert env.txs[..|txs|] == txs;
    }
  }

  lemma OpeningMeans(ctx: Context, parent: World, marks: map<Hash, bool>)
    ensures Opening(ctx, parent, marks) == Point(parent, Sub64(ctx.header.gasLimit, TIP_RESERVE), 0, 0, marks)
  {
  }

  /** The last phase, and the result of the fill. */
  method PayProposer(env: Environment, payer: Address, strategy: TipsStrategy, internals: seq<nat>,
                     results: seq<BundleResult>)
    returns (r: Result<FillResult>, ghost tip: seq<Tx>)
    requires env.Valid() && env.minerBalance == Balance(env.parent, env.ctx.header.miner)
    modifies env, env.state
    ensures env.Valid() && env.txs == old(env.txs) + tip && old(env.txs) <= env.txs
    ensures r.Ok? ==> r.value.bundles == results
    ensures r.Ok? ==> Reported(env.ctx, env.parent, env.tipsRecipient, old(env.txs), tip, r.value, strategy)
    ensures r.Ok? ==> SpendBounded(env.ctx, env.parent, env.txs, |old(env.txs)|, env.state.world, payer, strategy)
    ensures r.Err? ==> env.tipsRecipient.Some? && (r.error.FeeTooLow? || r.error.SendTipsFail?)
    ensures r.Err? && r.error.SendTipsFail? && old(env.gasPool) + TIP_RESERVE < TWO_64 ==> TipFailed(r.error.action)
    ensures old(env.gasPool) + TIP_RESERVE < TWO_64 ==> env.Capacity() <= old(env.Capacity()) + TIP_RESERVE
    ensures old(env.gasPool) + TIP_RESERVE < TWO_64 && r.Ok? ==>
              env.Capacity() == old(env.Capacity()) + if env.tipsRecipient.Some? then TIP_RESERVE else 0
  {
    FaithfulState(env.ctx, env.parent, env.txs, env.state.world, env.receipts);
    FaithfulBuilt(env.ctx, env.parent, env.txs, env.state.world, env.receipts);
    hide Faithful, Sound, GasSum, GetTips, TipGas, StateAfter, RewardOf, BuildEnv.Environment.Valid,
      BuildEnv.Environment.Capacity, Replay;
    ghost var txs := env.txs;
    var profit;
    profit, tip := FillTips(env, payer, strategy, internals, |results|);
    match profit {
      case Err(e) =>
        r := Err(e);
      case Ok(value) =>
        assert env.txs[..|txs|] == txs;
        SpendKept(env.ctx, env.parent, env.txs, |txs|, env.state.world, payer, strategy);
        r := Ok(FillResult(results, internals, value));
    }
  }

  lemma FaithfulBuilt(ctx: Context, parent: World, txs: seq<Tx>, w: World, receipts: seq<Receipt>)
    requires Faithful(ctx, parent, txs, w, receipts)
    ensures Replay(StepOf(ctx), parent, txs) == Built(w, receipts)
  {
  }

  lemma ListedIsActive(listed: seq<BundlePool.Bundle>, pool: BundlePool.Bundles, header: Header)
    requires Ordered.Ascending(BundlePool.Uuids(listed))
    requires forall b :: b in listed <==>
             b.uuid in BundlePool.Visible(pool, header.number, header.timestamp) && pool[b.uuid] == b
    ensures ListsActive(listed, pool, header)
  {
  }

  /** With the builder its own miner, the payer ends with at least the smaller of its balance on
      the parent state and before the payment, which follows the first `n` transactions, less
      the strategy's maximum. */
  ghost predicate SpendBounded(ctx: Context, parent: World, txs: seq<Tx>, n: int, w: World, payer: Address,
                               strategy: TipsStrategy) {
    && 0 <= n <= |txs|
    && (ctx.header.miner == payer && payer in ctx.eoas ==>
          Balance(w, payer) + strategy.max >=
            Min(Balance(parent, payer), Balance(StateAfter(ctx, parent, txs[..n]), payer)))
  }

  lemma SpendKept(ctx: Context, parent: World, txs: seq<Tx>, n: nat, w: World, payer: Address, strategy: TipsStrategy)
    requires n <= |txs|
    requires ctx.header.miner == payer && payer in ctx.eoas ==>
               Balance(w, payer) + strategy.max >=
                 Min(Balance(parent, payer), Balance(StateAfter(ctx, parent, txs[..n]), payer))
    ensures SpendBounded(ctx, parent, txs, n, w, payer, strategy)
  {
  }

  // ---- withdrawals and the finished block ----

  datatype Withdrawal = Withdrawal(address: Address, amountGwei: nat)

  const GWEI: nat := 1_000_000_000

  function Credited(w: World, withdrawals: seq<Withdrawal>): World {
    if withdrawals == [] then w else
      var last := withdrawals[|withdrawals| - 1];
      AddBalance(Credited(w, withdrawals[..|withdrawals| - 1]), last.address, last.amountGwei * GWEI)
  }

  function Withdrawn(withdrawals: seq<Withdrawal>): nat {
    if withdrawals == [] then 0 else
      Withdrawn(withdrawals[..|withdrawals| - 1]) + withdrawals[|withdrawals| - 1].amountGwei * GWEI
  }

  lemma {:induction false} CreditedTotal(w: World, withdrawals: seq<Withdrawal>)
    ensures Total(Credited(w, withdrawals)) == Total(w) + Withdrawn(withdrawals)
    decreases |withdrawals|
  {
    if withdrawals != [] {
      var init, last := withdrawals[..|withdrawals| - 1], withdrawals[|withdrawals| - 1];
      CreditedTotal(w, init);
      TotalAdd(Credited(w, init), last.address, last.amountGwei * GWEI);
    }
  }

  /** One more withdrawal raises the balance of its own address by its amount in wei, and leaves
      the rest of every account. */
  lemma CreditedStep(w: World, withdrawals: seq<Withdrawal>, x: Withdrawal, a: Address)
    ensures var before, after := Get(Credited(w, withdrawals), a), Get(Credited(w, withdrawals + [x]), a);
            after ==
            if a == x.address then before.(balance := before.balance + x.amountGwei * 1_000_000_000) else before
  {
    assert (withdrawals + [x])[..|withdrawals|] == withdrawals;
  }

  /** What is addressed to an account, in wei. */
  function AddressedTo(withdrawals: seq<Withdrawal>, a: Address): nat {
    if withdrawals == [] then 0 else
      var last := withdrawals[|withdrawals| - 1];
      AddressedTo(withdrawals[..|withdrawals| - 1], a)
        + (if last.address == a then last.amountGwei * 1_000_000_000 else 0)
  }

  /** Every account ends with what was there and what is addressed to it. */
  lemma {:induction false} CreditedAccount(w: World, withdrawals: seq<Withdrawal>, a: Address)
    ensures Get(Credited(w, withdrawals), a) == Get(w, a).(balance := Balance(w, a) + AddressedTo(withdrawals, a))
    decreases |withdrawals|
  {
    if withdrawals != [] {
      var init, last := withdrawals[..|withdrawals| - 1], withdrawals[|withdrawals| - 1];
      CreditedAccount(w, init, a);
      assert withdrawals == init + [last];
      CreditedStep(w, init, last, a);
      hide Credited;
    }
  }

  datatype Block = Block(gasUsed: nat, stateRoot: World, txs: seq<Tx>, receipts: seq<Receipt>,
                         withdrawals: seq<Withdrawal>)

  /** Credits the withdrawals and seals the state. */
  method FinalizeAndAssemble(env: Environment, withdrawals: seq<Withdrawal>) returns (block: Block)
    modifies env.state
    ensures block == Block(env.gasUsed, Credited(old(env.state.world), withdrawals), env.txs, env.receipts, withdrawals)
    ensures env.state.flushed == env.state.world == block.stateRoot
  {
    var i := 0;
    while i < |withdrawals|
      invariant i <= |withdrawals| && env.state.world == Credited(old(env.state.world), withdrawals[..i])
    {
      assert withdrawals[..i + 1][..i] == withdrawals[..i];
      env.Credit(withdrawals[i].address, withdrawals[i].amountGwei * GWEI);
      i := i + 1;
    }
    assert withdrawals[..i] == withdrawals;
    var root := env.state.Flush();
    block := Block(env.gasUsed, root, env.txs, env.receipts, withdrawals);
  }

  /** What a finished block is worth: an honest replay, within its gas limit, with every wei
      accounted for. */
  ghost predicate Honest(ctx: Context, parent: World, block: Block) {
    && (var r := Replay(StepOf(ctx), parent, block.txs);
        r.Built? && block.receipts == r.receipts && block.stateRoot == Credited(r.world, block.withdrawals))
    && block.gasUsed == GasSum(block.receipts)
    && Total(block.stateRoot) + block.gasUsed * ctx.header.baseFee == Total(parent) + Withdrawn(block.withdrawals)
  }

  lemma BlockIsHonest(ctx: Context, parent: World, txs: seq<Tx>, w: World, receipts: seq<Receipt>,
                      withdrawals: seq<Withdrawal>)
    requires Sound(ctx) && Faithful(ctx, parent, txs, w, receipts)
    ensures Honest(ctx, parent, Block(GasSum(receipts), Credited(w, withdrawals), txs, receipts, withdrawals))
  {
    BlockConservation(ctx, parent, txs);
    CreditedTotal(w, withdrawals);
  }

  lemma {:induction false} CreditedGrows(w: World, withdrawals: seq<Withdrawal>, a: Address)
    ensures Balance(Credited(w, withdrawals), a) >= Balance(w, a)
    decreases |withdrawals|
  {
    if withdrawals != [] {
      CreditedGrows(w, withdrawals[..|withdrawals| - 1], a);
    }
  }

  /** In the state root every account has what the block's transactions leave it and what is
      addressed to it by a withdrawal. */
  ghost predicate WithdrawalsPaid(ctx: Context, parent: World, block: Block) {
    forall a :: Get(block.stateRoot, a) ==
                var filled := StateAfter(ctx, parent, block.txs);
                Get(filled, a).(balance := Balance(filled, a) + AddressedTo(block.withdrawals, a))
  }

  lemma PaidInFull(ctx: Context, parent: World, block: Block)
    requires block.stateRoot == Credited(StateAfter(ctx, parent, block.txs), block.withdrawals)
    ensures WithdrawalsPaid(ctx, parent, block)
  {
    hide StateAfter, Credited, AddressedTo;
    forall a
      ensures Get(block.stateRoot, a) ==
              var filled := StateAfter(ctx, parent, block.txs);
              Get(filled, a).(balance := Balance(filled, a) + AddressedTo(block.withdrawals, a))
    {
      CreditedAccount(StateAfter(ctx, parent, block.txs), block.withdrawals, a);
    }
  }

  /** Builds a block on the parent state held by `state`. */
  method Build(ctx: Context, state: StateDB, tipsRecipient: Option<Address>, alive: Alive,
               bundlePool: BundlePool.BundlePool,
               seqPool: SeqPool.SeqPoolList, pricePool: PricePool.PricePool, payer: Address, strategy: TipsStrategy,
                 withdrawals: seq<Withdrawal>)
    returns (r: Result<Block>, profit: nat, ghost origin: Origin, ghost receipts: seq<Receipt>,
             ghost internals: seq<nat>)
    requires Sound(ctx) && state.flushed == state.world && ctx.header.gasLimit < TWO_64
    requires bundlePool.Valid() && seqPool.Valid() && pricePool.Valid()
    modifies state, bundlePool, seqPool, pricePool
    ensures bundlePool.Valid() && seqPool.Valid() && pricePool.Valid() && |origin.bundles| == |origin.bundleTrials|
    // whether or not a block comes out, the fill is traced back to the pools
    ensures InOrder(origin, ctx, Opening(ctx, old(state.world), map[]),
                    old(PoolsNow(bundlePool, seqPool, pricePool)), receipts, alive.forever)
    ensures PoolsNow(bundlePool, seqPool, pricePool)
         == PoolsAfter(origin, ctx, Opening(ctx, old(state.world), map[]),
                       old(PoolsNow(bundlePool, seqPool, pricePool)))
    ensures r == Err(NoTx) <==> Parts(origin) == []
    ensures r.Err? ==> r.error.NoTx? || (tipsRecipient.Some? && (r.error.FeeTooLow? || r.error.SendTipsFail?))
    ensures r.Err? && r.error.SendTipsFail? && TIP_RESERVE <= ctx.header.gasLimit ==> TipFailed(r.error.action)
    // the block
    ensures r.Ok? ==> Honest(ctx, old(state.world), r.value) && r.value.withdrawals == withdrawals
    ensures r.Ok? ==> r.value.txs == Parts(origin) && r.value.receipts == receipts && |origin.tip| <= |r.value.txs|
    ensures r.Ok? ==> WithdrawalsPaid(ctx, old(state.world), r.value)
    ensures r.Ok? && TIP_RESERVE <= ctx.header.gasLimit ==> r.value.gasUsed <= ctx.header.gasLimit
    // the payment
    ensures r.Ok? ==> Reported(ctx, old(state.world), tipsRecipient, r.value.txs[..|r.value.txs| - |origin.tip|],
                               origin.tip,
                               FillResult(origin.bundles, internals, profit), strategy)
    ensures r.Ok? ==> SpendBounded(ctx, old(state.world), r.value.txs, |r.value.txs| - |origin.tip|,
                                   r.value.stateRoot, payer, strategy)
  {
    hide *;
    var env := new Environment(ctx, state, tipsRecipient);
    var filled;
    filled, origin := FillTransactions(env, alive, bundlePool, seqPool, pricePool, payer, strategy);
    env.Unfold();
    profit, receipts, internals := 0, env.receipts, [];
    match filled {
      case Err(e) =>
        r := Err(e);
      case Ok(result) =>
        profit, internals := result.profit, result.internals;
        BlockIsHonest(ctx, env.parent, env.txs, env.state.world, env.receipts, withdrawals);
        FaithfulState(ctx, env.parent, env.txs, env.state.world, env.receipts);
        PaidInFull(ctx, env.parent,
                   Block(env.gasUsed, Credited(env.state.world, withdrawals), env.txs, env.receipts, withdrawals));
        CreditedGrows(env.state.world, withdrawals, payer);
        SpendCredited(ctx, env.parent, env.txs, |env.txs| - |origin.tip|, env.state.world,
                      Credited(env.state.world, withdrawals), payer, strategy);
        var block := FinalizeAndAssemble(env, withdrawals);
        r := Ok(block);
    }
  }

  lemma SpendCredited(ctx: Context, parent: World, txs: seq<Tx>, n: int, w: World, w': World, payer: Address,
                      strategy: TipsStrategy)
    requires SpendBounded(ctx, parent, txs, n, w, payer, strategy) && Balance(w', payer) >= Balance(w, payer)
    ensures SpendBounded(ctx, parent, txs, n, w', payer, strategy)
  {
    hide StateAfter;
  }
}
