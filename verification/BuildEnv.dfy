/** The block under construction: state, transactions, receipts and the gas ledger, kept in
    step by every operation. */
module BuildEnv {
  import opened Chain
  import opened World
  import opened Evm
  import opened Executor
  import opened BlockReplay

  const TX_GAS: nat := 21000
  const TIP_RESERVE: nat := 32000

  /** The build deadline. Whether it has passed is only known when asked. */
  class Alive {
    const forever: bool

    constructor (forever: bool)
      ensures this.forever == forever
    {
      this.forever := forever;
    }

    method IsAlive() returns (alive: bool)
      ensures forever ==> alive
    {
      alive := *;
      if forever {
        alive := true;
      }
    }
  }

  datatype FailReason = UnderBaseFee | ExecFailed(error: ExecError)

  datatype CommitAction =
    | Success(receipt: Receipt)
    | Pop
    | MarkFail(reason: FailReason)
    | Stop
    | RemoveTx

  /** Where a build stands: what an attempt depends on and what it moves. */
  datatype Point = Point(world: World, gasPool: int, count: nat, gasUsed: nat, marks: map<Hash, bool>)

  /** What committing does while the deadline has not passed. */
  ghost function Verdict(ctx: Context, tx: Tx, p: Point): CommitAction {
    if p.gasPool <= TX_GAS then Stop
    else if p.gasPool < tx.gasLimit then Pop
    else if tx.feeCap < ctx.header.baseFee then MarkFail(UnderBaseFee)
    else match Execute(ctx, tx, p.world)
      case Failed(e) => if e.NonceTooLow? || e.NotSupported? then RemoveTx else MarkFail(ExecFailed(e))
      case Ran(_, success, used, logs) => Success(ReceiptOf(tx, p.count, p.gasUsed, success, used, logs))
  }

  /** The outcome is the verdict, or, for a transaction there is gas for, a stop because the
      deadline has passed. */
  ghost predicate Decided(ctx: Context, tx: Tx, p: Point, action: CommitAction, forever: bool) {
    action == Verdict(ctx, tx, p) || (action.Stop? && !forever && tx.gasLimit <= p.gasPool)
  }

  /** Whether an outcome settles a transaction for this build. */
  predicate Settles(action: CommitAction) { action.Success? || action.RemoveTx? }

  /** An attempt marks its transaction; only one that ran moves anything else. */
  ghost function Moved(ctx: Context, tx: Tx, p: Point, action: CommitAction): Point {
    var marked := p.(marks := p.marks[tx.hash := Settles(action)]);
    if !action.Success? then marked else
      match Execute(ctx, tx, p.world)
      case Failed(_) => marked
      case Ran(w, _, used, _) =>
        marked.(world := w, gasPool := p.gasPool - used, count := p.count + 1, gasUsed := p.gasUsed + used)
  }

  /** There is block gas for the transaction, and it covers the base fee. */
  predicate HasRoom(ctx: Context, tx: Tx, p: Point) {
    21000 < p.gasPool && tx.gasLimit <= p.gasPool && ctx.header.baseFee <= tx.feeCap
  }

  /** The transaction can never go into a block any more: its nonce has passed, or all is well
      with it and the interpreter does not support it. */
  ghost predicate Hopeless(ctx: Context, tx: Tx, w: World) {
    || tx.nonce < Nonce(w, tx.sender)
    || (&& tx.nonce == Nonce(w, tx.sender) && tx.gasLimit * tx.feeCap + tx.value <= Balance(w, tx.sender)
        && ctx.evm(ctx.header, tx, Bought(ctx, tx, w)).NotSupported?)
  }

  /** Exactly when each outcome is due. In particular a transaction is removed only when it is
      hopeless; one whose nonce is still to come is kept. */
  lemma VerdictIff(ctx: Context, tx: Tx, p: Point)
    ensures var v, nonce := Verdict(ctx, tx, p), Nonce(p.world, tx.sender);
            var funded := tx.gasLimit * tx.feeCap + tx.value <= Balance(p.world, tx.sender);
            && (v == Stop <==> p.gasPool <= 21000)
            && (v == Pop <==> 21000 < p.gasPool < tx.gasLimit)
            && (v == MarkFail(UnderBaseFee) <==>
                  21000 < p.gasPool && tx.gasLimit <= p.gasPool && tx.feeCap < ctx.header.baseFee)
            && (v == MarkFail(ExecFailed(NonceTooHigh(nonce, tx.nonce))) <==> HasRoom(ctx, tx, p) && nonce < tx.nonce)
            && (v == MarkFail(ExecFailed(InsufficientFunds)) <==> HasRoom(ctx, tx, p) && nonce == tx.nonce && !funded)
            && (v == RemoveTx <==> HasRoom(ctx, tx, p) && Hopeless(ctx, tx, p.world))
            && (v.Success? <==> HasRoom(ctx, tx, p) && nonce == tx.nonce && funded && !Hopeless(ctx, tx, p.world))
  {
    hide Bought, Settled, Written;
  }

  /** The receipt of a transaction that ran says what the interpreter said, at this place. */
  lemma SuccessReceipt(ctx: Context, tx: Tx, p: Point)
    requires Verdict(ctx, tx, p).Success?
    ensures Affords(tx, p.world)
    ensures var exit := ctx.evm(ctx.header, tx, Bought(ctx, tx, p.world));
            && exit.Done?
            && Verdict(ctx, tx, p).receipt
               == Receipt(exit.success, tx.hash, p.count, exit.usedGas, p.gasUsed + exit.usedGas, exit.logs)
  {
    hide Bought, Settled, Written;
  }

  /** State and receipts are those of replaying exactly the included transactions. */
  ghost predicate Faithful(ctx: Context, parent: World, txs: seq<Tx>, w: World, receipts: seq<Receipt>) {
    Replay(StepOf(ctx), parent, txs) == Built(w, receipts)
  }

  lemma FaithfulStart(ctx: Context, parent: World)
    ensures Faithful(ctx, parent, [], parent, [])
  {
  }

  lemma FaithfulLength(ctx: Context, parent: World, txs: seq<Tx>, w: World, receipts: seq<Receipt>)
    requires Faithful(ctx, parent, txs, w, receipts)
    ensures |receipts| == |txs|
  {
    ReplayLength(StepOf(ctx), parent, txs);
  }

  lemma FaithfulPush(ctx: Context, parent: World, txs: seq<Tx>, w: World, receipts: seq<Receipt>, tx: Tx)
    requires Faithful(ctx, parent, txs, w, receipts) && Execute(ctx, tx, w).Ran?
    ensures var run := Execute(ctx, tx, w);
            var r := ReceiptOf(tx, |receipts|, GasSum(receipts), run.success, run.usedGas, run.logs);
            && Faithful(ctx, parent, txs + [tx], run.world, receipts + [r])
            && GasSum(receipts + [r]) == GasSum(receipts) + run.usedGas
  {
    ReplayPush(StepOf(ctx), parent, txs, tx);
    var run := Execute(ctx, tx, w);
    assert StepOf(ctx)(tx, w) == run;
    GasSumPush(receipts, ReceiptOf(tx, |receipts|, GasSum(receipts), run.success, run.usedGas, run.logs));
  }

  lemma RunWithinLimit(ctx: Context, tx: Tx, w: World)
    requires Sound(ctx) && Execute(ctx, tx, w).Ran?
    ensures Execute(ctx, tx, w).usedGas <= tx.gasLimit && ctx.header.baseFee <= tx.feeCap
  {
    var bought, exit, written := Stages(ctx, tx, w);
  }

  /** The reserve can be taken from the gas limit exactly when the limit covers it; below that
      the subtraction wraps around and the pool is larger than the block. */
  lemma ReserveFits(gasLimit: nat)
    requires gasLimit < TWO_64
    ensures TIP_RESERVE == 32000
    ensures Sub64(gasLimit, TIP_RESERVE) + 32000 == gasLimit <==> 32000 <= gasLimit
    ensures Sub64(gasLimit, TIP_RESERVE) <= gasLimit <==> 32000 <= gasLimit
  {
    if TIP_RESERVE <= gasLimit {
      assert Sub64(gasLimit, TIP_RESERVE) == gasLimit - TIP_RESERVE;
    } else {
      assert Sub64(gasLimit, TIP_RESERVE) == gasLimit - TIP_RESERVE + TWO_64;
    }
  }

  function Hashes(txs: seq<Tx>): set<Hash> { set tx | tx in txs :: tx.hash }

  class Environment {
    const ctx: Context
    const state: StateDB
    const tipsRecipient: Option<Address>
    /** The parent state the block builds on. */
    ghost const parent: World
    var minerBalance: nat
    var gasUsed: nat
    var gasPool: nat
    var txs: seq<Tx>
    var receipts: seq<Receipt>
    var checkedTxs: map<Hash, bool>

    constructor (ctx: Context, state: StateDB, tipsRecipient: Option<Address>)
      requires Sound(ctx)
      ensures this.ctx == ctx && this.state == state && this.tipsRecipient == tipsRecipient && parent == state.world
      ensures Valid() && txs == [] && receipts == [] && gasUsed == 0 && gasPool == 0 && checkedTxs == map[]
    {
      this.ctx, this.state, this.tipsRecipient, this.parent := ctx, state, tipsRecipient, state.world;
      minerBalance, gasUsed, gasPool := 0, 0, 0;
      txs, receipts, checkedTxs := [], [], map[];
      FaithfulStart(ctx, state.world);
    }

    /** Replay consistency together with the gas ledger. */
    ghost predicate Valid()
      reads this, state
    {
      && Sound(ctx)
      && Faithful(ctx, parent, txs, state.world, receipts)
      && gasUsed == GasSum(receipts)
    }

    /** The gas this block may use in all. */
    ghost function Capacity(): nat
      reads this
    {
      gasPool + gasUsed
    }

    /** Where the build stands. */
    ghost function Here(): Point
      reads this, state
    {
      Point(state.world, gasPool, |txs|, gasUsed, checkedTxs)
    }

    lemma Unfold()
      ensures Here() == Point(state.world, gasPool, |txs|, gasUsed, checkedTxs) && Capacity() == gasPool + gasUsed
      ensures Valid() <==>
              && Sound(ctx) && Faithful(ctx, parent, txs, state.world, receipts)
              && gasUsed == GasSum(receipts)
    {
    }

    /** Makes the current state the flushed one. */
    method FlushState()
      requires Valid()
      modifies state
      ensures Valid() && Here() == old(Here()) && state.flushed == state.world == old(state.world)
    {
      var _ := state.Flush();
    }

    /** Opens the gas pool, keeping back the reserve for the payment to the proposer, and notes
        the miner's balance. */
    method Open()
      requires Valid() && gasUsed == 0
      modifies this`gasPool, this`minerBalance
      ensures Valid() && Capacity() == gasPool == Sub64(ctx.header.gasLimit, TIP_RESERVE)
      ensures minerBalance == Balance(state.world, ctx.header.miner)
    {
      gasPool := Sub64(ctx.header.gasLimit, TIP_RESERVE);
      minerBalance := Balance(state.world, ctx.header.miner);
    }

    /** Gives the gas kept back for the payment to the proposer to the pool. */
    method ReleaseReserve()
      requires Valid()
      modifies this`gasPool
      ensures Valid() && gasPool == Add64(old(gasPool), TIP_RESERVE)
    {
      gasPool := Add64(gasPool, TIP_RESERVE);
    }

    /** Takes over the marks the price pool made while listing. */
    method MarkChecked(marks: map<Hash, bool>)
      requires Valid()
      modifies this`checkedTxs
      ensures Valid() && Capacity() == old(Capacity()) && Here() == old(Here()).(marks := marks)
    {
      checkedTxs := marks;
    }

    /** Marks a transaction that has run once more; its mark is set already. */
    method Remark(h: Hash)
      requires Valid() && h in checkedTxs && checkedTxs[h]
      modifies this`checkedTxs
      ensures Valid() && Here() == old(Here()) && Capacity() == old(Capacity())
    {
      hide Faithful, Sound;
      checkedTxs := checkedTxs[h := true];
      assert checkedTxs == old(checkedTxs);
    }

    method UseGas(gas: nat)
      requires gas <= gasPool
      modifies this`gasPool, this`gasUsed
      ensures gasPool == old(gasPool) - gas && Capacity() == old(Capacity())
    {
      gasPool := gasPool - gas;
      gasUsed := gasUsed + gas;
    }

    method RefundGas(gas: nat)
      requires gas <= gasUsed
      modifies this`gasPool, this`gasUsed
      ensures gasPool == old(gasPool) + gas && Capacity() == old(Capacity())
    {
      gasPool := gasPool + gas;
      gasUsed := gasUsed - gas;
    }

    /** Tries to append one transaction. Unless it ran, nothing but `checkedTxs` changes. */
    method CommitTransaction(alive: Alive, tx: Tx) returns (action: CommitAction)
      requires Valid()
      modifies this, state
      ensures Valid() && Capacity() == old(Capacity())
      ensures minerBalance == old(minerBalance) && state.flushed == old(state.flushed)
      ensures Decided(ctx, tx, old(Here()), action, alive.forever) && Here() == Moved(ctx, tx, old(Here()), action)
      ensures !action.Success? ==> txs == old(txs) && receipts == old(receipts)
      ensures action.Success? ==> txs == old(txs) + [tx] && receipts == old(receipts) + [action.receipt]
      ensures action.Success? ==> tx.hash in checkedTxs && checkedTxs[tx.hash]
      ensures action.Success? ==>
              Execute(ctx, tx, old(state.world)).Ran? && state.world == Execute(ctx, tx, old(state.world)).world
    {
      hide Sound, Faithful, Execute, GasSum, ReceiptOf;
      checkedTxs := checkedTxs[tx.hash := false];
      if gasPool <= TX_GAS {
        return Stop;
      }
      if gasPool < tx.gasLimit {
        return Pop;
      }
      var ok := alive.IsAlive();
      if !ok {
        return Stop;
      }
      if EffectiveGasTip(tx, Some(ctx.header.baseFee)).None? {
        return MarkFail(UnderBaseFee);
      }
      action := ApplyTransaction(tx);
    }

    /** Executes a transaction there is gas for. */
    method ApplyTransaction(tx: Tx) returns (action: CommitAction)
      requires Valid() && TX_GAS < gasPool && tx.gasLimit <= gasPool && ctx.header.baseFee <= tx.feeCap
      requires tx.hash in checkedTxs && !checkedTxs[tx.hash]
      modifies this, state
      ensures Valid() && Capacity() == old(Capacity())
      ensures minerBalance == old(minerBalance) && state.flushed == old(state.flushed)
      ensures action == Verdict(ctx, tx, old(Here())) && Here() == Moved(ctx, tx, old(Here()), action)
      ensures !action.Success? ==> txs == old(txs) && receipts == old(receipts)
      ensures action.Success? ==> txs == old(txs) + [tx] && receipts == old(receipts) + [action.receipt]
      ensures action.Success? ==> tx.hash in checkedTxs && checkedTxs[tx.hash]
      ensures action.Success? ==>
              Execute(ctx, tx, old(state.world)).Ran? && state.world == Execute(ctx, tx, old(state.world)).world
    {
      hide Sound, Faithful, Execute, GasSum;
      FaithfulLength(ctx, parent, txs, state.world, receipts);
      var index := |txs|;
      var cached := *;
      var executor := new Executor(ctx, tx, state);
      var run := executor.Run(cached);
      if run.Ran? {
        RunWithinLimit(ctx, tx, old(state.world));
        FaithfulPush(ctx, parent, txs, old(state.world), receipts, tx);
        var receipt := ReceiptOf(tx, index, gasUsed, run.success, run.usedGas, run.logs);
        UseGas(receipt.gasUsed);
        txs := txs + [tx];
        receipts := receipts + [receipt];
        checkedTxs := checkedTxs[tx.hash := true];
        return Success(receipt);
      }
      if run.error.NonceTooLow? || run.error.NotSupported? {
        checkedTxs := checkedTxs[tx.hash := true];
        return RemoveTx;
      }
      action := MarkFail(ExecFailed(run.error));
    }

    /** Adds to an account outside of any transaction; the block's transactions are settled. */
    method Credit(a: Address, amount: nat)
      modifies state
      ensures state.world == AddBalance(old(state.world), a, amount) && state.flushed == old(state.flushed)
    {
      state.world := AddBalance(state.world, a, amount);
    }

    /** Returns to the block as it was with its first `at` transactions, whose state `root` names. */
    method Rollback(root: World, at: nat)
      requires Valid() && at <= |txs| && at <= |receipts| && Faithful(ctx, parent, txs[..at], root, receipts[..at])
      modifies this, state
      ensures Valid() && state.flushed == state.world == root
      ensures txs == old(txs)[..at] && receipts == old(receipts)[..at] && Capacity() == old(Capacity())
      ensures minerBalance == old(minerBalance) && checkedTxs == old(checkedTxs) - Hashes(old(txs)[at..])
    {
      FaithfulLength(ctx, parent, txs, state.world, receipts);
      hide Faithful, Sound, GasSum, Hashes;
      state.Revert(root);
      RevertTxsTo(at);
    }

    /** Takes back the transactions from `at` on, with their receipts and their gas. */
    method RevertTxsTo(at: nat)
      requires |txs| == |receipts| && gasUsed == GasSum(receipts) && at <= |txs|
      modifies this
      ensures txs == old(txs)[..at] && receipts == old(receipts)[..at]
      ensures gasUsed == GasSum(receipts) && Capacity() == old(Capacity())
      ensures minerBalance == old(minerBalance) && checkedTxs == old(checkedTxs) - Hashes(old(txs)[at..])
    {
      assert Hashes(old(txs)[|txs|..]) == {};
      while |txs| > at
        invariant at <= |txs| <= |old(txs)| && |txs| == |receipts|
        invariant txs == old(txs)[..|txs|] && receipts == old(receipts)[..|txs|]
        invariant gasUsed == GasSum(receipts) && Capacity() == old(Capacity())
        invariant minerBalance == old(minerBalance) && checkedTxs == old(checkedTxs) - Hashes(old(txs)[|txs|..])
      {
        var last := |txs| - 1;
        var tx, receipt := txs[last], receipts[last];
        assert old(txs)[last..] == [tx] + old(txs)[|txs|..];
        txs := txs[..last];
        receipts := receipts[..last];
        checkedTxs := checkedTxs - {tx.hash};
        RefundGas(receipt.gasUsed);
      }
    }
  }
}
