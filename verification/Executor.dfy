/** Running one transaction: nonce and fee checks, buying gas, the interpreter, paying the
    miner and refunding. `Execute` is the state transition; `Executor.Run` performs it step
    by step on the state database. */
module Executor {
  import opened Chain
  import opened World
  import opened Evm

  datatype ExecError =
    | NotSupported
    | InsufficientFunds
    | InsufficientBaseFee
    | NonceTooLow
    | NonceTooHigh(want: nat, got: nat)

  datatype Outcome =
    | Failed(error: ExecError)
    | Ran(world: World, success: bool, usedGas: nat, logs: seq<nat>)

  function Price(ctx: Context, tx: Tx): nat { GasPrice(tx, ctx.header.baseFee) }

  function Tip(ctx: Context, tx: Tx): nat
    requires ctx.header.baseFee <= tx.feeCap
  {
    MinerTip(tx, ctx.header.baseFee)
  }

  /** The funds a sender must hold before anything is charged. */
  predicate Affords(tx: Tx, w: World) { tx.gasLimit * tx.feeCap + tx.value <= Balance(w, tx.sender) }

  lemma PurchaseFits(ctx: Context, tx: Tx, w: World)
    requires Affords(tx, w)
    ensures tx.gasLimit * Price(ctx, tx) + tx.value <= Balance(w, tx.sender)
  {
    assert tx.gasLimit * Price(ctx, tx) <= tx.gasLimit * tx.feeCap;
  }

  /** The world after the sender has bought its gas limit. */
  ghost function Bought(ctx: Context, tx: Tx, w: World): (b: World)
    requires Affords(tx, w)
    ensures Nonce(b, tx.sender) == Nonce(w, tx.sender) && tx.value <= Balance(b, tx.sender)
  {
    PurchaseFits(ctx, tx, w);
    SubBalance(w, tx.sender, tx.gasLimit * Price(ctx, tx))
  }

  /** The world after the interpreter's writes (or, reverted, the caller nonce alone). */
  function Written(tx: Tx, bought: World, exit: Exit): World
    requires exit.Done?
  {
    if exit.success then ApplyChanges(bought, exit.changes)
    else ApplyCallerNonce(bought, tx.sender, exit.changes)
  }

  /** Gas left to refund; a sound interpreter never uses more than the limit. */
  function Unused(tx: Tx, used: nat): nat { Max(0, tx.gasLimit - used) }

  /** The world after the miner's tip and the refund of unused gas. */
  function Settled(ctx: Context, tx: Tx, written: World, used: nat): World
    requires ctx.header.baseFee <= tx.feeCap
  {
    AddBalance(AddBalance(written, ctx.header.miner, used * Tip(ctx, tx)), tx.sender, Unused(tx, used) * Price(ctx, tx))
  }

  /** The transition one transaction makes; every failure leaves the world as it was. */
  ghost function Execute(ctx: Context, tx: Tx, w: World): Outcome {
    if tx.feeCap < ctx.header.baseFee then Failed(InsufficientBaseFee)
    else if tx.nonce < Nonce(w, tx.sender) then Failed(NonceTooLow)
    else if Nonce(w, tx.sender) < tx.nonce then Failed(NonceTooHigh(Nonce(w, tx.sender), tx.nonce))
    else if !Affords(tx, w) then Failed(InsufficientFunds)
    else
      var bought := Bought(ctx, tx, w);
      match ctx.evm(ctx.header, tx, bought)
      case NotSupported => Failed(ExecError.NotSupported)
      case Done(success, used, changes, logs) =>
        Ran(Settled(ctx, tx, Written(tx, bought, Done(success, used, changes, logs)), used), success, used, logs)
  }

  /** The refusals before any gas is bought. */
  lemma ExecuteBeforeBuying(ctx: Context, tx: Tx, w: World)
    ensures tx.feeCap < ctx.header.baseFee ==> Execute(ctx, tx, w) == Failed(InsufficientBaseFee)
    ensures ctx.header.baseFee <= tx.feeCap ==>
              && (tx.nonce < Nonce(w, tx.sender) ==> Execute(ctx, tx, w) == Failed(NonceTooLow))
              && (Nonce(w, tx.sender) < tx.nonce ==>
                  Execute(ctx, tx, w) == Failed(NonceTooHigh(Nonce(w, tx.sender), tx.nonce)))
              && (Nonce(w, tx.sender) == tx.nonce && !Affords(tx, w) ==>
                  Execute(ctx, tx, w) == Failed(InsufficientFunds))
  {
    hide Affords, Bought, Settled, Written;
  }

  /** What is left once gas is bought: a full refund, or the writes, the tip and the refund. */
  lemma ExecuteAfterBuying(ctx: Context, tx: Tx, w: World)
    requires Sound(ctx) && ctx.header.baseFee <= tx.feeCap && Nonce(w, tx.sender) == tx.nonce && Affords(tx, w)
    ensures var bought := Bought(ctx, tx, w);
            match ctx.evm(ctx.header, tx, bought)
            case NotSupported =>
              Execute(ctx, tx, w) == Failed(ExecError.NotSupported)
                && AddBalance(bought, tx.sender, tx.gasLimit * Price(ctx, tx)) == w
            case Done(success, used, changes, logs) =>
              && used <= tx.gasLimit
              && Execute(ctx, tx, w) ==
                 Ran(AddBalance(AddBalance(Written(tx, bought, Done(success, used, changes, logs)), ctx.header.miner,
                                           used * Tip(ctx, tx)),
                                tx.sender, (tx.gasLimit - used) * Price(ctx, tx)),
                     success, used, logs)
  {
    assert SoundAt(ctx, tx, Bought(ctx, tx, w));
    PurchaseFits(ctx, tx, w);
    SubThenAdd(w, tx.sender, tx.gasLimit * Price(ctx, tx));
    hide Written, Tip, Price, AddBalance, SubBalance, Affords;
  }

  /** What a transaction that ran went through. */
  lemma Stages(ctx: Context, tx: Tx, w: World) returns (bought: World, exit: Exit, written: World)
    requires Sound(ctx) && Execute(ctx, tx, w).Ran?
    ensures ctx.header.baseFee <= tx.feeCap && Nonce(w, tx.sender) == tx.nonce && Affords(tx, w)
    ensures bought == Bought(ctx, tx, w) && exit == ctx.evm(ctx.header, tx, bought) && exit.Done?
    ensures SoundAt(ctx, tx, bought) && written == Written(tx, bought, exit)
    ensures Execute(ctx, tx, w) == Ran(Settled(ctx, tx, written, exit.usedGas), exit.success, exit.usedGas, exit.logs)
    ensures exit.usedGas <= tx.gasLimit
  {
    bought := Bought(ctx, tx, w);
    exit := ctx.evm(ctx.header, tx, bought);
    assert SoundAt(ctx, tx, bought);
    written := Written(tx, bought, exit);
  }

  lemma FeeSplit(limit: nat, used: nat, base: nat, tip: nat)
    requires used <= limit
    ensures limit * (base + tip) == used * tip + (limit - used) * (base + tip) + used * base
  {
    assert limit * (base + tip) == used * (base + tip) + (limit - used) * (base + tip);
  }

  lemma PriceIsBasePlusTip(ctx: Context, tx: Tx)
    requires ctx.header.baseFee <= tx.feeCap
    ensures Price(ctx, tx) == ctx.header.baseFee + Tip(ctx, tx)
  {
  }

  lemma {:induction false} CallerNonceMovesNoEther(w: World, caller: Address, changes: seq<Change>)
    ensures var r := ApplyCallerNonce(w, caller, changes);
            && Total(r) == Total(w)
            && (forall a :: Balance(r, a) == Balance(w, a))
            && (forall a :: a != caller ==> Get(r, a) == Get(w, a))
    decreases |changes|
  {
    if changes != [] {
      var last := |changes| - 1;
      CallerNonceMovesNoEther(w, caller, changes[..last]);
      var before := ApplyCallerNonce(w, caller, changes[..last]);
      if changes[last].Modify? && changes[last].address == caller {
        TotalUpdate(before, caller, Get(before, caller).(nonce := changes[last].nonce));
      }
    }
  }

  /** Settlement adds the tip and the refund, and nothing else. */
  lemma SettledBalance(ctx: Context, tx: Tx, written: World, used: nat, a: Address)
    requires used <= tx.gasLimit && ctx.header.baseFee <= tx.feeCap
    ensures var r := Settled(ctx, tx, written, used);
            && Balance(r, a) == Balance(written, a)
                 + (if a == ctx.header.miner then used * Tip(ctx, tx) else 0)
                 + (if a == tx.sender then (tx.gasLimit - used) * Price(ctx, tx) else 0)
            && Nonce(r, a) == Nonce(written, a)
  {
  }

  lemma SettledTotal(ctx: Context, tx: Tx, written: World, used: nat)
    requires used <= tx.gasLimit && ctx.header.baseFee <= tx.feeCap
    ensures Total(Settled(ctx, tx, written, used))
         == Total(written) + used * Tip(ctx, tx) + (tx.gasLimit - used) * Price(ctx, tx)
  {
    var tipped := AddBalance(written, ctx.header.miner, used * Tip(ctx, tx));
    TotalAdd(written, ctx.header.miner, used * Tip(ctx, tx));
    TotalAdd(tipped, tx.sender, (tx.gasLimit - used) * Price(ctx, tx));
  }

  lemma BoughtBalance(ctx: Context, tx: Tx, w: World, a: Address)
    requires Affords(tx, w)
    ensures var b := Bought(ctx, tx, w);
            && Total(b) + tx.gasLimit * Price(ctx, tx) == Total(w)
            && Balance(b, a) + (if a == tx.sender then tx.gasLimit * Price(ctx, tx) else 0) == Balance(w, a)
            && Nonce(b, a) == Nonce(w, a)
  {
    PurchaseFits(ctx, tx, w);
    TotalSub(w, tx.sender, tx.gasLimit * Price(ctx, tx));
  }

  /** The interpreter's stage: no ether made or lost, and key-owned accounts kept. */
  lemma WrittenEffect(ctx: Context, tx: Tx, bought: World, a: Address)
    requires ctx.evm(ctx.header, tx, bought).Done? && SoundAt(ctx, tx, bought)
    requires Nonce(bought, tx.sender) == tx.nonce
    ensures var r := Written(tx, bought, ctx.evm(ctx.header, tx, bought));
            && Total(r) == Total(bought)
            && Nonce(r, tx.sender) == tx.nonce + 1
            && (a in ctx.eoas && a != tx.sender ==> Nonce(r, a) == Nonce(bought, a))
            && (a in ctx.eoas ==> Balance(bought, a) <= Balance(r, a) + Spend(tx, a))
  {
    var exit := ctx.evm(ctx.header, tx, bought);
    CallerNonceMovesNoEther(bought, tx.sender, exit.changes);
  }

  /** Ether accounting: whether it succeeded or reverted, a transaction that ran burns exactly
      used gas times the base fee, and no other ether appears or disappears. */
  lemma EtherAccounting(ctx: Context, tx: Tx, w: World)
    requires Sound(ctx) && Execute(ctx, tx, w).Ran?
    ensures var r := Execute(ctx, tx, w);
            Total(r.world) + r.usedGas * ctx.header.baseFee == Total(w)
  {
    var bought, exit, written := Stages(ctx, tx, w);
    BoughtBalance(ctx, tx, w, tx.sender);
    WrittenEffect(ctx, tx, bought, tx.sender);
    SettledTotal(ctx, tx, written, exit.usedGas);
    FeeSplit(tx.gasLimit, exit.usedGas, ctx.header.baseFee, Tip(ctx, tx));
    PriceIsBasePlusTip(ctx, tx);
  }

  /** A reverted transaction costs its sender used gas at the purchase price, pays the miner
      the tip on that gas, and touches no other balance. */
  lemma RevertedCost(ctx: Context, tx: Tx, w: World, a: Address)
    requires Sound(ctx) && Execute(ctx, tx, w).Ran? && !Execute(ctx, tx, w).success
    ensures var r := Execute(ctx, tx, w);
            Balance(r.world, a) + (if a == tx.sender then r.usedGas * Price(ctx, tx) else 0)
              == Balance(w, a) + (if a == ctx.header.miner then r.usedGas * Tip(ctx, tx) else 0)
  {
    var bought, exit, written := Stages(ctx, tx, w);
    BoughtBalance(ctx, tx, w, a);
    CallerNonceMovesNoEther(bought, tx.sender, exit.changes);
    SettledBalance(ctx, tx, written, exit.usedGas, a);
    FeeSplit(tx.gasLimit, exit.usedGas, Price(ctx, tx), 0);
  }

  lemma SettledRefund(ctx: Context, tx: Tx, written: World, used: nat, a: Address)
    requires used <= tx.gasLimit && ctx.header.baseFee <= tx.feeCap
    ensures var r := Settled(ctx, tx, written, used);
            && Nonce(r, a) == Nonce(written, a)
            && Balance(r, a) + (if a == tx.sender then used * Price(ctx, tx) else 0)
                 >= Balance(written, a) + (if a == tx.sender then tx.gasLimit * Price(ctx, tx) else 0)
  {
    SettledBalance(ctx, tx, written, used, a);
    FeeSplit(tx.gasLimit, used, Price(ctx, tx), 0);
  }

  /** Key-owned accounts: only the sender's nonce moves, by one, and nobody loses more than
      the value sent plus the gas used at the purchase price. */
  lemma EoaEffect(ctx: Context, tx: Tx, w: World, a: Address)
    requires Sound(ctx) && Execute(ctx, tx, w).Ran? && a in ctx.eoas
    ensures var r := Execute(ctx, tx, w);
            && Nonce(r.world, a) == Nonce(w, a) + (if a == tx.sender then 1 else 0)
            && Balance(w, a) <= Balance(r.world, a)
              + (if a == tx.sender then tx.value + r.usedGas * Price(ctx, tx) else 0)
  {
    var bought, exit, written := Stages(ctx, tx, w);
    BoughtBalance(ctx, tx, w, a);
    WrittenEffect(ctx, tx, bought, a);
    SettledRefund(ctx, tx, written, exit.usedGas, a);
  }

  // ---- what a run leaves, account by account ----

  /** The fees in numbers: the tip is the smaller of the priority fee and what the fee cap leaves
      over the base fee, and gas is bought at the base fee plus that tip. */
  lemma FeesInNumbers(ctx: Context, tx: Tx)
    requires ctx.header.baseFee <= tx.feeCap
    ensures Tip(ctx, tx) <= tx.tipCap && Tip(ctx, tx) <= tx.feeCap - ctx.header.baseFee
    ensures Tip(ctx, tx) == tx.tipCap || Tip(ctx, tx) == tx.feeCap - ctx.header.baseFee
    ensures Price(ctx, tx) == ctx.header.baseFee + Tip(ctx, tx)
  {
  }

  /** What settling a run adds to an account: the miner's tip and the sender's unused gas. */
  function CreditTo(ctx: Context, tx: Tx, used: nat, a: Address): nat
    requires ctx.header.baseFee <= tx.feeCap
  {
    var tip := Min(tx.tipCap, tx.feeCap - ctx.header.baseFee);
    (if a == ctx.header.miner then used * tip else 0)
    + (if a == tx.sender then Max(0, tx.gasLimit - used) * (ctx.header.baseFee + tip) else 0)
  }

  lemma AddedAccount(w: World, a: Address, amount: nat, b: Address)
    ensures Get(AddBalance(w, a, amount), b) ==
            if b == a then Get(w, b).(balance := Balance(w, b) + amount) else Get(w, b)
  {
  }

  lemma SettledAccount(ctx: Context, tx: Tx, written: World, used: nat, a: Address)
    requires used <= tx.gasLimit && ctx.header.baseFee <= tx.feeCap
    ensures Get(Settled(ctx, tx, written, used), a) ==
            Get(written, a).(balance := Balance(written, a) + CreditTo(ctx, tx, used, a))
  {
    var tip, refund := used * Tip(ctx, tx), Unused(tx, used) * Price(ctx, tx);
    AddedAccount(written, ctx.header.miner, tip, a);
    AddedAccount(AddBalance(written, ctx.header.miner, tip), tx.sender, refund, a);
    FeesInNumbers(ctx, tx);
    hide AddBalance, Tip, Price, Get;
  }

  /** Buying gas takes the gas limit at the purchase price from the sender and nothing else. */
  lemma BoughtAccount(ctx: Context, tx: Tx, w: World, a: Address)
    requires Affords(tx, w) && ctx.header.baseFee <= tx.feeCap
    ensures var cost := tx.gasLimit * (ctx.header.baseFee + Min(tx.tipCap, tx.feeCap - ctx.header.baseFee));
            && cost <= Balance(w, tx.sender)
            && Get(Bought(ctx, tx, w), a) ==
               if a == tx.sender then Get(w, a).(balance := Balance(w, a) - cost) else Get(w, a)
  {
    PurchaseFits(ctx, tx, w);
    FeesInNumbers(ctx, tx);
  }

  /** A successful run leaves every account as the interpreter's changes on the bought world leave
      it, with the tip and the refund added. */
  lemma SuccessfulRun(ctx: Context, tx: Tx, w: World, a: Address)
    requires Sound(ctx) && Execute(ctx, tx, w).Ran? && Execute(ctx, tx, w).success
    ensures ctx.header.baseFee <= tx.feeCap && Affords(tx, w)
    ensures var r, exit := Execute(ctx, tx, w), ctx.evm(ctx.header, tx, Bought(ctx, tx, w));
            && exit.Done? && exit.success && r.usedGas == exit.usedGas && r.logs == exit.logs
            && var written := ApplyChanges(Bought(ctx, tx, w), exit.changes);
               Get(r.world, a) == Get(written, a).(balance := Balance(written, a) + CreditTo(ctx, tx, r.usedGas, a))
  {
    var bought, exit, written := Stages(ctx, tx, w);
    SettledAccount(ctx, tx, written, exit.usedGas, a);
    hide Sound, Settled, Get, CreditTo, Execute;
  }

  /** What is written: after a successful run the address of a last change has what that change
      says, and with it the tip or the refund that is due there. */
  lemma RunWrites(ctx: Context, tx: Tx, w: World, i: nat)
    requires Sound(ctx) && Execute(ctx, tx, w).Ran? && Execute(ctx, tx, w).success && Affords(tx, w)
    requires var exit := ctx.evm(ctx.header, tx, Bought(ctx, tx, w)); exit.Done? && IsLast(exit.changes, i)
    ensures ctx.header.baseFee <= tx.feeCap
    ensures var r, c := Execute(ctx, tx, w), ctx.evm(ctx.header, tx, Bought(ctx, tx, w)).changes[i];
            var now, credit := Get(r.world, c.address), CreditTo(ctx, tx, r.usedGas, c.address);
            if c.Delete? then now == EMPTY.(balance := credit) else
              && now.balance == c.balance + credit && now.nonce == c.nonce
              && (c.code.Some? ==> now.code == c.code.value)
              && forall k :: k in c.storage ==> k in now.storage && now.storage[k] == c.storage[k]
  {
    var bought := Bought(ctx, tx, w);
    var exit := ctx.evm(ctx.header, tx, bought);
    SuccessfulRun(ctx, tx, w, exit.changes[i].address);
    LastChange(bought, exit.changes, i);
    hide Execute, Sound, CreditTo, ApplyChanges;
  }

  /** What is left alone: an account that no change names and that is neither sender nor miner. */
  lemma RunLeavesAlone(ctx: Context, tx: Tx, w: World, a: Address)
    requires Sound(ctx) && Execute(ctx, tx, w).Ran? && Execute(ctx, tx, w).success && Affords(tx, w)
    requires var exit := ctx.evm(ctx.header, tx, Bought(ctx, tx, w));
             exit.Done? && forall j :: 0 <= j < |exit.changes| ==> exit.changes[j].address != a
    requires a != tx.sender && a != ctx.header.miner
    ensures Get(Execute(ctx, tx, w).world, a) == Get(w, a)
  {
    var exit := ctx.evm(ctx.header, tx, Bought(ctx, tx, w));
    SuccessfulRun(ctx, tx, w, a);
    UnnamedKept(Bought(ctx, tx, w), exit.changes, a);
    BoughtAccount(ctx, tx, w, a);
    hide Execute, Sound, ApplyChanges;
  }

  lemma {:induction false} CallerNonceAccount(w: World, caller: Address, changes: seq<Change>, a: Address)
    ensures var r := ApplyCallerNonce(w, caller, changes);
            Get(r, a) == if a == caller then Get(w, a).(nonce := Nonce(r, caller)) else Get(w, a)
    decreases |changes|
  {
    if changes != [] {
      CallerNonceAccount(w, caller, changes[..|changes| - 1], a);
    }
  }

  /** A reverted run changes the sender's nonce, the sender's balance and the miner's, and nothing
      else of any account. */
  lemma RevertedRun(ctx: Context, tx: Tx, w: World, a: Address)
    requires Sound(ctx) && Execute(ctx, tx, w).Ran? && !Execute(ctx, tx, w).success
    ensures ctx.header.baseFee <= tx.feeCap
    ensures var r := Execute(ctx, tx, w);
            var paid := r.usedGas * (ctx.header.baseFee + Min(tx.tipCap, tx.feeCap - ctx.header.baseFee));
            var earned := r.usedGas * Min(tx.tipCap, tx.feeCap - ctx.header.baseFee);
            && Get(r.world, a).code == Get(w, a).code && Get(r.world, a).storage == Get(w, a).storage
            && Nonce(r.world, a) == (if a == tx.sender then tx.nonce + 1 else Nonce(w, a))
            && Balance(r.world, a) + (if a == tx.sender then paid else 0)
               == Balance(w, a) + (if a == ctx.header.miner then earned else 0)
  {
    var bought, exit, written := Stages(ctx, tx, w);
    SettledAccount(ctx, tx, written, exit.usedGas, a);
    BoughtAccount(ctx, tx, w, a);
    BoughtAccount(ctx, tx, w, tx.sender);
    CallerNonceAccount(bought, tx.sender, exit.changes, a);
    RevertedCost(ctx, tx, w, a);
    FeesInNumbers(ctx, tx);
    hide Sound, Execute, Settled, CreditTo, Bought, ApplyCallerNonce, Tip, Price;
  }

  /** The state database: the current world and the last flushed one. A state root names a
      flushed world, so roots are modelled by the worlds they name. */
  class StateDB {
    var world: World
    var flushed: World

    constructor (w: World)
      ensures world == w && flushed == w
    {
      world, flushed := w, w;
    }

    method Flush() returns (root: World)
      modifies this
      ensures world == old(world) && flushed == world && root == flushed
    {
      flushed := world;
      root := flushed;
    }

    /** Unflushed writes are dropped. */
    method Revert(root: World)
      modifies this
      ensures world == root && flushed == root
    {
      world, flushed := root, root;
    }
  }

  class Executor {
    const ctx: Context
    const tx: Tx
    const db: StateDB
    const gasPrice: nat
    var gas: nat

    constructor (ctx: Context, tx: Tx, db: StateDB)
      ensures this.ctx == ctx && this.tx == tx && this.db == db && gas == 0
      ensures gasPrice == Price(ctx, tx)
    {
      this.ctx, this.tx, this.db := ctx, tx, db;
      gas := 0;
      gasPrice := GasPrice(tx, ctx.header.baseFee);
    }

    /** With `tryGet` the nonce is only consulted when it is already cached. */
    method CheckNonce(tryGet: bool, cached: bool) returns (e: Option<ExecError>)
      ensures e.None? <==> (tryGet && !cached) || Nonce(db.world, tx.sender) == tx.nonce
      ensures e == Some(NonceTooLow) <==> !(tryGet && !cached) && tx.nonce < Nonce(db.world, tx.sender)
      ensures e.Some? && e.value != NonceTooLow ==> e.value == NonceTooHigh(Nonce(db.world, tx.sender), tx.nonce)
    {
      if tryGet && !cached {
        return None;
      }
      var nonce := Nonce(db.world, tx.sender);
      if nonce == tx.nonce {
        e := None;
      } else if nonce > tx.nonce {
        e := Some(NonceTooLow);
      } else {
        e := Some(NonceTooHigh(nonce, tx.nonce));
      }
    }

    method BuyGas() returns (e: Option<ExecError>)
      requires gasPrice == Price(ctx, tx)
      modifies this, db
      ensures db.flushed == old(db.flushed)
      ensures Affords(tx, old(db.world)) ==>
              e.None? && gas == old(gas) + tx.gasLimit && db.world == Bought(ctx, tx, old(db.world))
      ensures !Affords(tx, old(db.world)) ==>
              e == Some(InsufficientFunds) && gas == old(gas) && db.world == old(db.world)
    {
      var cost := tx.gasLimit * gasPrice;
      var needed := tx.gasLimit * tx.feeCap + tx.value;
      if Balance(db.world, tx.sender) < needed {
        return Some(InsufficientFunds);
      }
      gas := gas + tx.gasLimit;
      PurchaseFits(ctx, tx, db.world);
      db.world := SubBalance(db.world, tx.sender, cost);
      e := None;
    }

    method RefundGas()
      modifies db
      ensures db.flushed == old(db.flushed)
      ensures db.world == AddBalance(old(db.world), tx.sender, gas * gasPrice)
    {
      db.world := AddBalance(db.world, tx.sender, gas * gasPrice);
    }

    /** The writes of a successful run, or the caller nonce of a reverted one. */
    method Write(exit: Exit)
      requires exit.Done?
      modifies db
      ensures db.flushed == old(db.flushed) && db.world == Written(tx, old(db.world), exit)
    {
      ghost var before := db.world;
      var i := 0;
      while i < |exit.changes|
        invariant i <= |exit.changes| && db.flushed == old(db.flushed)
        invariant db.world == Written(tx, before, exit.(changes := exit.changes[..i]))
      {
        assert exit.changes[..i + 1][..i] == exit.changes[..i];
        var change := exit.changes[i];
        if exit.success {
          db.world := ApplyChange(db.world, change);
        } else if change.Modify? && change.address == tx.sender {
          db.world := SetNonce(db.world, tx.sender, change.nonce);
        }
        i := i + 1;
      }
      assert exit.changes[..i] == exit.changes;
    }

    /** Runs the transaction. An error leaves the database untouched, also after gas was bought
        and refunded in full for an unsupported transaction. `cached` only decides which of two
        reasons is given for a transaction under the base fee. */
    method Run(cached: bool) returns (r: Outcome)
      requires Sound(ctx) && gas == 0 && gasPrice == Price(ctx, tx)
      modifies this, db
      ensures db.flushed == old(db.flushed)
      ensures r.Failed? ==> db.world == old(db.world)
      ensures r.Ran? ==> db.world == r.world
      ensures ctx.header.baseFee <= tx.feeCap || !cached ==> r == Execute(ctx, tx, old(db.world))
      ensures tx.feeCap < ctx.header.baseFee && cached ==>
              r == Failed(if tx.nonce < Nonce(old(db.world), tx.sender) then NonceTooLow
                          else if Nonce(old(db.world), tx.sender) < tx.nonce
                          then NonceTooHigh(Nonce(old(db.world), tx.sender), tx.nonce) else InsufficientBaseFee)
    {
      ExecuteBeforeBuying(ctx, tx, db.world);
      hide Sound, Execute, Bought, Price, Affords;
      var e := CheckNonce(true, cached);
      if e.Some? {
        return Failed(e.value);
      }
      if ctx.header.baseFee > tx.feeCap {
        return Failed(InsufficientBaseFee);
      }
      e := CheckNonce(false, cached);
      if e.Some? {
        return Failed(e.value);
      }
      e := BuyGas();
      if e.Some? {
        return Failed(e.value);
      }
      r := Interpret(old(db.world));
    }

    /** What follows once gas is bought on the world `w`. */
    method Interpret(ghost w: World) returns (r: Outcome)
      requires Sound(ctx) && gasPrice == Price(ctx, tx) && ctx.header.baseFee <= tx.feeCap
      requires Nonce(w, tx.sender) == tx.nonce
      requires Affords(tx, w) && gas == tx.gasLimit && db.world == Bought(ctx, tx, w)
      modifies this, db
      ensures db.flushed == old(db.flushed) && r == Execute(ctx, tx, w)
      ensures db.world == if r.Ran? then r.world else w
    {
      hide *;
      ExecuteAfterBuying(ctx, tx, w);
      var exit := ctx.evm(ctx.header, tx, db.world);
      if exit.NotSupported? {
        RefundGas();
        return Failed(ExecError.NotSupported);
      }
      gas := gas - exit.usedGas;
      Write(exit);
      var fee := exit.usedGas * Tip(ctx, tx);
      db.world := AddBalance(db.world, ctx.header.miner, fee);
      RefundGas();
      r := Ran(db.world, exit.success, exit.usedGas, exit.logs);
    }
  }
}
