/** What a list of transactions means on top of a parent state, independently of how a block
    was assembled: the state and the receipts of executing exactly these, in order. Replay is
    defined over any step function; `StepOf` is the executor's. */
module BlockReplay {
  import opened Chain
  import opened World
  import opened Evm
  import opened Executor

  datatype Receipt = Receipt(success: bool, txHash: Hash, index: nat, gasUsed: nat, cumulativeGas: nat, logs: seq<nat>)

  datatype Replayed = Invalid | Built(world: World, receipts: seq<Receipt>)

  type Step = (Tx, World) -> Outcome

  ghost function StepOf(ctx: Context): Step { (tx: Tx, w: World) => Execute(ctx, tx, w) }

  function GasSum(receipts: seq<Receipt>): nat {
    if receipts == [] then 0 else GasSum(receipts[..|receipts| - 1]) + receipts[|receipts| - 1].gasUsed
  }

  /** The receipt of a transaction placed at `index` after `gasBefore` gas was used. */
  function ReceiptOf(tx: Tx, index: nat, gasBefore: nat, success: bool, used: nat, logs: seq<nat>): Receipt {
    Receipt(success, tx.hash, index, used, gasBefore + used, logs)
  }

  function Extend(before: Replayed, tx: Tx, outcome: Outcome): Replayed {
    if before.Invalid? || outcome.Failed? then Invalid else
      Built(outcome.world,
            before.receipts + [ReceiptOf(tx, |before.receipts|, GasSum(before.receipts), outcome.success,
                                         outcome.usedGas, outcome.logs)])
  }

  function Replay(step: Step, parent: World, txs: seq<Tx>): Replayed
    decreases |txs|
  {
    if txs == [] then Built(parent, []) else
      var before := Replay(step, parent, txs[..|txs| - 1]);
      var last := txs[|txs| - 1];
      if before.Invalid? then Invalid else Extend(before, last, step(last, before.world))
  }

  lemma ReplayPush(step: Step, parent: World, txs: seq<Tx>, tx: Tx)
    requires Replay(step, parent, txs).Built?
    ensures var before := Replay(step, parent, txs);
            Replay(step, parent, txs + [tx]) == Extend(before, tx, step(tx, before.world))
  {
    assert (txs + [tx])[..|txs|] == txs;
  }

  lemma GasSumPush(receipts: seq<Receipt>, r: Receipt)
    ensures GasSum(receipts + [r]) == GasSum(receipts) + r.gasUsed
  {
    assert (receipts + [r])[..|receipts|] == receipts;
  }

  /** Front-to-back execution, keeping only the state. */
  function RunForward(step: Step, w: World, txs: seq<Tx>): Option<World>
    decreases |txs|
  {
    if txs == [] then Some(w)
    else if step(txs[0], w).Failed? then None
    else RunForward(step, step(txs[0], w).world, txs[1..])
  }

  lemma {:induction false} RunForwardPush(step: Step, w: World, txs: seq<Tx>, tx: Tx)
    ensures RunForward(step, w, txs + [tx]) ==
            match RunForward(step, w, txs)
            case None => None
            case Some(v) => if step(tx, v).Failed? then None else Some(step(tx, v).world)
    decreases |txs|
  {
    if txs == [] {
      assert ([] + [tx])[1..] == [];
    } else {
      assert (txs + [tx])[1..] == txs[1..] + [tx];
      if step(txs[0], w).Ran? {
        RunForwardPush(step, step(txs[0], w).world, txs[1..], tx);
      }
    }
  }

  /** The incremental replay a builder keeps agrees with executing the block front to back. */
  lemma {:induction false} ReplayIsForward(step: Step, parent: World, txs: seq<Tx>)
    ensures RunForward(step, parent, txs) ==
            match Replay(step, parent, txs) case Invalid => None case Built(w, _) => Some(w)
    decreases |txs|
  {
    if txs != [] {
      var init, last := txs[..|txs| - 1], txs[|txs| - 1];
      assert txs == init + [last];
      ReplayIsForward(step, parent, init);
      RunForwardPush(step, parent, init, last);
    }
  }

  /** Every prefix of a valid block is a valid block, with the corresponding receipts. */
  lemma {:induction false} ReplayPrefix(step: Step, parent: World, txs: seq<Tx>, k: nat)
    requires Replay(step, parent, txs).Built? && k <= |txs|
    ensures var r := Replay(step, parent, txs);
            var p := Replay(step, parent, txs[..k]);
            && |r.receipts| == |txs| && p.Built? && p.receipts == r.receipts[..k]
    decreases |txs|
  {
    if txs == [] {
    } else if k == |txs| {
      assert txs[..k] == txs;
      ReplayPrefix(step, parent, txs[..k - 1], k - 1);
    } else {
      assert txs[..|txs| - 1][..k] == txs[..k];
      ReplayPrefix(step, parent, txs[..|txs| - 1], k);
    }
  }

  lemma {:induction false} ReplayLength(step: Step, parent: World, txs: seq<Tx>)
    requires Replay(step, parent, txs).Built?
    ensures |Replay(step, parent, txs).receipts| == |txs|
    decreases |txs|
  {
    if txs != [] {
      ReplayLength(step, parent, txs[..|txs| - 1]);
    }
  }

  lemma LastReceipt(step: Step, parent: World, txs: seq<Tx>)
    requires Replay(step, parent, txs).Built? && txs != []
    ensures var r := Replay(step, parent, txs); var k := |txs| - 1;
            var p := Replay(step, parent, txs[..k]);
            && p.Built? && |r.receipts| == |txs|
            && var run := step(txs[k], p.world);
               && run.Ran?
               && r.receipts[k] == Receipt(run.success, txs[k].hash, k, run.usedGas, GasSum(r.receipts), run.logs)
  {
    var k := |txs| - 1;
    var p, r := Replay(step, parent, txs[..k]), Replay(step, parent, txs);
    ReplayLength(step, parent, txs[..k]);
    var run := step(txs[k], p.world);
    assert r == Extend(p, txs[k], run);
    GasSumPush(p.receipts, r.receipts[k]);
  }

  /** In a valid block, transaction `k` ran on the state its predecessors left, and its receipt
      carries its hash, its position, its gas and the running total of gas. */
  lemma ReceiptAt(step: Step, parent: World, txs: seq<Tx>, k: nat)
    requires Replay(step, parent, txs).Built? && k < |txs|
    ensures var receipts := Replay(step, parent, txs).receipts;
            var p := Replay(step, parent, txs[..k]);
            && |receipts| == |txs| && p.Built?
            && var run := step(txs[k], p.world);
               && run.Ran?
               && receipts[k] == Receipt(run.success, txs[k].hash, k, run.usedGas, GasSum(receipts[..k + 1]), run.logs)
  {
    ReplayPrefix(step, parent, txs, k + 1);
    assert txs[..k + 1][..k] == txs[..k];
    LastReceipt(step, parent, txs[..k + 1]);
    assert Replay(step, parent, txs).receipts[..k + 1][k] == Replay(step, parent, txs).receipts[k];
  }

  lemma Distribute(a: nat, b: nat, c: nat)
    ensures (a + b) * c == a * c + b * c
  {
  }

  ghost predicate Burns(step: Step, baseFee: nat) {
    forall tx: Tx, w: World :: step(tx, w).Ran? ==> Total(step(tx, w).world) + step(tx, w).usedGas * baseFee == Total(w)
  }

  lemma {:induction false} ConservationOver(step: Step, baseFee: nat, parent: World, txs: seq<Tx>)
    requires Burns(step, baseFee) && Replay(step, parent, txs).Built?
    ensures var r := Replay(step, parent, txs);
            Total(r.world) + GasSum(r.receipts) * baseFee == Total(parent)
    decreases |txs|
  {
    if txs != [] {
      var init, last := txs[..|txs| - 1], txs[|txs| - 1];
      ConservationOver(step, baseFee, parent, init);
      var p := Replay(step, parent, init);
      ExtendConserves(p, last, step(last, p.world), baseFee);
    }
  }

  lemma ExtendConserves(p: Replayed, tx: Tx, run: Outcome, baseFee: nat)
    requires p.Built? && run.Ran? && Total(run.world) + run.usedGas * baseFee == Total(p.world)
    ensures var r := Extend(p, tx, run);
            Total(r.world) + GasSum(r.receipts) * baseFee == Total(p.world) + GasSum(p.receipts) * baseFee
  {
    var r := Extend(p, tx, run);
    GasSumPush(p.receipts, r.receipts[|p.receipts|]);
    Distribute(GasSum(p.receipts), run.usedGas, baseFee);
  }

  /** Conservation over a whole block: building burns gas used times base fee, and only that. */
  lemma BlockConservation(ctx: Context, parent: World, txs: seq<Tx>)
    requires Sound(ctx) && Replay(StepOf(ctx), parent, txs).Built?
    ensures var r := Replay(StepOf(ctx), parent, txs);
            Total(r.world) + GasSum(r.receipts) * ctx.header.baseFee == Total(parent)
  {
    var step := StepOf(ctx);
    forall tx: Tx, w: World | step(tx, w).Ran?
      ensures Total(step(tx, w).world) + step(tx, w).usedGas * ctx.header.baseFee == Total(w)
    {
      EtherAccounting(ctx, tx, w);
    }
    ConservationOver(step, ctx.header.baseFee, parent, txs);
  }

  /** How many of `txs` were sent by `a`. */
  function SentBy(txs: seq<Tx>, a: Address): nat
    decreases |txs|
  {
    if txs == [] then 0 else
      SentBy(txs[..|txs| - 1], a) + (if txs[|txs| - 1].sender == a then 1 else 0)
  }

  /** A step needs the sender's nonce, and moves nobody else's, for the accounts in `eoas`. */
  ghost predicate CountsNonces(step: Step, eoas: set<Address>) {
    forall tx: Tx, w: World :: step(tx, w).Ran? ==>
      && tx.nonce == Nonce(w, tx.sender)
      && forall a :: a in eoas ==> Nonce(step(tx, w).world, a) == Nonce(w, a) + (if a == tx.sender then 1 else 0)
  }

  lemma {:induction false} NonceCounts(step: Step, eoas: set<Address>, parent: World, txs: seq<Tx>, a: Address)
    requires CountsNonces(step, eoas) && Replay(step, parent, txs).Built? && a in eoas
    ensures Nonce(Replay(step, parent, txs).world, a) == Nonce(parent, a) + SentBy(txs, a)
    decreases |txs|
  {
    if txs != [] {
      NonceCounts(step, eoas, parent, txs[..|txs| - 1], a);
    }
  }

  lemma {:induction false} SentByGrows(txs: seq<Tx>, i: nat, j: nat)
    requires i < j <= |txs|
    ensures SentBy(txs[..i], txs[i].sender) < SentBy(txs[..j], txs[i].sender)
    decreases j
  {
    assert txs[..j][..j - 1] == txs[..j - 1];
    if i < j - 1 {
      SentByGrows(txs, i, j - 1);
    }
  }

  lemma StepCountsNonces(ctx: Context, tx: Tx, w: World)
    requires Sound(ctx) && Execute(ctx, tx, w).Ran?
    ensures tx.nonce == Nonce(w, tx.sender)
    ensures forall a :: a in ctx.eoas ==>
            Nonce(Execute(ctx, tx, w).world, a) == Nonce(w, a) + (if a == tx.sender then 1 else 0)
  {
    var bought, exit, written := Stages(ctx, tx, w);
    forall a | a in ctx.eoas
      ensures Nonce(Execute(ctx, tx, w).world, a) == Nonce(w, a) + (if a == tx.sender then 1 else 0)
    {
      EoaEffect(ctx, tx, w, a);
    }
  }

  lemma ExecutorCountsNonces(ctx: Context)
    requires Sound(ctx)
    ensures CountsNonces(StepOf(ctx), ctx.eoas)
  {
    var step := StepOf(ctx);
    forall tx: Tx, w: World | step(tx, w).Ran?
      ensures tx.nonce == Nonce(w, tx.sender)
      ensures forall a :: a in ctx.eoas ==>
              Nonce(step(tx, w).world, a) == Nonce(w, a) + (if a == tx.sender then 1 else 0)
    {
      StepCountsNonces(ctx, tx, w);
    }
  }

  /** In every valid block each sender's nonces are consecutive from its parent nonce, so no
      transaction is included twice. */
  lemma NonceDiscipline(ctx: Context, parent: World, txs: seq<Tx>)
    requires Sound(ctx) && Replay(StepOf(ctx), parent, txs).Built?
    requires forall i :: 0 <= i < |txs| ==> txs[i].sender in ctx.eoas
    ensures forall i :: 0 <= i < |txs| ==>
            txs[i].nonce == Nonce(parent, txs[i].sender) + SentBy(txs[..i], txs[i].sender)
    ensures forall i, j :: 0 <= i < j < |txs| ==> txs[i] != txs[j]
  {
    var step := StepOf(ctx);
    ExecutorCountsNonces(ctx);
    forall i | 0 <= i < |txs|
      ensures txs[i].nonce == Nonce(parent, txs[i].sender) + SentBy(txs[..i], txs[i].sender)
    {
      ReceiptAt(step, parent, txs, i);
      NonceCounts(step, ctx.eoas, parent, txs[..i], txs[i].sender);
    }
    forall i, j | 0 <= i < j < |txs|
      ensures txs[i] != txs[j]
    {
      SentByGrows(txs, i, j);
    }
  }
}
