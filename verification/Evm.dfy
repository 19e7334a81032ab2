/** The EVM interpreter by contract. It is a function value carried in `Context`; `Sound` is
    everything the builder relies on, and `TransferEvm` shows the contract can be met. */
module Evm {
  import opened Chain
  import opened World

  /** One entry of the interpreter's final change set. */
  datatype Change =
    | Modify(address: Address, balance: nat, nonce: nat, code: Option<seq<nat>>, storage: map<nat, nat>, reset: bool)
    | Delete(address: Address)

  datatype Exit =
    | NotSupported
    | Done(success: bool, usedGas: nat, changes: seq<Change>, logs: seq<nat>)

  /** `eoas` are the accounts owned by a key; only these sign transactions. */
  datatype Context = Context(header: Header, evm: (Header, Tx, World) -> Exit, eoas: set<Address>)

  function ApplyChange(w: World, change: Change): World {
    match change
    case Delete(a) => w - {a}
    case Modify(a, balance, nonce, code, storage, reset) =>
      var kept := if reset then w - {a} else w;
      var was := Get(kept, a);
      kept[a := Account(balance, nonce, if code.Some? then code.value else was.code, was.storage + storage)]
  }

  /** All changes, in order. */
  function ApplyChanges(w: World, changes: seq<Change>): World
    decreases |changes|
  {
    if changes == [] then w else
      var last := |changes| - 1;
      ApplyChange(ApplyChanges(w, changes[..last]), changes[last])
  }

  /** `changes[i]` is the last change of its address. */
  ghost predicate IsLast(changes: seq<Change>, i: nat) {
    i < |changes| && forall j :: i < j < |changes| ==> changes[j].address != changes[i].address
  }

  lemma ChangesStep(w: World, changes: seq<Change>)
    requires changes != []
    ensures var last := |changes| - 1;
            ApplyChanges(w, changes) == ApplyChange(ApplyChanges(w, changes[..last]), changes[last])
  {
  }

  lemma ChangeElsewhere(w: World, change: Change, a: Address)
    requires change.address != a
    ensures Get(ApplyChange(w, change), a) == Get(w, a)
  {
  }

  /** An account that no change names is kept whole. */
  lemma {:induction false} UnnamedKept(w: World, changes: seq<Change>, a: Address)
    requires forall j :: 0 <= j < |changes| ==> changes[j].address != a
    ensures Get(ApplyChanges(w, changes), a) == Get(w, a)
    decreases |changes|
  {
    hide ApplyChange;
    if changes != [] {
      var last := |changes| - 1;
      UnnamedKept(w, changes[..last], a);
      ChangeElsewhere(ApplyChanges(w, changes[..last]), changes[last], a);
    }
  }

  /** After all changes an account is what its last change makes of it. */
  lemma {:induction false} LastDecides(w: World, changes: seq<Change>, i: nat)
    requires IsLast(changes, i)
    ensures Get(ApplyChanges(w, changes), changes[i].address) ==
            Get(ApplyChanges(w, changes[..i + 1]), changes[i].address)
    decreases |changes|
  {
    hide ApplyChange;
    var last := |changes| - 1;
    if i == last {
      assert changes[..i + 1] == changes;
    } else {
      var init := changes[..last];
      assert init[i] == changes[i] && init[..i + 1] == changes[..i + 1];
      assert IsLast(init, i) by {
        assert forall j :: i < j < |init| ==> init[j] == changes[j];
      }
      LastDecides(w, init, i);
      ChangeElsewhere(ApplyChanges(w, init), changes[last], changes[i].address);
    }
  }

  /** What the last change of an address leaves there. A deleted account reads as empty. A modified
      one has the balance and the nonce given, the code if one is given, and every storage value
      listed; other code and storage is what the changes before left, or nothing after a reset. */
  lemma LastChange(w: World, changes: seq<Change>, i: nat)
    requires IsLast(changes, i)
    ensures var c, before, after := changes[i], ApplyChanges(w, changes[..i]), ApplyChanges(w, changes);
            var was, now := Get(before, c.address), Get(after, c.address);
            if c.Delete? then now == EMPTY else
              && now.balance == c.balance && now.nonce == c.nonce
              && now.code == (if c.code.Some? then c.code.value else if c.reset then [] else was.code)
              && (forall k :: k in c.storage ==> k in now.storage && now.storage[k] == c.storage[k])
              && (forall k :: k !in c.storage ==> (k in now.storage <==> !c.reset && k in was.storage))
              && (forall k :: k !in c.storage && k in now.storage ==> now.storage[k] == was.storage[k])
  {
    LastDecides(w, changes, i);
    var upTo := changes[..i + 1];
    assert upTo[..i] == changes[..i] && upTo[i] == changes[i];
    ChangesStep(w, upTo);
  }

  /** What survives of a reverted execution: the nonce of the caller. */
  function ApplyCallerNonce(w: World, caller: Address, changes: seq<Change>): World
    decreases |changes|
  {
    if changes == [] then w else
      var last := |changes| - 1;
      var before := ApplyCallerNonce(w, caller, changes[..last]);
      if changes[last].Modify? && changes[last].address == caller
      then SetNonce(before, caller, changes[last].nonce) else before
  }

  /** The most an execution of `tx` may take from the key-owned account `a`. */
  function Spend(tx: Tx, a: Address): nat { if a == tx.sender then tx.value else 0 }

  ghost predicate EoasKept(ctx: Context, tx: Tx, before: World, after: World) {
    && (forall a :: a in ctx.eoas ==> Balance(before, a) <= Balance(after, a) + Spend(tx, a))
    && (forall a :: a in ctx.eoas && a != tx.sender ==> Nonce(after, a) == Nonce(before, a))
  }

  /** Gas stays within the limit, the caller nonce goes up by one, ether is conserved, and
      key-owned accounts lose at most the value they send. `w` has the gas already bought. */
  ghost predicate SoundAt(ctx: Context, tx: Tx, w: World) {
    match ctx.evm(ctx.header, tx, w)
    case NotSupported => true
    case Done(success, used, changes, _) =>
      && used <= tx.gasLimit
      && Nonce(ApplyCallerNonce(w, tx.sender, changes), tx.sender) == tx.nonce + 1
      && (success ==>
            var after := ApplyChanges(w, changes);
            && Total(after) == Total(w)
            && Nonce(after, tx.sender) == tx.nonce + 1
            && EoasKept(ctx, tx, w, after))
  }

  /** The interpreter is only ever started on an account whose nonce matches. */
  ghost predicate Sound(ctx: Context) {
    forall tx: Tx, w: World | Nonce(w, tx.sender) == tx.nonce && tx.value <= Balance(w, tx.sender) ::
      SoundAt(ctx, tx, w)
  }

  /** Plain value transfer, burning the whole gas limit of a transaction that creates code. */
  function TransferEvm(header: Header, tx: Tx, w: World): Exit {
    if tx.value > Balance(w, tx.sender) || tx.to.None? then
      Done(false, tx.gasLimit, [Modify(tx.sender, 0, tx.nonce + 1, None, map[], false)], [])
    else
      var debited := Modify(tx.sender, Balance(w, tx.sender) - tx.value, tx.nonce + 1, None, map[], false);
      var mid := ApplyChange(w, debited);
      var to := tx.to.value;
      Done(true, Min(21000, tx.gasLimit),
           [debited, Modify(to, Balance(mid, to) + tx.value, Nonce(mid, to), None, map[], false)], [])
  }

  /** The world after a plain transfer: the sender debited, then the recipient credited. */
  function Debited(tx: Tx, w: World): World
    requires tx.value <= Balance(w, tx.sender)
  {
    ApplyChange(w, Modify(tx.sender, Balance(w, tx.sender) - tx.value, tx.nonce + 1, None, map[], false))
  }

  function Credited(w: World, to: Address, value: nat): World {
    ApplyChange(w, Modify(to, Balance(w, to) + value, Nonce(w, to), None, map[], false))
  }

  lemma DebitMoves(tx: Tx, w: World, a: Address)
    requires tx.value <= Balance(w, tx.sender)
    ensures var mid := Debited(tx, w);
            && Total(mid) == Total(w) - tx.value
            && Balance(mid, a) + Spend(tx, a) >= Balance(w, a)
            && Nonce(mid, a) == if a == tx.sender then tx.nonce + 1 else Nonce(w, a)
  {
    TotalUpdate(w, tx.sender, Debited(tx, w)[tx.sender]);
    hide Total;
  }

  lemma CreditMoves(w: World, to: Address, value: nat, a: Address)
    ensures var after := Credited(w, to, value);
            Total(after) == Total(w) + value && Balance(after, a) >= Balance(w, a) && Nonce(after, a) == Nonce(w, a)
  {
    TotalUpdate(w, to, Credited(w, to, value)[to]);
    hide Total;
  }

  lemma TransferMoves(tx: Tx, w: World)
    requires tx.to.Some? && tx.value <= Balance(w, tx.sender)
    ensures var after := Credited(Debited(tx, w), tx.to.value, tx.value);
            && Total(after) == Total(w) && Nonce(after, tx.sender) == tx.nonce + 1
            && (forall a :: Balance(w, a) <= Balance(after, a) + Spend(tx, a))
            && (forall a :: a != tx.sender ==> Nonce(after, a) == Nonce(w, a))
  {
    hide *;
    DebitMoves(tx, w, tx.sender);
    CreditMoves(Debited(tx, w), tx.to.value, tx.value, tx.sender);
    forall a
      ensures Balance(w, a) <= Balance(Credited(Debited(tx, w), tx.to.value, tx.value), a) + Spend(tx, a)
      ensures a != tx.sender ==> Nonce(Credited(Debited(tx, w), tx.to.value, tx.value), a) == Nonce(w, a)
    {
      DebitMoves(tx, w, a);
      CreditMoves(Debited(tx, w), tx.to.value, tx.value, a);
    }
  }

  lemma TwoChanges(w: World, a: Change, b: Change, caller: Address)
    requires a.Modify? && a.address == caller && b.Modify?
    ensures ApplyChanges(w, [a, b]) == ApplyChange(ApplyChange(w, a), b)
    ensures Nonce(ApplyCallerNonce(w, caller, [a, b]), caller) == if b.address == caller then b.nonce else a.nonce
    ensures Nonce(ApplyCallerNonce(w, caller, [a]), caller) == a.nonce
  {
    assert [a, b][..1] == [a] && [a][..0] == [];
    assert ApplyChanges(w, [a]) == ApplyChange(w, a);
    assert ApplyCallerNonce(w, caller, [a]) == SetNonce(w, caller, a.nonce);
  }

  lemma TransferIsSound(ctx: Context, tx: Tx, w: World)
    requires ctx.evm == TransferEvm && Nonce(w, tx.sender) == tx.nonce && tx.value <= Balance(w, tx.sender)
    ensures SoundAt(ctx, tx, w)
  {
    hide ApplyChanges, ApplyCallerNonce, ApplyChange, Total;
    var exit := TransferEvm(ctx.header, tx, w);
    if exit.success {
      TwoChanges(w, exit.changes[0], exit.changes[1], tx.sender);
      TransferMoves(tx, w);
      SenderNonceSet(w, tx);
    } else {
      TwoChanges(w, exit.changes[0], exit.changes[0], tx.sender);
    }
  }

  lemma SenderNonceSet(w: World, tx: Tx)
    requires tx.value <= Balance(w, tx.sender)
    ensures Nonce(Debited(tx, w), tx.sender) == tx.nonce + 1
  {
  }

  /** The contract is not vacuous. */
  lemma TransferEvmIsSound(header: Header, eoas: set<Address>)
    ensures Sound(Context(header, TransferEvm, eoas))
  {
    var ctx := Context(header, TransferEvm, eoas);
    forall tx: Tx, w: World | Nonce(w, tx.sender) == tx.nonce && tx.value <= Balance(w, tx.sender)
      ensures SoundAt(ctx, tx, w)
    {
      TransferIsSound(ctx, tx, w);
    }
  }
}
