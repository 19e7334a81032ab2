/** Values shared by every part of the builder: transactions, headers and fee rules.
    Hashes and addresses are compared as big-endian numbers, so they are modelled as
    natural numbers. `sender` is the account the signature recovers to. */
module Chain {
  type Address = nat
  type Hash = nat

  datatype Option<+T> = None | Some(value: T)

  datatype Tx = Tx(
    hash: Hash,
    sender: Address,
    nonce: nat,
    gasLimit: nat,
    feeCap: nat,
    tipCap: nat,
    to: Option<Address>,
    value: nat,
    input: seq<nat>)

  datatype Header = Header(number: nat, timestamp: nat, gasLimit: nat, baseFee: nat, miner: Address)

  /** A transaction as the pools hold it; bundles may allow it to revert. */
  datatype PoolTx = PoolTx(tx: Tx, allowRevert: bool)

  function Min(a: int, b: int): int { if a <= b then a else b }

  function Max(a: int, b: int): int { if a >= b then a else b }

  /** The tip a transaction leaves the miner; `None` when its fee cap is under the base fee. */
  function EffectiveGasTip(tx: Tx, baseFee: Option<nat>): Option<nat> {
    match baseFee
    case None => Some(tx.tipCap)
    case Some(base) => if tx.feeCap < base then None else Some(Min(tx.tipCap, tx.feeCap - base))
  }

  /** Whether a transaction covers the base fee, if there is one. */
  predicate CanPay(tx: Tx, baseFee: Option<nat>) { EffectiveGasTip(tx, baseFee).Some? }

  /** The tip of a transaction that covers the base fee. */
  function MinerTip(tx: Tx, baseFee: nat): nat
    requires CanPay(tx, Some(baseFee))
  {
    EffectiveGasTip(tx, Some(baseFee)).value
  }

  /** The price per unit of gas at which gas is bought and refunded. */
  function GasPrice(tx: Tx, baseFee: nat): nat { Min(tx.feeCap, baseFee + tx.tipCap) }

  const TWO_64: nat := 0x1_0000_0000_0000_0000

  /** Unsigned 64-bit arithmetic as the release profile performs it (overflow checks off). */
  function Sub64(a: nat, b: nat): nat { (a - b) % TWO_64 }

  function Add64(a: nat, b: nat): nat { (a + b) % TWO_64 }

  lemma ProductMonotone(a: nat, b: nat, c: nat)
    requires a <= b
    ensures a * c <= b * c
  {
  }

  lemma Associate<T>(a: seq<T>, b: seq<T>, c: seq<T>)
    ensures a + (b + c) == a + b + c
  {
  }
}
