/** Accounts, balances, and the total of all balances. */
module World {
  import opened Chain

  datatype Account = Account(balance: nat, nonce: nat, code: seq<nat>, storage: map<nat, nat>)

  /** An absent account reads as `EMPTY`. */
  type World = map<Address, Account>

  const EMPTY := Account(0, 0, [], map[])

  function Get(w: World, a: Address): Account { if a in w then w[a] else EMPTY }

  function Balance(w: World, a: Address): nat { Get(w, a).balance }

  function Nonce(w: World, a: Address): nat { Get(w, a).nonce }

  /** Adding nothing touches nothing. */
  function AddBalance(w: World, a: Address, amount: nat): World {
    if amount == 0 then w else w[a := Get(w, a).(balance := Balance(w, a) + amount)]
  }

  function SubBalance(w: World, a: Address, amount: nat): World
    requires amount <= Balance(w, a)
  {
    if amount == 0 then w else w[a := Get(w, a).(balance := Balance(w, a) - amount)]
  }

  function SetNonce(w: World, a: Address, nonce: nat): World { w[a := Get(w, a).(nonce := nonce)] }

  /** The total of all balances. */
  ghost function Total(w: World): nat
    decreases |w|
  {
    if w == map[] then 0 else
      var a :| a in w;
      w[a].balance + Total(w - {a})
  }

  lemma {:induction false} TotalWithout(w: World, a: Address)
    requires a in w
    ensures Total(w) == w[a].balance + Total(w - {a})
    decreases |w|
  {
    var b :| b in w && Total(w) == w[b].balance + Total(w - {b});
    if b != a {
      TotalWithout(w - {b}, a);
      TotalWithout(w - {a}, b);
      assert w - {a} - {b} == w - {b} - {a};
    }
  }

  /** Rewriting one account moves the total by that account's change and nothing else. */
  lemma TotalUpdate(w: World, a: Address, account: Account)
    ensures Total(w[a := account]) == Total(w) - Balance(w, a) + account.balance
  {
    var w' := w[a := account];
    TotalWithout(w', a);
    if a in w {
      TotalWithout(w, a);
      assert w' - {a} == w - {a};
    } else {
      assert w' - {a} == w;
    }
  }

  lemma TotalAdd(w: World, a: Address, amount: nat)
    ensures Total(AddBalance(w, a, amount)) == Total(w) + amount
  {
    TotalUpdate(w, a, Get(w, a).(balance := Balance(w, a) + amount));
  }

  lemma TotalSub(w: World, a: Address, amount: nat)
    requires amount <= Balance(w, a)
    ensures Total(SubBalance(w, a, amount)) == Total(w) - amount
  {
    TotalUpdate(w, a, Get(w, a).(balance := Balance(w, a) - amount));
  }

  /** Giving back exactly what was taken restores the world, also for an absent account. */
  lemma SubThenAdd(w: World, a: Address, amount: nat)
    requires amount <= Balance(w, a)
    ensures AddBalance(SubBalance(w, a, amount), a, amount) == w
  {
    if amount > 0 {
      assert a in w;
      assert AddBalance(SubBalance(w, a, amount), a, amount) == w[a := w[a]];
    }
  }
}
