/** Pending transactions by price and nonce: one head per sender in an ordered set, the rest
    of each sender's transactions waiting behind it. */
module PriceHeads {
  import opened Chain
  import opened Merge

  datatype Head = Head(tx: Tx, minerFee: nat)

  /** The order of the set: greater fee first, then greater hash. */
  predicate Ahead(x: Head, y: Head) {
    x.minerFee > y.minerFee || (x.minerFee == y.minerFee && x.tx.hash > y.tx.hash)
  }

  predicate SameKey(x: Head, y: Head) { x.minerFee == y.minerFee && x.tx.hash == y.tx.hash }

  ghost predicate Sorted(heads: seq<Head>) {
    forall i, j :: 0 <= i < j < |heads| ==> Ahead(heads[i], heads[j])
  }

  /** Insertion into the ordered set; an equal key is already there. */
  function Insert(heads: seq<Head>, h: Head): seq<Head> {
    if heads == [] then [h]
    else if SameKey(heads[0], h) then heads
    else if Ahead(heads[0], h) then [heads[0]] + Insert(heads[1..], h)
    else [h] + heads
  }

  lemma {:induction false} InsertSorted(heads: seq<Head>, h: Head)
    requires Sorted(heads) && forall x :: x in heads ==> !SameKey(x, h)
    ensures Sorted(Insert(heads, h)) && |Insert(heads, h)| == |heads| + 1
    ensures forall x :: x in Insert(heads, h) <==> x in heads || x == h
    decreases |heads|
  {
    if heads != [] {
      assert heads == [heads[0]] + heads[1..];
      assert heads[0] in heads;
      if Ahead(heads[0], h) {
        InsertSorted(heads[1..], h);
        var r := Insert(heads[1..], h);
        forall j | 0 <= j < |r|
          ensures Ahead(heads[0], r[j])
        {
          assert r[j] in r;
        }
      }
    }
  }

  // ---- number of transactions in a map of lists ----

  ghost function SumLen(m: map<Address, seq<Tx>>): nat
    decreases |m|
  {
    if m == map[] then 0 else
      var a :| a in m;
      |m[a]| + SumLen(m - {a})
  }

  lemma {:induction false} SumLenWithout(m: map<Address, seq<Tx>>, a: Address)
    requires a in m
    ensures SumLen(m) == |m[a]| + SumLen(m - {a})
    decreases |m|
  {
    var b :| b in m && SumLen(m) == |m[b]| + SumLen(m - {b});
    if b != a {
      SumLenWithout(m - {b}, a);
      SumLenWithout(m - {a}, b);
      assert m - {a} - {b} == m - {b} - {a};
    }
  }

  lemma SumLenUpdate(m: map<Address, seq<Tx>>, a: Address, list: seq<Tx>)
    requires a in m
    ensures SumLen(m[a := list]) == SumLen(m) - |m[a]| + |list|
  {
    SumLenWithout(m, a);
    SumLenWithout(m[a := list], a);
    assert m[a := list] - {a} == m - {a};
  }

  /** The transactions waiting behind the head of `a`. */
  function Rest(txs: map<Address, seq<Tx>>, a: Address): seq<Tx> { if a in txs then txs[a] else [] }

  /** Each list holds its sender's transactions, all drawn from `universe`. */
  ghost predicate Keyed(txs: map<Address, seq<Tx>>, universe: set<Tx>) {
    forall a, x :: a in txs && x in txs[a] ==> x.sender == a && x in universe
  }

  /** Hashes identify transactions. */
  ghost predicate Injective(universe: set<Tx>) {
    forall x, y :: x in universe && y in universe && x.hash == y.hash ==> x == y
  }

  /** The senders whose first transaction can pay, with their lists. */
  function Runnable(txs: map<Address, seq<Tx>>, baseFee: nat): Queues {
    map a | a in txs && txs[a] != [] && CanPay(txs[a][0], Some(baseFee)) :: txs[a]
  }

  /** A head that can pay, in front of what waits behind it. */
  ghost predicate HeadFits(h: Head, txs: map<Address, seq<Tx>>, baseFee: nat, q: Queues) {
    && CanPay(h.tx, Some(baseFee)) && h.minerFee == MinerTip(h.tx, baseFee)
    && h.tx.sender in q && q[h.tx.sender] == [h.tx] + Rest(txs, h.tx.sender)
  }

  /** A queue whose first transaction is among the heads. */
  ghost predicate QueueHeaded(a: Address, heads: seq<Head>, baseFee: nat, q: Queues)
    requires a in q
  {
    && q[a] != [] && CanPay(q[a][0], Some(baseFee)) && q[a][0].sender == a
    && Head(q[a][0], MinerTip(q[a][0], baseFee)) in heads
  }

  /** The heads and the waiting lists stand for the queues `q`. */
  ghost predicate Represents(heads: seq<Head>, txs: map<Address, seq<Tx>>, baseFee: nat, q: Queues) {
    && (forall h :: h in heads ==> HeadFits(h, txs, baseFee, q))
    && (forall a :: a in q ==> QueueHeaded(a, heads, baseFee, q))
  }

  /** The front of the ordered set beats every other sender's next transaction. */
  lemma FrontLeads(heads: seq<Head>, txs: map<Address, seq<Tx>>, baseFee: nat, q: Queues)
    requires Sorted(heads) && Represents(heads, txs, baseFee, q) && Live(q, baseFee) && heads != []
    ensures Leads(q, baseFee, heads[0].tx)
  {
    var tx := heads[0].tx;
    assert heads[0] in heads;
    forall a | a in q && a != tx.sender
      ensures Beats(tx, q[a][0], baseFee)
    {
      var i :| 0 <= i < |heads| && heads[i] == Head(q[a][0], MinerTip(q[a][0], baseFee));
      assert i != 0;
    }
  }

  /** ... in numbers: by the tip it leaves the miner, then by hash. */
  lemma FrontPaysMost(heads: seq<Head>, txs: map<Address, seq<Tx>>, baseFee: nat, q: Queues)
    requires Sorted(heads) && Represents(heads, txs, baseFee, q) && Live(q, baseFee) && heads != []
    ensures forall a :: a in q && a != heads[0].tx.sender ==>
              && q[a] != []
              && var x, y := heads[0].tx, q[a][0];
                 var tip, other := Min(x.tipCap, x.feeCap - baseFee), Min(y.tipCap, y.feeCap - baseFee);
                 tip > other || (tip == other && x.hash > y.hash)
  {
    FrontLeads(heads, txs, baseFee, q);
    hide Sorted, Represents, Live, Leads;
    forall a | a in q && a != heads[0].tx.sender
      ensures q[a] != []
      ensures var x, y := heads[0].tx, q[a][0];
              var tip, other := Min(x.tipCap, x.feeCap - baseFee), Min(y.tipCap, y.feeCap - baseFee);
              tip > other || (tip == other && x.hash > y.hash)
    {
      LeaderPaysMost(q, baseFee, heads[0].tx, a);
    }
  }

  lemma HeadsOfQueues(heads: seq<Head>, txs: map<Address, seq<Tx>>, baseFee: nat, q: Queues)
    requires Represents(heads, txs, baseFee, q)
    ensures heads == [] <==> q == map[]
  {
    if heads != [] {
      assert heads[0] in heads;
    }
  }

  /** One head per sender. */
  lemma OneHeadPerSender(heads: seq<Head>, txs: map<Address, seq<Tx>>, baseFee: nat, q: Queues, i: nat, j: nat)
    requires Sorted(heads) && Represents(heads, txs, baseFee, q) && i < j < |heads|
    ensures heads[i].tx.sender != heads[j].tx.sender
  {
    assert heads[i] in heads && heads[j] in heads;
    assert Ahead(heads[i], heads[j]);
    assert q[heads[i].tx.sender][0] == heads[i].tx && q[heads[j].tx.sender][0] == heads[j].tx;
  }

  lemma PopRepresents(heads: seq<Head>, txs: map<Address, seq<Tx>>, baseFee: nat, q: Queues)
    requires Sorted(heads) && Represents(heads, txs, baseFee, q) && heads != []
    ensures Sorted(heads[1..]) && Represents(heads[1..], txs, baseFee, q - {heads[0].tx.sender})
  {
    OthersBehind(heads, txs, baseFee, q);
    SortedTail(heads);
    hide Sorted;
    var rest, q' := heads[1..], q - {heads[0].tx.sender};
    forall h | h in rest
      ensures HeadFits(h, txs, baseFee, q')
    {
      assert HeadFits(h, txs, baseFee, q);
    }
    forall a | a in q'
      ensures QueueHeaded(a, rest, baseFee, q')
    {
      assert QueueHeaded(a, heads, baseFee, q);
      NotTheFront(heads, a, baseFee, q);
    }
    RepresentsMade(rest, txs, baseFee, q');
  }

  lemma NotTheFront(heads: seq<Head>, a: Address, baseFee: nat, q: Queues)
    requires heads != [] && a in q && QueueHeaded(a, heads, baseFee, q) && a != heads[0].tx.sender
    ensures QueueHeaded(a, heads[1..], baseFee, q)
  {
    assert heads == [heads[0]] + heads[1..];
  }

  lemma RepresentsMade(heads: seq<Head>, txs: map<Address, seq<Tx>>, baseFee: nat, q: Queues)
    requires forall h :: h in heads ==> HeadFits(h, txs, baseFee, q)
    requires forall a :: a in q ==> QueueHeaded(a, heads, baseFee, q)
    ensures Represents(heads, txs, baseFee, q)
  {
  }

  lemma SortedTail(heads: seq<Head>)
    requires Sorted(heads) && heads != []
    ensures Sorted(heads[1..])
  {
  }

  lemma OthersBehind(heads: seq<Head>, txs: map<Address, seq<Tx>>, baseFee: nat, q: Queues)
    requires Sorted(heads) && Represents(heads, txs, baseFee, q) && heads != []
    ensures forall h :: h in heads[1..] ==> h in heads && h.tx.sender != heads[0].tx.sender
  {
    hide Sorted, Represents;
    forall h | h in heads[1..]
      ensures h in heads && h.tx.sender != heads[0].tx.sender
    {
      var j :| 0 <= j < |heads[1..]| && heads[1..][j] == h;
      OneHeadPerSender(heads, txs, baseFee, q, 0, j + 1);
    }
  }

  lemma KeyedTail(txs: map<Address, seq<Tx>>, universe: set<Tx>, a: Address)
    requires Keyed(txs, universe) && a in txs && txs[a] != []
    ensures Keyed(txs[a := txs[a][1..]], universe)
    ensures txs[a][0].sender == a && txs[a][0] in universe
  {
    var txs' := txs[a := txs[a][1..]];
    forall b: Address, x: Tx | b in txs' && x in txs'[b]
      ensures x.sender == b && x in universe
    {
      assert x in txs[b];
    }
    assert txs[a][0] in txs[a];
  }

  lemma NewKey(heads: seq<Head>, universe: set<Tx>, q: Queues, h: Head)
    requires Injective(universe) && h.tx in universe && h.tx.sender !in q
    requires forall x :: x in heads ==> x.tx in universe && x.tx.sender in q
    ensures forall x :: x in heads ==> !SameKey(x, h)
  {
  }

  lemma InsertRepresents(heads: seq<Head>, heads': seq<Head>, txs: map<Address, seq<Tx>>, baseFee: nat, q: Queues,
                         a: Address)
    requires Represents(heads, txs, baseFee, q)
    requires a in txs && txs[a] != [] && CanPay(txs[a][0], Some(baseFee)) && txs[a][0].sender == a && a !in q
    requires var h := Head(txs[a][0], MinerTip(txs[a][0], baseFee));
             forall x :: x in heads' <==> x in heads || x == h
    ensures Represents(heads', txs[a := txs[a][1..]], baseFee, q[a := txs[a]])
  {
    assert txs[a] == [txs[a][0]] + txs[a][1..];
  }

  /** Putting a sender's next waiting transaction in as its new head. */
  lemma PushRepresents(heads: seq<Head>, txs: map<Address, seq<Tx>>, baseFee: nat, q: Queues, universe: set<Tx>,
                       a: Address)
    requires Sorted(heads) && Represents(heads, txs, baseFee, q) && Keyed(txs, universe) && Injective(universe)
    requires forall h :: h in heads ==> h.tx in universe
    requires a in txs && txs[a] != [] && CanPay(txs[a][0], Some(baseFee)) && a !in q
    ensures var h := Head(txs[a][0], MinerTip(txs[a][0], baseFee));
            && Sorted(Insert(heads, h)) && |Insert(heads, h)| == |heads| + 1
            && (forall x :: x in Insert(heads, h) ==> x.tx in universe)
            && Keyed(txs[a := txs[a][1..]], universe)
            && Represents(Insert(heads, h), txs[a := txs[a][1..]], baseFee, q[a := txs[a]])
  {
    var h := Head(txs[a][0], MinerTip(txs[a][0], baseFee));
    KeyedTail(txs, universe, a);
    NewKey(heads, universe, q, h);
    InsertSorted(heads, h);
    InsertRepresents(heads, Insert(heads, h), txs, baseFee, q, a);
  }

  /** Replacing the front by its sender's next transaction. */
  lemma ShiftRepresents(heads: seq<Head>, txs: map<Address, seq<Tx>>, baseFee: nat, q: Queues, universe: set<Tx>)
    requires Sorted(heads) && Represents(heads, txs, baseFee, q) && Keyed(txs, universe) && Injective(universe)
    requires heads != [] && forall h :: h in heads ==> h.tx in universe
    requires var a := heads[0].tx.sender; a in txs && txs[a] != [] && CanPay(txs[a][0], Some(baseFee))
    ensures var a := heads[0].tx.sender;
            var h := Head(txs[a][0], MinerTip(txs[a][0], baseFee));
            var heads' := Insert(heads[1..], h);
            && Sorted(heads') && |heads'| == |heads|
            && (forall x :: x in heads' ==> x.tx in universe)
            && Keyed(txs[a := txs[a][1..]], universe)
            && Represents(heads', txs[a := txs[a][1..]], baseFee, q[a := txs[a]])
  {
    var a := heads[0].tx.sender;
    PopRepresents(heads, txs, baseFee, q);
    assert forall h :: h in heads[1..] ==> h in heads;
    PushRepresents(heads[1..], txs, baseFee, q - {a}, universe, a);
    PutBack(q, a, txs[a]);
  }

  lemma PutBack(q: Queues, a: Address, list: seq<Tx>)
    ensures (q - {a})[a := list] == q[a := list]
  {
  }

  /** The queue of the front's sender is its head and what waits behind. */
  lemma FrontQueue(heads: seq<Head>, txs: map<Address, seq<Tx>>, baseFee: nat, q: Queues)
    requires Represents(heads, txs, baseFee, q) && heads != []
    ensures heads[0].tx.sender in q && q[heads[0].tx.sender] != []
    ensures q[heads[0].tx.sender][0] == heads[0].tx && q[heads[0].tx.sender][1..] == Rest(txs, heads[0].tx.sender)
  {
    assert heads[0] in heads;
  }

  /** The whole invariant, on values. */
  ghost predicate Ok(heads: seq<Head>, txs: map<Address, seq<Tx>>, baseFee: nat, q: Queues, universe: set<Tx>) {
    && Live(q, baseFee)
    && Sorted(heads) && Represents(heads, txs, baseFee, q)
    && Keyed(txs, universe) && Injective(universe)
    && forall h :: h in heads ==> h.tx in universe
  }

  lemma PopOk(heads: seq<Head>, txs: map<Address, seq<Tx>>, baseFee: nat, q: Queues, universe: set<Tx>)
    requires Ok(heads, txs, baseFee, q, universe) && heads != []
    ensures heads[0].tx.sender in q && q[heads[0].tx.sender] != []
    ensures q[heads[0].tx.sender][1..] == Rest(txs, heads[0].tx.sender)
    ensures Ok(heads[1..], txs, baseFee, q - {heads[0].tx.sender}, universe)
  {
    hide Sorted, Represents, Keyed, Injective;
    FrontQueue(heads, txs, baseFee, q);
    PopRepresents(heads, txs, baseFee, q);
    OthersBehind(heads, txs, baseFee, q);
  }

  lemma ShiftOk(heads: seq<Head>, txs: map<Address, seq<Tx>>, baseFee: nat, q: Queues, universe: set<Tx>)
    requires Ok(heads, txs, baseFee, q, universe) && heads != []
    requires var a := heads[0].tx.sender; a in txs && txs[a] != [] && CanPay(txs[a][0], Some(baseFee))
    ensures var a := heads[0].tx.sender;
            var heads' := Insert(heads[1..], Head(txs[a][0], MinerTip(txs[a][0], baseFee)));
            && |heads'| == |heads|
            && a in q && q[a] != [] && q[a][1..] == txs[a]
            && Ok(heads', txs[a := txs[a][1..]], baseFee, q[a := txs[a]], universe)
            && SumLen(txs[a := txs[a][1..]]) == SumLen(txs) - 1
  {
    var a := heads[0].tx.sender;
    FrontQueue(heads, txs, baseFee, q);
    ShiftRepresents(heads, txs, baseFee, q, universe);
    SumLenUpdate(txs, a, txs[a][1..]);
    AfterIsLive(q, baseFee, heads[0].tx.sender, Shift);
  }

  lemma StartOk(heads: seq<Head>, txs: map<Address, seq<Tx>>, baseFee: nat, q: Queues, universe: set<Tx>, a: Address)
    requires Ok(heads, txs, baseFee, q, universe)
    requires a !in q && a in txs && txs[a] != [] && CanPay(txs[a][0], Some(baseFee))
    ensures var heads' := Insert(heads, Head(txs[a][0], MinerTip(txs[a][0], baseFee)));
            && |heads'| == |heads| + 1
            && Ok(heads', txs[a := txs[a][1..]], baseFee, q[a := txs[a]], universe)
            && SumLen(txs[a := txs[a][1..]]) == SumLen(txs) - 1
  {
    PushRepresents(heads, txs, baseFee, q, universe, a);
    SumLenUpdate(txs, a, txs[a][1..]);
  }

  /** The runnable senders that are no longer in `pending`. */
  ghost function Started(txs: map<Address, seq<Tx>>, baseFee: nat, pending: set<Address>): Queues {
    Runnable(txs, baseFee) - pending
  }

  lemma StartNone(txs: map<Address, seq<Tx>>, baseFee: nat, universe: set<Tx>)
    requires Keyed(txs, universe) && Injective(universe)
    ensures Ok([], txs, baseFee, map[], universe) && Started(txs, baseFee, txs.Keys) == map[]
  {
  }

  lemma StartedAll(txs: map<Address, seq<Tx>>, baseFee: nat)
    ensures Started(txs, baseFee, {}) == Runnable(txs, baseFee)
  {
  }

  lemma StartOne(txs: map<Address, seq<Tx>>, baseFee: nat, pending: set<Address>, a: Address)
    requires a in pending && a in txs
    ensures a !in Started(txs, baseFee, pending)
    ensures Started(txs, baseFee, pending - {a}) ==
            if txs[a] != [] && CanPay(txs[a][0], Some(baseFee)) then Started(txs, baseFee, pending)[a := txs[a]]
            else Started(txs, baseFee, pending)
  {
  }

  /** The transactions of the first `n` heads, at least one. */
  method FirstOf(heads: seq<Head>, n: nat) returns (page: seq<Tx>)
    ensures |page| == Min(|heads|, Max(n, 1))
    ensures forall i :: 0 <= i < |page| ==> page[i] == heads[i].tx
  {
    page := [];
    while |page| < |heads|
      invariant |page| <= |heads| && |page| <= Max(n, 1) && (|page| == 0 || |page| < n || |page| == |heads|)
      invariant forall i :: 0 <= i < |page| ==> page[i] == heads[i].tx
    {
      page := page + [heads[|page|].tx];
      if |page| >= n {
        break;
      }
    }
  }

  class TransactionsByPriceAndNonce {
    var txs: map<Address, seq<Tx>>
    var heads: seq<Head>
    const baseFee: nat
    ghost const universe: set<Tx>
    /** The plain queues the structure stands for. */
    ghost var queues: Queues

    /** One head for every sender whose first transaction can pay; the others never run. */
    constructor (input: map<Address, seq<Tx>>, baseFee: nat, ghost universe: set<Tx>)
      requires Keyed(input, universe) && Injective(universe)
      ensures Valid() && this.baseFee == baseFee
      ensures queues == Runnable(input, baseFee) && Len() == SumLen(input)
    {
      this.txs, this.heads, this.baseFee := input, [], baseFee;
      this.universe, this.queues := universe, map[];
      new;
      StartNone(input, baseFee, universe);
      hide Ok, Keyed, Injective, Started, SumLen;
      var pending := input.Keys;
      while pending != {}
        invariant pending <= input.Keys && txs.Keys == input.Keys
        invariant forall a :: a in pending ==> txs[a] == input[a]
        invariant Valid() && Len() == SumLen(input)
        invariant queues == Started(input, baseFee, pending)
        decreases |pending|
      {
        var a :| a in pending;
        StartOne(input, baseFee, pending, a);
        StartHead(a);
        pending := pending - {a};
      }
      StartedAll(input, baseFee);
    }

    /** Takes the first transaction of `a` out as its head, if it can pay. */
    method StartHead(a: Address)
      requires Valid() && a in txs && a !in queues
      modifies this
      ensures Valid() && Len() == old(Len()) && txs.Keys == old(txs.Keys)
      ensures forall b :: b in txs && b != a ==> txs[b] == old(txs)[b]
      ensures queues == var list := old(txs)[a];
                        if list != [] && CanPay(list[0], Some(baseFee)) then old(queues)[a := list] else old(queues)
    {
      if |txs[a]| == 0 {
        return;
      }
      var first := txs[a][0];
      if !CanPay(first, Some(baseFee)) {
        return;
      }
      hide Ok, Insert;
      StartOk(heads, txs, baseFee, queues, universe, a);
      queues := queues[a := txs[a]];
      txs := txs[a := txs[a][1..]];
      heads := Insert(heads, Head(first, MinerTip(first, baseFee)));
    }

    ghost predicate Valid()
      reads this
    {
      Ok(heads, txs, baseFee, queues, universe)
    }

    lemma ValidIsLive()
      requires Valid()
      ensures Live(queues, baseFee) && (heads == [] <==> queues == map[])
    {
      HeadsOfQueues(heads, txs, baseFee, queues);
    }

    /** All transactions still held, heads included. */
    ghost function Len(): nat
      reads this
    {
      SumLen(txs) + |heads|
    }

    method Peek() returns (tx: Option<Tx>)
      requires Valid()
      ensures tx.None? <==> queues == map[]
      ensures tx.None? <==> heads == []
      ensures tx.Some? ==> Leads(queues, baseFee, tx.value) && tx.value == heads[0].tx
      ensures tx.Some? ==> forall a :: a in queues && a != tx.value.sender ==>
                var x, y := tx.value, queues[a][0];
                var tip, other := Min(x.tipCap, x.feeCap - baseFee), Min(y.tipCap, y.feeCap - baseFee);
                tip > other || (tip == other && x.hash > y.hash)
    {
      if heads == [] {
        return None;
      }
      FrontLeads(heads, txs, baseFee, queues);
      tx := Some(heads[0].tx);
      FrontPaysMost(heads, txs, baseFee, queues);
    }

    /** Up to `n` heads in order, but at least one when there is one. */
    method PeekN(n: nat) returns (page: seq<Tx>)
      requires Valid()
      ensures |page| == Min(|heads|, Max(n, 1)) && (page == [] <==> heads == [])
      ensures forall i :: 0 <= i < |page| ==> page[i] == heads[i].tx
    {
      hide Ok;
      page := FirstOf(heads, n);
    }

    /** Gives up on the sender of the front. */
    method Pop()
      requires Valid() && heads != []
      modifies this
      ensures Valid() && Len() == old(Len()) - 1
      ensures old(heads)[0].tx.sender in old(queues) && old(queues)[old(heads)[0].tx.sender] != []
      ensures queues == After(old(queues), baseFee, old(heads)[0].tx.sender, Drop)
    {
      hide Ok;
      PopOk(heads, txs, baseFee, queues, universe);
      queues := queues - {heads[0].tx.sender};
      heads := heads[1..];
    }

    /** Takes the front out and puts its sender's next transaction in. */
    method Advance(a: Address, next: Tx)
      requires Valid() && heads != [] && a == heads[0].tx.sender
      requires a in txs && txs[a] != [] && next == txs[a][0] && CanPay(next, Some(baseFee))
      modifies this
      ensures Valid() && Len() == old(Len()) - 1
      ensures queues == old(queues)[a := old(txs)[a]]
    {
      hide Ok, Insert;
      ShiftOk(heads, txs, baseFee, queues, universe);
      queues := queues[a := txs[a]];
      heads := heads[1..];
      txs := txs[a := txs[a][1..]];
      heads := Insert(heads, Head(next, MinerTip(next, baseFee)));
    }

    /** Goes on to the next transaction of the front's sender. */
    method ShiftHead()
      requires Valid() && heads != []
      modifies this
      ensures Valid() && Len() == old(Len()) - 1
      ensures old(heads)[0].tx.sender in old(queues) && old(queues)[old(heads)[0].tx.sender] != []
      ensures queues == After(old(queues), baseFee, old(heads)[0].tx.sender, Shift)
    {
      var a := heads[0].tx.sender;
      FrontQueue(heads, txs, baseFee, queues);
      if a in txs && |txs[a]| > 0 && CanPay(txs[a][0], Some(baseFee)) {
        Advance(a, txs[a][0]);
      } else {
        Pop();
      }
    }
  }
}
