/** The price pool: per sender a map from nonce to transaction, and a cache of everything
    that was ever accepted and not removed. */
module PricePool {
  import opened Chain
  import opened Merge
  import opened Ordered

  const USER_MAX: nat := 20

  type Items = map<nat, Tx>

  /** Every transaction is stored under its own sender and nonce. */
  ghost predicate Stored(items: Items, a: Address) {
    forall n :: n in items ==> items[n].nonce == n && items[n].sender == a
  }

  // ---- one sender's transactions ----

  /** A replacement must raise both the fee cap and the priority fee, by `bump` percent. */
  predicate Outbids(was: Tx, tx: Tx, bump: nat) {
    && was.feeCap < tx.feeCap && was.tipCap < tx.tipCap
    && (bump > 0 ==> (100 + bump) * was.feeCap / 100 <= tx.feeCap && (100 + bump) * was.tipCap / 100 <= tx.tipCap)
  }

  /** Stores a transaction; above the limit the largest nonce goes. */
  function Put(items: Items, tx: Tx): Items {
    var more := items[tx.nonce := tx];
    if |more| > USER_MAX then more - {Largest(more.Keys)} else more
  }

  function Add(items: Items, tx: Tx, bump: nat): Items {
    if tx.nonce in items && !Outbids(items[tx.nonce], tx, bump) then items else Put(items, tx)
  }

  /** Removes a nonce together with all lower ones. */
  function Advance(items: Items, nonce: nat): Items {
    if nonce in items then map n | n in items && nonce < n :: items[n] else items
  }

  /** While a slot stays occupied, its occupant only changes for one that bids more on both. */
  ghost predicate SlotsRise(before: Items, after: Items) {
    forall n :: n in before && n in after ==>
      after[n] == before[n] || (before[n].feeCap < after[n].feeCap && before[n].tipCap < after[n].tipCap)
  }

  lemma WithoutKey(items: Items, k: nat)
    requires k in items
    ensures |items - {k}| == |items| - 1
  {
    assert (items - {k}).Keys == items.Keys - {k};
  }

  lemma PutSize(items: Items, tx: Tx)
    requires |items| <= USER_MAX
    ensures 0 < |Put(items, tx)| <= USER_MAX
  {
    var more := items[tx.nonce := tx];
    assert more.Keys == items.Keys + {tx.nonce};
    assert |more| <= |items| + 1 && tx.nonce in more;
    if |more| > USER_MAX {
      WithoutKey(more, Largest(more.Keys));
    }
  }

  lemma PutContents(items: Items, tx: Tx)
    ensures forall n :: n in Put(items, tx) ==>
            Put(items, tx)[n] == if n == tx.nonce then tx else if n in items then items[n] else tx
    ensures forall n :: n in Put(items, tx) && n != tx.nonce ==> n in items
  {
  }

  /** Adding keeps a sender's list well stored, bounded and non-empty, and slots only rise. */
  lemma AddKeeps(items: Items, tx: Tx, bump: nat, a: Address)
    requires Stored(items, a) && |items| <= USER_MAX && tx.sender == a
    ensures Stored(Add(items, tx, bump), a) && 0 < |Add(items, tx, bump)| <= USER_MAX
    ensures SlotsRise(items, Add(items, tx, bump))
    ensures forall n :: n in Add(items, tx, bump) ==>
            Add(items, tx, bump)[n] == tx || (n in items && Add(items, tx, bump)[n] == items[n])
  {
    if tx.nonce in items && !Outbids(items[tx.nonce], tx, bump) {
      assert |items.Keys| > 0;
    } else {
      PutSize(items, tx);
      PutContents(items, tx);
    }
  }

  // ---- counting ----

  type Pending = map<Address, Items>

  function SizeAt(pending: Pending, a: Address): nat { if a in pending then |pending[a]| else 0 }

  /** How many transactions are pending for the first `i` of the listed senders. */
  function SizeUpTo(pending: Pending, senders: seq<Address>, i: nat): nat
    requires i <= |senders|
  {
    if i == 0 then 0 else SizeUpTo(pending, senders, i - 1) + SizeAt(pending, senders[i - 1])
  }

  /** How many transactions are pending for the listed senders. */
  function SizeOf(pending: Pending, senders: seq<Address>): nat { SizeUpTo(pending, senders, |senders|) }

  lemma {:induction false} SizeGrows(pending: Pending, senders: seq<Address>, i: nat, j: nat)
    requires i <= j <= |senders|
    ensures SizeUpTo(pending, senders, i) <= SizeUpTo(pending, senders, j)
    decreases j
  {
    if i < j {
      SizeGrows(pending, senders, i, j - 1);
    }
  }

  lemma {:induction false} SizeSame(p: Pending, p': Pending, senders: seq<Address>, i: nat)
    requires i <= |senders| && forall j :: 0 <= j < i ==> SizeAt(p, senders[j]) == SizeAt(p', senders[j])
    ensures SizeUpTo(p, senders, i) == SizeUpTo(p', senders, i)
  {
    if i > 0 {
      SizeSame(p, p', senders, i - 1);
    }
  }

  // ---- cleaning and flattening ----

  ghost predicate Descending(nonces: seq<nat>) {
    forall i, j :: 0 <= i < j < |nonces| ==> nonces[j] < nonces[i]
  }

  /** Of ascending nonces, those whose transaction cannot pay, from the largest down, at most
      `limit`. */
  ghost function Underpriced(items: Items, keys: seq<nat>, baseFee: Option<nat>, limit: nat): seq<nat>
    requires forall i :: 0 <= i < |keys| ==> keys[i] in items
    decreases |keys|
  {
    if keys == [] || limit == 0 then [] else
      var init, last := keys[..|keys| - 1], keys[|keys| - 1];
      if CanPay(items[last], baseFee) then Underpriced(items, init, baseFee, limit)
      else [last] + Underpriced(items, init, baseFee, limit - 1)
  }

  lemma {:induction false} UnderpricedMembers(items: Items, keys: seq<nat>, baseFee: Option<nat>, limit: nat, n: nat)
    requires forall i :: 0 <= i < |keys| ==> keys[i] in items
    ensures |Underpriced(items, keys, baseFee, limit)| <= limit
    ensures n in Underpriced(items, keys, baseFee, limit) ==> n in keys && n in items && !CanPay(items[n], baseFee)
    decreases |keys|
  {
    if keys != [] && limit != 0 {
      var init, last := keys[..|keys| - 1], keys[|keys| - 1];
      UnderpricedMembers(items, init, baseFee, limit, n);
      UnderpricedMembers(items, init, baseFee, limit - 1, n);
    }
  }

  lemma {:induction false} UnderpricedDescends(items: Items, keys: seq<nat>, baseFee: Option<nat>, limit: nat)
    requires Ascending(keys) && forall i :: 0 <= i < |keys| ==> keys[i] in items
    ensures Descending(Underpriced(items, keys, baseFee, limit))
    decreases |keys|
  {
    if keys != [] && limit != 0 {
      var init, last := keys[..|keys| - 1], keys[|keys| - 1];
      UnderpricedDescends(items, init, baseFee, limit);
      UnderpricedDescends(items, init, baseFee, limit - 1);
      var rest := Underpriced(items, init, baseFee, limit - 1);
      forall i | 0 <= i < |rest|
        ensures rest[i] < last
      {
        UnderpricedMembers(items, init, baseFee, limit - 1, rest[i]);
      }
    }
  }

  /** An underpriced transaction is only spared by the limit, and only below all those taken. */
  lemma {:induction false} UnderpricedSpares(items: Items, keys: seq<nat>, baseFee: Option<nat>, limit: nat, n: nat,
                                             m: nat)
    requires Ascending(keys) && forall i :: 0 <= i < |keys| ==> keys[i] in items
    requires n in keys && !CanPay(items[n], baseFee) && n !in Underpriced(items, keys, baseFee, limit)
    ensures |Underpriced(items, keys, baseFee, limit)| == limit
    ensures m in Underpriced(items, keys, baseFee, limit) ==> n < m
    decreases |keys|
  {
    if limit != 0 {
      var init, last := keys[..|keys| - 1], keys[|keys| - 1];
      assert keys == init + [last];
      if CanPay(items[last], baseFee) {
        UnderpricedSpares(items, init, baseFee, limit, n, m);
      } else {
        UnderpricedSpares(items, init, baseFee, limit - 1, n, m);
      }
    }
  }

  lemma UnderpricedStep(items: Items, keys: seq<nat>, i: nat, baseFee: Option<nat>, limit: nat)
    requires 0 < i <= |keys| && limit > 0 && forall j :: 0 <= j < |keys| ==> keys[j] in items
    ensures Underpriced(items, keys[..i], baseFee, limit) ==
            if CanPay(items[keys[i - 1]], baseFee) then Underpriced(items, keys[..i - 1], baseFee, limit)
            else [keys[i - 1]] + Underpriced(items, keys[..i - 1], baseFee, limit - 1)
  {
    assert keys[..i][..i - 1] == keys[..i - 1];
  }

  lemma UnderpricedEnd(items: Items, keys: seq<nat>, i: nat, baseFee: Option<nat>, limit: nat)
    requires i <= |keys| && (i == 0 || limit == 0) && forall j :: 0 <= j < |keys| ==> keys[j] in items
    ensures Underpriced(items, keys[..i], baseFee, limit) == []
  {
  }

  /** Collects the nonces of transactions that cannot pay, walking down from the largest. */
  method FindUnderprice(items: Items, keys: seq<nat>, baseFee: Option<nat>, limit: nat) returns (gone: seq<nat>)
    requires forall i :: 0 <= i < |keys| ==> keys[i] in items
    ensures gone == Underpriced(items, keys, baseFee, limit)
  {
    hide Underpriced;
    var i := |keys|;
    gone := [];
    assert keys[..i] == keys;
    while i > 0 && |gone| < limit
      invariant 0 <= i <= |keys| && |gone| <= limit
      invariant gone + Underpriced(items, keys[..i], baseFee, limit - |gone|) ==
                Underpriced(items, keys, baseFee, limit)
    {
      UnderpricedStep(items, keys, i, baseFee, limit - |gone|);
      i := i - 1;
      if EffectiveGasTip(items[keys[i]], baseFee).None? {
        Associate(gone, [keys[i]], Underpriced(items, keys[..i], baseFee, limit - |gone| - 1));
        gone := gone + [keys[i]];
      }
    }
    UnderpricedEnd(items, keys, i, baseFee, limit - |gone|);
  }

  function Without(items: Items, nonces: seq<nat>): Items {
    if nonces == [] then items else Without(items, nonces[..|nonces| - 1]) - {nonces[|nonces| - 1]}
  }

  lemma {:induction false} WithoutContents(items: Items, nonces: seq<nat>, n: nat)
    ensures n in Without(items, nonces) <==> n in items && n !in nonces
    ensures n in Without(items, nonces) ==> Without(items, nonces)[n] == items[n]
    decreases |nonces|
  {
    if nonces != [] {
      var init, last := nonces[..|nonces| - 1], nonces[|nonces| - 1];
      WithoutContents(items, init, n);
      assert nonces == init + [last];
    }
  }

  lemma {:induction false} WithoutSize(items: Items, nonces: seq<nat>)
    requires Descending(nonces) && forall i :: 0 <= i < |nonces| ==> nonces[i] in items
    ensures |Without(items, nonces)| + |nonces| == |items|
    decreases |nonces|
  {
    if nonces != [] {
      var init, last := nonces[..|nonces| - 1], nonces[|nonces| - 1];
      WithoutSize(items, init);
      WithoutContents(items, init, last);
      WithoutKey(Without(items, init), last);
    }
  }

  function HashesAt(items: Items, nonces: seq<nat>): seq<Hash>
    requires forall i :: 0 <= i < |nonces| ==> nonces[i] in items
  {
    if nonces == [] then [] else HashesAt(items, nonces[..|nonces| - 1]) + [items[nonces[|nonces| - 1]].hash]
  }

  function HashSet(items: Items, nonces: seq<nat>): set<Hash>
    requires forall i :: 0 <= i < |nonces| ==> nonces[i] in items
  {
    set h | h in HashesAt(items, nonces)
  }

  lemma {:induction false} HashesContents(items: Items, nonces: seq<nat>, h: Hash)
    requires forall i :: 0 <= i < |nonces| ==> nonces[i] in items
    ensures |HashesAt(items, nonces)| == |nonces|
    ensures h in HashesAt(items, nonces) <==> exists i :: 0 <= i < |nonces| && items[nonces[i]].hash == h
    decreases |nonces|
  {
    if nonces != [] {
      HashesContents(items, nonces[..|nonces| - 1], h);
    }
  }

  method DropAll(items: Items, nonces: seq<nat>) returns (kept: Items, removed: seq<Hash>)
    requires Descending(nonces) && forall i :: 0 <= i < |nonces| ==> nonces[i] in items
    ensures kept == Without(items, nonces) && removed == HashesAt(items, nonces)
  {
    kept, removed := items, [];
    var i := 0;
    while i < |nonces|
      invariant i <= |nonces| && kept == Without(items, nonces[..i]) && removed == HashesAt(items, nonces[..i])
    {
      assert nonces[..i + 1][..i] == nonces[..i];
      WithoutContents(items, nonces[..i], nonces[i]);
      assert nonces[i] !in nonces[..i];
      removed := removed + [kept[nonces[i]].hash];
      kept := kept - {nonces[i]};
      i := i + 1;
    }
    assert nonces[..i] == nonces;
  }

  lemma KeysAreIn(items: Items)
    ensures forall i :: 0 <= i < |Listed(items.Keys)| ==> Listed(items.Keys)[i] in items
  {
    var keys := Listed(items.Keys);
    hide Listed;
    forall i | 0 <= i < |keys|
      ensures keys[i] in items
    {
      ListedHas(items.Keys, keys[i]);
    }
  }

  /** Of a whole list, the largest nonces whose transaction cannot pay, at most `limit`. */
  ghost function MostUnderpriced(items: Items, baseFee: Option<nat>, limit: nat): seq<nat> {
    KeysAreIn(items);
    Underpriced(items, Listed(items.Keys), baseFee, limit)
  }

  /** Deletes transactions that cannot pay, largest nonce first, at most `limit` of them, and
      returns their hashes. */
  method CleanUnderprice(items: Items, baseFee: Option<nat>, limit: nat)
    returns (kept: Items, removed: seq<Hash>, ghost gone: seq<nat>)
    ensures gone == MostUnderpriced(items, baseFee, limit) && Descending(gone)
    ensures forall i :: 0 <= i < |gone| ==> gone[i] in items
    ensures kept == Without(items, gone) && removed == HashesAt(items, gone)
    ensures |removed| == |gone| <= limit && |kept| + |removed| == |items|
  {
    hide Listed, Ascending, Underpriced, Without, HashesAt, Descending;
    var order := SortedKeys(items.Keys);
    KeysAreIn(items);
    ListedAscends(items.Keys);
    var nonces := FindUnderprice(items, order, baseFee, limit);
    gone := nonces;
    UnderpricedDescends(items, order, baseFee, limit);
    UnderpricedMembers(items, order, baseFee, limit, 0);
    forall i | 0 <= i < |gone|
      ensures gone[i] in items
    {
      UnderpricedMembers(items, order, baseFee, limit, gone[i]);
    }
    WithoutSize(items, nonces);
    HashesContents(items, nonces, 0);
    kept, removed := DropAll(items, nonces);
  }

  // ---- flattening into a run of consecutive nonces ----

  /** The transactions at the given nonces. */
  function At(items: Items, keys: seq<nat>): (txs: seq<Tx>)
    requires forall i :: 0 <= i < |keys| ==> keys[i] in items
    ensures |txs| == |keys| && forall i :: 0 <= i < |keys| ==> txs[i] == items[keys[i]]
  {
    seq(|keys|, i requires 0 <= i < |keys| => items[keys[i]])
  }

  /** How many leading transactions are already checked off. */
  function Skipped(txs: seq<Tx>, filter: map<Hash, bool>): (k: nat)
    ensures k <= |txs| && forall i :: 0 <= i < k ==> txs[i].hash in filter && filter[txs[i].hash]
    ensures k < |txs| ==> !(txs[k].hash in filter && filter[txs[k].hash])
  {
    if txs != [] && txs[0].hash in filter && filter[txs[0].hash] then 1 + Skipped(txs[1..], filter) else 0
  }

  /** The longest prefix that can pay and continues the nonces from `last`. */
  function Run(txs: seq<Tx>, last: Option<nat>, baseFee: Option<nat>): (run: seq<Tx>)
    ensures run <= txs
  {
    if txs == [] || !CanPay(txs[0], baseFee) || (last.Some? && txs[0].nonce != last.value + 1) then []
    else [txs[0]] + Run(txs[1..], Some(txs[0].nonce), baseFee)
  }

  /** The first transaction that is not checked off starts the run; a failed one blocks it. */
  function Flat(txs: seq<Tx>, filter: map<Hash, bool>, baseFee: Option<nat>): seq<Tx> {
    var k := Skipped(txs, filter);
    if k == |txs| || txs[k].hash in filter then [] else Run(txs[k..], None, baseFee)
  }

  /** The transaction that ended the run because it cannot pay. */
  function Blocker(txs: seq<Tx>, filter: map<Hash, bool>, baseFee: Option<nat>): Option<Tx> {
    var k := Skipped(txs, filter);
    var end := k + |Flat(txs, filter, baseFee)|;
    if end < |txs| && (end > k || txs[k].hash !in filter) && !CanPay(txs[end], baseFee) then Some(txs[end]) else None
  }

  /** Everything in the run pays and continues the nonces. */
  lemma {:induction false} RunAt(txs: seq<Tx>, last: Option<nat>, baseFee: Option<nat>, i: nat)
    requires i < |Run(txs, last, baseFee)|
    ensures var run := Run(txs, last, baseFee);
            && run[i] == txs[i] && CanPay(run[i], baseFee)
            && (i > 0 ==> run[i].nonce == run[i - 1].nonce + 1)
    decreases |txs|
  {
    var rest := Run(txs[1..], Some(txs[0].nonce), baseFee);
    assert Run(txs, last, baseFee) == [txs[0]] + rest;
    if i > 0 {
      RunAt(txs[1..], Some(txs[0].nonce), baseFee, i - 1);
    }
  }

  /** The run only ends where it cannot be continued. */
  lemma {:induction false} RunEnd(txs: seq<Tx>, last: Option<nat>, baseFee: Option<nat>)
    requires 0 < |Run(txs, last, baseFee)| < |txs|
    ensures var run := Run(txs, last, baseFee);
            !CanPay(txs[|run|], baseFee) || txs[|run|].nonce != run[|run| - 1].nonce + 1
    decreases |txs|
  {
    var rest := Run(txs[1..], Some(txs[0].nonce), baseFee);
    assert Run(txs, last, baseFee) == [txs[0]] + rest;
    if rest != [] {
      RunEnd(txs[1..], Some(txs[0].nonce), baseFee);
    }
  }

  /** A transaction covers the base fee, if there is one. */
  predicate Covers(tx: Tx, baseFee: Option<nat>) { baseFee.Some? ==> baseFee.value <= tx.feeCap }

  lemma PaysIfCovers(tx: Tx, baseFee: Option<nat>)
    ensures CanPay(tx, baseFee) <==> Covers(tx, baseFee)
  {
  }

  lemma RunFirst(txs: seq<Tx>, baseFee: Option<nat>)
    ensures Run(txs, None, baseFee) == [] <==> txs == [] || !CanPay(txs[0], baseFee)
  {
  }

  /** What is offered of a list in nonce order, whose first `k` transactions are settled and the
      next, if any, is not: nothing if that one is marked as failed or does not cover the base
      fee; otherwise the longest stretch from it on that covers the base fee without a gap. */
  lemma OfferInNumbers(txs: seq<Tx>, filter: map<Hash, bool>, baseFee: Option<nat>, k: nat)
    requires k == Skipped(txs, filter)
    ensures var run := Flat(txs, filter, baseFee);
            && k + |run| <= |txs| && run == txs[k..k + |run|]
            && (run == [] <==> k == |txs| || txs[k].hash in filter || !Covers(txs[k], baseFee))
            && (forall i :: 0 <= i < |run| ==> Covers(run[i], baseFee))
            && (forall i :: 0 < i < |run| ==> run[i].nonce == run[i - 1].nonce + 1)
            && (run != [] && k + |run| < |txs| ==>
                  !Covers(txs[k + |run|], baseFee) || txs[k + |run|].nonce != run[|run| - 1].nonce + 1)
  {
    hide *;
    FlatMeans(txs, filter, baseFee, k);
    if k < |txs| && txs[k].hash !in filter {
      RunInNumbers(txs[k..], baseFee);
      SliceFacts(txs, k, |Run(txs[k..], None, baseFee)|);
    }
  }

  lemma FlatMeans(txs: seq<Tx>, filter: map<Hash, bool>, baseFee: Option<nat>, k: nat)
    requires k == Skipped(txs, filter)
    ensures k <= |txs|
    ensures Flat(txs, filter, baseFee) ==
            if k == |txs| || txs[k].hash in filter then [] else Run(txs[k..], None, baseFee)
  {
    hide Skipped, Run;
  }

  lemma SliceFacts(txs: seq<Tx>, k: nat, n: nat)
    requires k < |txs| && n <= |txs| - k
    ensures txs[k..][0] == txs[k] && txs[k..][..n] == txs[k..k + n] && (n < |txs| - k ==> txs[k..][n] == txs[k + n])
  {
  }

  lemma RunInNumbers(txs: seq<Tx>, baseFee: Option<nat>)
    requires txs != []
    ensures var run := Run(txs, None, baseFee);
            && |run| <= |txs| && run == txs[..|run|] && (run == [] <==> !Covers(txs[0], baseFee))
            && (forall i :: 0 <= i < |run| ==> Covers(run[i], baseFee))
            && (forall i :: 0 < i < |run| ==> run[i].nonce == run[i - 1].nonce + 1)
            && (0 < |run| < |txs| ==> !Covers(txs[|run|], baseFee) || txs[|run|].nonce != run[|run| - 1].nonce + 1)
  {
    hide Run, CanPay, Covers;
    var run := Run(txs, None, baseFee);
    RunFirst(txs, baseFee);
    PaysIfCovers(txs[0], baseFee);
    forall i | 0 <= i < |run|
      ensures Covers(run[i], baseFee) && (i > 0 ==> run[i].nonce == run[i - 1].nonce + 1)
    {
      RunAt(txs, None, baseFee, i);
      PaysIfCovers(run[i], baseFee);
    }
    if 0 < |run| < |txs| {
      RunEnd(txs, None, baseFee);
      PaysIfCovers(txs[|run|], baseFee);
    }
  }

  /** The blocker is the transaction after the offer, if that does not cover the base fee and the
      offer was not blocked from the start by a failed one. */
  lemma BlockerInNumbers(txs: seq<Tx>, filter: map<Hash, bool>, baseFee: Option<nat>, k: nat)
    requires k == Skipped(txs, filter)
    ensures var end := k + |Flat(txs, filter, baseFee)|;
            var blocked := end < |txs| && (end > k || txs[k].hash !in filter) && !Covers(txs[end], baseFee);
            Blocker(txs, filter, baseFee) == if blocked then Some(txs[end]) else None
  {
    OfferInNumbers(txs, filter, baseFee, k);
    hide Run, Skipped;
  }

  function LastNonce(list: seq<Tx>): Option<nat> {
    if list == [] then None else Some(list[|list| - 1].nonce)
  }

  /** Passes over what is already checked off. */
  method SkipChecked(txs: seq<Tx>, filter: map<Hash, bool>) returns (k: nat)
    ensures k == Skipped(txs, filter)
  {
    k := 0;
    var rest := txs;
    while rest != []
      invariant k + Skipped(rest, filter) == Skipped(txs, filter) && |rest| + k == |txs|
    {
      if !(rest[0].hash in filter && filter[rest[0].hash]) {
        break;
      }
      k, rest := k + 1, rest[1..];
    }
  }

  lemma TakeOne(list: seq<Tx>, rest: seq<Tx>, baseFee: Option<nat>)
    requires rest != [] && CanPay(rest[0], baseFee)
    requires list != [] ==> rest[0].nonce == list[|list| - 1].nonce + 1
    ensures list + rest == list + [rest[0]] + rest[1..]
    ensures list + Run(rest, LastNonce(list), baseFee)
         == list + [rest[0]] + Run(rest[1..], LastNonce(list + [rest[0]]), baseFee)
  {
    var x := rest[0];
    var run := Run(rest[1..], Some(x.nonce), baseFee);
    HeadAndTail(rest);
    Associate(list, [x], rest[1..]);
    assert LastNonce(list + [x]) == Some(x.nonce);
    Associate(list, [x], run);
    assert Run(rest, LastNonce(list), baseFee) == [x] + run;
  }

  lemma HeadAndTail(s: seq<Tx>)
    requires s != []
    ensures s == [s[0]] + s[1..]
  {
  }

  lemma TakeNone(list: seq<Tx>, rest: seq<Tx>, baseFee: Option<nat>)
    requires rest != [] ==> !CanPay(rest[0], baseFee) || (list != [] && rest[0].nonce != list[|list| - 1].nonce + 1)
    ensures list + Run(rest, LastNonce(list), baseFee) == list
    ensures |list + rest| == |list| + |rest| && (rest != [] ==> (list + rest)[|list|] == rest[0])
  {
  }

  /** Collects the run; `blocked` when it ended at a transaction that cannot pay. */
  method TakeRun(txs: seq<Tx>, baseFee: Option<nat>) returns (list: seq<Tx>, blocked: bool)
    ensures list == Run(txs, None, baseFee)
    ensures blocked <==> |list| < |txs| && !CanPay(txs[|list|], baseFee)
  {
    list, blocked := [], false;
    var rest := txs;
    while rest != []
      invariant txs == list + rest && !blocked
      invariant Run(txs, None, baseFee) == list + Run(rest, LastNonce(list), baseFee)
    {
      if EffectiveGasTip(rest[0], baseFee).None? {
        blocked := true;
        break;
      }
      if list != [] {
        var before := list[|list| - 1].nonce;
        if before >= rest[0].nonce || rest[0].nonce - before != 1 {
          break;
        }
      }
      TakeOne(list, rest, baseFee);
      list, rest := list + [rest[0]], rest[1..];
    }
    TakeNone(list, rest, baseFee);
  }

  /** One sender's next attempts, and the filter with an underpriced blocker marked as failed. */
  method Flatten(txs: seq<Tx>, filter: map<Hash, bool>, baseFee: Option<nat>)
    returns (list: seq<Tx>, dropped: nat, filter': map<Hash, bool>)
    ensures list == Flat(txs, filter, baseFee)
    ensures dropped == if Blocker(txs, filter, baseFee).Some? then 1 else 0
    ensures filter' == match Blocker(txs, filter, baseFee) case None => filter case Some(tx) => filter[tx.hash := false]
  {
    hide Run, Skipped, CanPay;
    list, dropped, filter' := [], 0, filter;
    var k := SkipChecked(txs, filter);
    if k == |txs| || txs[k].hash in filter {
      return;
    }
    var blocked;
    list, blocked := TakeRun(txs[k..], baseFee);
    if blocked {
      assert txs[k..][|list|] == txs[k + |list|];
      filter' := filter'[txs[k + |list|].hash := false];
      dropped := dropped + 1;
    }
  }

  // ---- the whole pool ----

  /** A sender's list is stored right, bounded, and cached. */
  ghost predicate Kept(items: Items, a: Address, caches: map<Hash, Tx>) {
    && Stored(items, a) && |items| <= USER_MAX
    && forall n :: n in items ==> items[n].hash in caches && caches[items[n].hash] == items[n]
  }

  /** Every list is kept so, and the cache is indexed by hash. */
  ghost predicate AllKept(pending: Pending, caches: map<Hash, Tx>) {
    && (forall a :: a in pending ==> Kept(pending[a], a, caches))
    && (forall h :: h in caches ==> caches[h].hash == h)
  }

  /** Cleaning only takes transactions that cannot pay. */
  ghost predicate Cleaned(before: Items, after: Items, baseFee: Option<nat>) {
    && (forall n :: n in after ==> n in before && after[n] == before[n])
    && (forall n :: n in before && n !in after ==> !CanPay(before[n], baseFee))
  }

  function ItemsOf(pending: Pending, a: Address): Items { if a in pending then pending[a] else map[] }

  /** Removing a transaction takes its slot, whoever holds it now, and all lower nonces. */
  function RemoveFrom(pending: Pending, tx: Tx): Pending {
    if tx.nonce !in ItemsOf(pending, tx.sender) then pending else
      var kept := Advance(pending[tx.sender], tx.nonce);
      if kept == map[] then pending - {tx.sender} else pending[tx.sender := kept]
  }

  /** What the pool holds. */
  datatype Snapshot = Snapshot(pending: Pending, caches: map<Hash, Tx>)

  /** A hash that is cached is refused; otherwise the transaction is cached and competes for its
      slot. */
  function Pushed(s: Snapshot, tx: Tx): Snapshot {
    if tx.hash in s.caches then s else
      Snapshot(s.pending[tx.sender := Add(ItemsOf(s.pending, tx.sender), tx, 0)], s.caches[tx.hash := tx])
  }

  function Removed(s: Snapshot, hash: Hash): Snapshot {
    if hash !in s.caches then s else Snapshot(RemoveFrom(s.pending, s.caches[hash]), s.caches - {hash})
  }

  function RemovedAll(s: Snapshot, hashes: seq<Hash>): Snapshot {
    if hashes == [] then s else Removed(RemovedAll(s, hashes[..|hashes| - 1]), hashes[|hashes| - 1])
  }

  lemma RemovedPush(s: Snapshot, hashes: seq<Hash>, h: Hash)
    ensures RemovedAll(s, hashes + [h]) == Removed(RemovedAll(s, hashes), h)
  {
    assert (hashes + [h])[..|hashes|] == hashes;
  }

  lemma AdvanceSize(items: Items, nonce: nat)
    ensures |Advance(items, nonce)| <= |items|
  {
    var kept := Advance(items, nonce);
    assert kept.Keys <= items.Keys;
    CardinalityOfSubset(kept.Keys, items.Keys);
  }

  lemma {:induction false} CardinalityOfSubset(s: set<nat>, t: set<nat>)
    requires s <= t
    ensures |s| <= |t|
    decreases |s|
  {
    if s != {} {
      var x :| x in s;
      CardinalityOfSubset(s - {x}, t - {x});
    }
  }

  /** After a removal no pending transaction depends on the cache entry that went with it. */
  lemma RemoveKeeps(pending: Pending, caches: map<Hash, Tx>, h: Hash)
    requires AllKept(pending, caches) && h in caches
    requires forall a :: a in pending ==> pending[a] != map[]
    ensures AllKept(RemoveFrom(pending, caches[h]), caches - {h})
    ensures forall a :: a in RemoveFrom(pending, caches[h]) ==> RemoveFrom(pending, caches[h])[a] != map[]
  {
    hide Kept, Advance;
    var tx := caches[h];
    var after := RemoveFrom(pending, tx);
    forall a | a in after
      ensures Kept(after[a], a, caches - {h}) && after[a] != map[]
    {
      assert a in pending && Kept(pending[a], a, caches);
      KeptAfterAdvance(pending[a], a, caches, tx);
      RemovedFromOne(pending, tx, a);
    }
    hide RemoveFrom;
  }

  lemma RemovedFromOne(pending: Pending, tx: Tx, a: Address)
    requires a in RemoveFrom(pending, tx)
    ensures a in pending
    ensures RemoveFrom(pending, tx)[a] ==
            if a == tx.sender && tx.nonce in pending[a] then Advance(pending[a], tx.nonce) else pending[a]
    ensures a == tx.sender && tx.nonce in pending[a] ==> RemoveFrom(pending, tx)[a] != map[]
  {
    hide Advance;
  }

  lemma KeptAfterAdvance(items: Items, a: Address, caches: map<Hash, Tx>, tx: Tx)
    requires Kept(items, a, caches) && tx.hash in caches && caches[tx.hash] == tx
    ensures a == tx.sender && tx.nonce in items ==> Kept(Advance(items, tx.nonce), a, caches - {tx.hash})
    ensures a != tx.sender || tx.nonce !in items ==> Kept(items, a, caches - {tx.hash})
  {
    AdvanceSize(items, tx.nonce);
  }

  lemma RemoveSlots(pending: Pending, tx: Tx)
    ensures forall a :: SlotsRise(ItemsOf(pending, a), ItemsOf(RemoveFrom(pending, tx), a))
  {
  }

  lemma SlotsStay(pending: Pending)
    ensures forall a :: SlotsRise(ItemsOf(pending, a), ItemsOf(pending, a))
  {
  }

  /** Counterexample to "removing a hash removes that transaction": once outbid, a transaction is
      still cached, so removing its hash evicts the replacement, which is then refused as known. */
  lemma RemoveEvictsReplacement(t1: Tx, t2: Tx)
    requires t1.sender == t2.sender && t1.nonce == t2.nonce && Outbids(t1, t2, 0) && t1.hash != t2.hash
    ensures var s := Pushed(Pushed(Snapshot(map[], map[]), t1), t2);
            && s.pending == map[t2.sender := map[t2.nonce := t2]] && t1.hash in s.caches
            && Removed(s, t1.hash).pending == map[]
            && Pushed(Removed(s, t1.hash), t2).pending == map[]
  {
    assert Add(map[], t1, 0) == map[t1.nonce := t1];
    assert Add(map[t1.nonce := t1], t2, 0) == map[t2.nonce := t2];
    assert Advance(map[t2.nonce := t2], t1.nonce) == map[];
  }

  /** Removing a cached transaction takes exactly the slots up to its nonce, and takes another
      transaction out of its own slot exactly when the slot was refilled. */
  lemma RemoveTakes(pending: Pending, tx: Tx, a: Address, n: nat)
    requires n in ItemsOf(pending, a)
    ensures n !in ItemsOf(RemoveFrom(pending, tx), a) <==> a == tx.sender && tx.nonce in pending[a] && n <= tx.nonce
    ensures n in ItemsOf(RemoveFrom(pending, tx), a) ==> ItemsOf(RemoveFrom(pending, tx), a)[n] == pending[a][n]
  {
  }

  lemma KeptAfterCaching(items: Items, a: Address, caches: map<Hash, Tx>, tx: Tx)
    requires Kept(items, a, caches) && tx.hash !in caches
    ensures Kept(items, a, caches[tx.hash := tx])
  {
  }

  lemma KeptAfterAdd(items: Items, after: Items, a: Address, caches: map<Hash, Tx>, tx: Tx)
    requires Kept(items, a, caches) && caches[tx.hash := tx] == caches && Stored(after, a) && |after| <= USER_MAX
    requires forall n :: n in after ==> after[n] == tx || (n in items && after[n] == items[n])
    ensures Kept(after, a, caches)
  {
    assert caches[tx.hash := tx][tx.hash] == tx;
  }

  lemma PushKeeps(pending: Pending, caches: map<Hash, Tx>, tx: Tx)
    requires AllKept(pending, caches) && tx.hash !in caches
    ensures var items := Add(ItemsOf(pending, tx.sender), tx, 0);
            && AllKept(pending[tx.sender := items], caches[tx.hash := tx]) && items != map[]
            && SlotsRise(ItemsOf(pending, tx.sender), items)
  {
    var items := ItemsOf(pending, tx.sender);
    assert Kept(items, tx.sender, caches);
    AddKeeps(items, tx, 0, tx.sender);
    hide Add, Kept, Stored, SlotsRise;
    var caches' := caches[tx.hash := tx];
    KeptAfterCaching(items, tx.sender, caches, tx);
    KeptAfterAdd(items, Add(items, tx, 0), tx.sender, caches', tx);
    forall a | a in pending
      ensures Kept(pending[a], a, caches')
    {
      KeptAfterCaching(pending[a], a, caches, tx);
    }
  }

  /** A run of one sender's pending transactions that can all pay, with consecutive nonces. */
  ghost predicate RunOf(list: seq<Tx>, items: Items, baseFee: Option<nat>) {
    && list != [] && ConsecutiveNonces(list)
    && forall i :: 0 <= i < |list| ==>
      CanPay(list[i], baseFee) && list[i].nonce in items && items[list[i].nonce] == list[i]
  }

  /** Uncaching what was cleaned out of one list leaves every other pending entry cached. */
  lemma CleanKeeps(pending: Pending, caches: map<Hash, Tx>, a: Address, gone: seq<nat>)
    requires AllKept(pending, caches) && a in pending
    requires Descending(gone) && forall i :: 0 <= i < |gone| ==> gone[i] in pending[a]
    ensures AllKept(pending[a := Without(pending[a], gone)], caches - HashSet(pending[a], gone))
  {
    hide Kept, Without, HashSet, Descending;
    var pending', caches' := pending[a := Without(pending[a], gone)], caches - HashSet(pending[a], gone);
    forall b | b in pending'
      ensures Kept(pending'[b], b, caches')
    {
      CleanKeepsOne(pending, caches, a, gone, b);
    }
  }

  lemma CleanKeepsOne(pending: Pending, caches: map<Hash, Tx>, a: Address, gone: seq<nat>, b: Address)
    requires AllKept(pending, caches) && a in pending && b in pending
    requires Descending(gone) && forall i :: 0 <= i < |gone| ==> gone[i] in pending[a]
    ensures Kept(if b == a then Without(pending[a], gone) else pending[b], b, caches - HashSet(pending[a], gone))
  {
    var items := pending[a];
    var after := if b == a then Without(items, gone) else pending[b];
    assert Kept(items, a, caches) && Kept(pending[b], b, caches);
    WithoutSize(items, gone);
    hide *;
    forall n | n in after
      ensures n in pending[b] && after[n] == pending[b][n] && after[n].hash !in HashesAt(items, gone)
    {
      WithoutContents(items, gone, n);
      CleanedHash(items, pending[b], caches, a, b, gone, n);
    }
    KeptWithout(pending[b], after, b, caches, HashesAt(items, gone));
  }

  lemma KeptWithout(items: Items, after: Items, b: Address, caches: map<Hash, Tx>, hashes: seq<Hash>)
    requires Kept(items, b, caches) && |after| <= |items|
    requires forall n :: n in after ==> n in items && after[n] == items[n] && after[n].hash !in hashes
    ensures Kept(after, b, caches - (set h | h in hashes))
  {
  }

  lemma CleanedHash(items: Items, others: Items, caches: map<Hash, Tx>, a: Address, b: Address, gone: seq<nat>, n: nat)
    requires Kept(items, a, caches) && Kept(others, b, caches) && n in others
    requires forall i :: 0 <= i < |gone| ==> gone[i] in items
    requires a == b ==> others == items && n !in gone
    ensures others[n].hash !in HashesAt(items, gone)
  {
    HashesContents(items, gone, others[n].hash);
    forall i | 0 <= i < |gone|
      ensures items[gone[i]].hash != others[n].hash
    {
      assert items[gone[i]].nonce == gone[i] && caches[items[gone[i]].hash] == items[gone[i]];
    }
  }

  lemma UnderpricedIsCleaned(items: Items, baseFee: Option<nat>, limit: nat)
    ensures Cleaned(items, Without(items, MostUnderpriced(items, baseFee, limit)), baseFee)
  {
    var gone, keys := MostUnderpriced(items, baseFee, limit), Listed(items.Keys);
    KeysAreIn(items);
    forall n
      ensures n in Without(items, gone) ==> n in items && Without(items, gone)[n] == items[n]
      ensures n in items && n !in Without(items, gone) ==> !CanPay(items[n], baseFee)
    {
      WithoutContents(items, gone, n);
      UnderpricedMembers(items, keys, baseFee, limit, n);
    }
  }

  lemma CleanedSize(p: Pending, keys: seq<Address>, i: nat, items: Items)
    requires Ascending(keys) && i < |keys| && keys[i] in p
    ensures SizeUpTo(p[keys[i] := items], keys, i + 1) == SizeUpTo(p, keys, i + 1) - |p[keys[i]]| + |items|
  {
    SizeSame(p, p[keys[i] := items], keys, i);
  }

  /** One sender's transactions in nonce order. */
  ghost function InNonceOrder(items: Items): seq<Tx> {
    KeysAreIn(items);
    At(items, Listed(items.Keys))
  }

  lemma InNonceOrderAt(items: Items, i: nat)
    requires i < |InNonceOrder(items)|
    ensures exists n :: n in items && InNonceOrder(items)[i] == items[n]
  {
    KeysAreIn(items);
  }

  /** The list holds each of the sender's transactions, in ascending order of nonce. */
  lemma InNonceOrderFacts(items: Items, a: Address)
    requires Stored(items, a)
    ensures var txs := InNonceOrder(items);
            && (forall i, j :: 0 <= i < j < |txs| ==> txs[i].nonce < txs[j].nonce)
            && (forall x :: x in txs <==> x.nonce in items && items[x.nonce] == x)
  {
    var keys, txs := Listed(items.Keys), InNonceOrder(items);
    KeysAreIn(items);
    ListedAscends(items.Keys);
    hide Listed;
    forall x
      ensures x in txs <==> x.nonce in items && items[x.nonce] == x
    {
      ListedHas(items.Keys, x.nonce);
      if x.nonce in items && items[x.nonce] == x {
        var i :| 0 <= i < |keys| && keys[i] == x.nonce;
        assert txs[i] == x;
      }
    }
  }

  /** What is offered for a sender, given the marks so far. */
  ghost function OfferOf(items: Items, filter: map<Hash, bool>, baseFee: Option<nat>): seq<Tx> {
    Flat(InNonceOrder(items), filter, baseFee)
  }

  /** The transaction that keeps a sender's offer short because it cannot pay. */
  ghost function BlockerOf(items: Items, filter: map<Hash, bool>, baseFee: Option<nat>): Option<Tx> {
    Blocker(InNonceOrder(items), filter, baseFee)
  }

  /** A blocker is marked as failed. */
  function Mark(filter: map<Hash, bool>, blocker: Option<Tx>): map<Hash, bool> {
    match blocker case None => filter case Some(tx) => filter[tx.hash := false]
  }

  lemma OfferAt(items: Items, filter: map<Hash, bool>, baseFee: Option<nat>, i: nat)
    requires i < |OfferOf(items, filter, baseFee)|
    ensures var list := OfferOf(items, filter, baseFee);
            && CanPay(list[i], baseFee) && (i > 0 ==> list[i].nonce == list[i - 1].nonce + 1)
            && exists n :: n in items && list[i] == items[n]
  {
    var txs := InNonceOrder(items);
    var k := Skipped(txs, filter);
    hide InNonceOrder, Run, Skipped, CanPay;
    RunAt(txs[k..], None, baseFee, i);
    assert txs[k..][i] == txs[k + i];
    InNonceOrderAt(items, k + i);
  }

  /** What is offered is a run of that sender's own transactions. */
  lemma FlatIsRun(items: Items, a: Address, filter: map<Hash, bool>, baseFee: Option<nat>)
    requires Stored(items, a)
    ensures var list := OfferOf(items, filter, baseFee);
            list != [] ==> RunOf(list, items, baseFee)
  {
    var list := OfferOf(items, filter, baseFee);
    hide OfferOf, CanPay;
    forall i | 0 <= i < |list|
      ensures CanPay(list[i], baseFee) && list[i].nonce in items && items[list[i].nonce] == list[i]
      ensures i > 0 ==> list[i].nonce == list[i - 1].nonce + 1
    {
      OfferAt(items, filter, baseFee, i);
    }
  }

  /** One sender's next attempts. */
  method Scan(items: Items, ghost a: Address, filter: map<Hash, bool>, baseFee: Option<nat>)
    returns (list: seq<Tx>, dropped: nat, filter': map<Hash, bool>)
    requires Stored(items, a)
    ensures list == OfferOf(items, filter, baseFee) && (list != [] ==> RunOf(list, items, baseFee))
    ensures dropped == if BlockerOf(items, filter, baseFee).Some? then 1 else 0
    ensures filter' == Mark(filter, BlockerOf(items, filter, baseFee))
  {
    var keys := SortedKeys(items.Keys);
    KeysAreIn(items);
    FlatIsRun(items, a, filter, baseFee);
    list, dropped, filter' := Flatten(At(items, keys), filter, baseFee);
  }

  // ---- offers do not depend on the other senders ----

  /** The marks agree on all these transactions. */
  ghost predicate Agree(f: map<Hash, bool>, g: map<Hash, bool>, txs: seq<Tx>) {
    forall i :: 0 <= i < |txs| ==> AgreeOn(f, g, txs[i].hash)
  }

  ghost predicate AgreeOn(f: map<Hash, bool>, g: map<Hash, bool>, h: Hash) {
    (h in f <==> h in g) && (h in f ==> f[h] == g[h])
  }

  lemma {:induction false} SkippedAgrees(txs: seq<Tx>, f: map<Hash, bool>, g: map<Hash, bool>)
    requires Agree(f, g, txs)
    ensures Skipped(txs, f) == Skipped(txs, g)
    decreases |txs|
  {
    if txs != [] {
      assert AgreeOn(f, g, txs[0].hash);
      assert forall i :: 0 <= i < |txs[1..]| ==> txs[1..][i] == txs[i + 1];
      SkippedAgrees(txs[1..], f, g);
    }
  }

  lemma OfferAgrees(items: Items, f: map<Hash, bool>, g: map<Hash, bool>, baseFee: Option<nat>)
    requires Agree(f, g, InNonceOrder(items))
    ensures OfferOf(items, f, baseFee) == OfferOf(items, g, baseFee)
    ensures BlockerOf(items, f, baseFee) == BlockerOf(items, g, baseFee)
  {
    var txs := InNonceOrder(items);
    hide InNonceOrder, Run, Skipped;
    SkippedAgrees(txs, f, g);
    var k := Skipped(txs, f);
    assert k < |txs| ==> AgreeOn(f, g, txs[k].hash);
  }

  /** How the pool is listed: by these marks, at this base fee, up to so many senders, and
      cleaning while more than `size` transactions were scanned. */
  datatype Query = Query(filter: map<Hash, bool>, baseFee: Option<nat>, limit: nat, size: nat)

  /** What is offered for the first `i` senders, each by the marks made before listing. */
  ghost function OffersUpTo(pending: Pending, senders: seq<Address>, i: nat, q: Query): map<Address, seq<Tx>>
    requires i <= |senders|
  {
    if i == 0 then map[] else
      var before, a := OffersUpTo(pending, senders, i - 1, q), senders[i - 1];
      var offer := OfferOf(ItemsOf(pending, a), q.filter, q.baseFee);
      if offer == [] then before else before[a := offer]
  }

  /** The marks after listing the first `i` senders: each blocker is marked as failed. */
  ghost function MarksUpTo(pending: Pending, senders: seq<Address>, i: nat, q: Query): map<Hash, bool>
    requires i <= |senders|
  {
    if i == 0 then q.filter else
      Mark(MarksUpTo(pending, senders, i - 1, q), BlockerOf(ItemsOf(pending, senders[i - 1]), q.filter, q.baseFee))
  }

  /** Listing some senders marks nothing of another sender. */
  lemma {:induction false} MarksElsewhere(s: Snapshot, senders: seq<Address>, i: nat, q: Query, h: Hash)
    requires i <= |senders| && AllKept(s.pending, s.caches)
    requires h in s.caches && s.caches[h].sender !in senders[..i]
    ensures AgreeOn(MarksUpTo(s.pending, senders, i, q), q.filter, h)
  {
    if i > 0 {
      var a := senders[i - 1];
      assert senders[..i] == senders[..i - 1] + [a];
      assert Kept(ItemsOf(s.pending, a), a, s.caches);
      hide BlockerOf, Kept, AgreeOn, Mark, AllKept;
      MarksElsewhere(s, senders, i - 1, q, h);
      MarkElsewhere(ItemsOf(s.pending, a), a, s.caches, q, h, MarksUpTo(s.pending, senders, i - 1, q));
    }
  }

  lemma MarkElsewhere(items: Items, a: Address, caches: map<Hash, Tx>, q: Query, h: Hash, marks: map<Hash, bool>)
    requires Kept(items, a, caches) && h in caches && caches[h].sender != a && AgreeOn(marks, q.filter, h)
    ensures AgreeOn(Mark(marks, BlockerOf(items, q.filter, q.baseFee)), q.filter, h)
  {
    hide BlockerOf;
    if BlockerOf(items, q.filter, q.baseFee).Some? {
      BlockerIsPending(items, q.filter, q.baseFee);
    }
  }

  lemma BlockerIsPending(items: Items, filter: map<Hash, bool>, baseFee: Option<nat>)
    requires BlockerOf(items, filter, baseFee).Some?
    ensures exists n :: n in items && items[n] == BlockerOf(items, filter, baseFee).value
  {
    var txs := InNonceOrder(items);
    hide InNonceOrder, Run, Skipped;
    InNonceOrderAt(items, Skipped(txs, filter) + |Flat(txs, filter, baseFee)|);
  }

  /** So a sender's offer and blocker are those by the marks made before listing. */
  lemma OfferInTurn(s: Snapshot, senders: seq<Address>, i: nat, q: Query)
    requires i < |senders| && Ascending(senders) && AllKept(s.pending, s.caches) && senders[i] in s.pending
    ensures var marks, items := MarksUpTo(s.pending, senders, i, q), s.pending[senders[i]];
            && OfferOf(items, marks, q.baseFee) == OfferOf(items, q.filter, q.baseFee)
            && BlockerOf(items, marks, q.baseFee) == BlockerOf(items, q.filter, q.baseFee)
  {
    var marks, items := MarksUpTo(s.pending, senders, i, q), s.pending[senders[i]];
    var txs := InNonceOrder(items);
    assert Kept(items, senders[i], s.caches);
    hide InNonceOrder;
    forall j | 0 <= j < |txs|
      ensures AgreeOn(marks, q.filter, txs[j].hash)
    {
      InNonceOrderAt(items, j);
      MarksElsewhere(s, senders, i, q, txs[j].hash);
    }
    OfferAgrees(items, marks, q.filter, q.baseFee);
  }

  lemma {:induction false} OffersMembers(pending: Pending, senders: seq<Address>, i: nat, q: Query, a: Address)
    requires i <= |senders|
    ensures var offers, offer := OffersUpTo(pending, senders, i, q), OfferOf(ItemsOf(pending, a), q.filter, q.baseFee);
            && (a in offers <==> a in senders[..i] && offer != [])
            && (a in offers ==> offers[a] == offer)
  {
    hide OfferOf;
    if i > 0 {
      assert senders[..i] == senders[..i - 1] + [senders[i - 1]];
      OffersMembers(pending, senders, i - 1, q, a);
    }
  }

  /** What is offered from a pool: runs as the marks have them, and if there is room, every
      sender that has one. */
  ghost predicate IsOffer(result: map<Address, seq<Tx>>, pending: Pending, q: Query) {
    && (forall a :: a in result ==>
          a in pending && result[a] != [] && result[a] == OfferOf(pending[a], q.filter, q.baseFee))
    && (|result| < q.limit ==>
          forall a :: a in pending && OfferOf(pending[a], q.filter, q.baseFee) != [] ==> a in result)
  }

  /** The same for one sender. */
  ghost predicate OfferedAs(result: map<Address, seq<Tx>>, pending: Pending, q: Query, complete: bool, a: Address) {
    && (a in result ==> a in pending && result[a] != [] && result[a] == OfferOf(pending[a], q.filter, q.baseFee))
    && (complete && a in pending && OfferOf(pending[a], q.filter, q.baseFee) != [] ==> a in result)
  }

  lemma OfferMade(result: map<Address, seq<Tx>>, pending: Pending, q: Query, complete: bool)
    requires (complete || |result| >= q.limit) && forall a :: OfferedAs(result, pending, q, complete, a)
    ensures IsOffer(result, pending, q)
  {
    hide OfferOf;
    assert forall a :: a in result ==> OfferedAs(result, pending, q, complete, a);
    assert forall a :: a in pending ==> OfferedAs(result, pending, q, complete, a);
  }

  lemma OffersAreOffer(pending: Pending, senders: seq<Address>, i: nat, q: Query)
    requires i <= |senders| && senders == Listed(pending.Keys)
    requires i == |senders| || |OffersUpTo(pending, senders, i, q)| >= q.limit
    ensures IsOffer(OffersUpTo(pending, senders, i, q), pending, q)
  {
    hide *;
    var offers, complete := OffersUpTo(pending, senders, i, q), i == |senders|;
    forall a
      ensures OfferedAs(offers, pending, q, complete, a)
    {
      OfferedInTurn(pending, senders, i, q, a);
    }
    OfferMade(offers, pending, q, complete);
  }

  lemma OfferedInTurn(pending: Pending, senders: seq<Address>, i: nat, q: Query, a: Address)
    requires i <= |senders| && senders == Listed(pending.Keys)
    ensures OfferedAs(OffersUpTo(pending, senders, i, q), pending, q, i == |senders|, a)
  {
    hide OfferOf, OffersUpTo, Listed;
    OffersMembers(pending, senders, i, q, a);
    ListedHas(pending.Keys, a);
    assert a in senders[..i] ==> a in senders;
    assert senders[..|senders|] == senders;
  }

  /** Listing some senders marks exactly their blockers as failed and leaves every other mark. */
  lemma {:induction false} MarksUpToMean(pending: Pending, senders: seq<Address>, i: nat, q: Query, h: Hash)
    requires i <= |senders|
    ensures var marks := MarksUpTo(pending, senders, i, q);
            if BlocksUpTo(pending, senders, i, q, h) then h in marks && !marks[h] else AgreeOn(marks, q.filter, h)
  {
    hide BlockerOf;
    if i > 0 {
      MarksUpToMean(pending, senders, i - 1, q, h);
      BlocksStep(pending, senders, i - 1, q, h);
    }
  }

  /** The hash is that of a blocker of one of the first `i` senders. */
  ghost predicate BlocksUpTo(pending: Pending, senders: seq<Address>, i: nat, q: Query, h: Hash)
    requires i <= |senders|
  {
    exists j :: 0 <= j < i && BlocksAt(pending, senders[j], q, h)
  }

  ghost predicate BlocksAt(pending: Pending, a: Address, q: Query, h: Hash) {
    var blocker := BlockerOf(ItemsOf(pending, a), q.filter, q.baseFee);
    blocker.Some? && blocker.value.hash == h
  }

  lemma BlocksStep(pending: Pending, senders: seq<Address>, i: nat, q: Query, h: Hash)
    requires i < |senders|
    ensures BlocksUpTo(pending, senders, i + 1, q, h) <==>
            BlocksUpTo(pending, senders, i, q, h) || BlocksAt(pending, senders[i], q, h)
  {
    hide BlocksAt;
  }

  // ---- cleaning ----

  /** The nonces a list loses in its turn: if something of it was dropped and the lists up to it
      are over the size, those that cannot pay, largest first, at most the excess. */
  ghost function GoneInTurn(items: Items, blocked: bool, total: nat, size: nat, baseFee: Option<nat>): seq<nat> {
    if blocked && total > size then MostUnderpriced(items, baseFee, total - size) else []
  }

  /** The pool after the turns of the first `i` senders. */
  ghost function SweptUpTo(pending: Pending, senders: seq<Address>, i: nat, q: Query): Pending
    requires i <= |senders|
  {
    if i == 0 then pending else
      var before, a := SweptUpTo(pending, senders, i - 1, q), senders[i - 1];
      var blocked := BlockerOf(ItemsOf(pending, a), q.filter, q.baseFee).Some?;
      var gone := GoneInTurn(ItemsOf(before, a), blocked, SizeUpTo(before, senders, i), q.size, q.baseFee);
      before[a := Without(ItemsOf(before, a), gone)]
  }

  function NonEmpty(pending: Pending): Pending { map a | a in pending && pending[a] != map[] :: pending[a] }

  predicate Holds(pending: Pending, tx: Tx) {
    tx.nonce in ItemsOf(pending, tx.sender) && ItemsOf(pending, tx.sender)[tx.nonce] == tx
  }

  /** The cache without what was pending before and is not any more. */
  function Uncached(caches: map<Hash, Tx>, before: Pending, after: Pending): map<Hash, Tx> {
    map h | h in caches && !(Holds(before, caches[h]) && !Holds(after, caches[h])) :: caches[h]
  }

  /** Whether a cached transaction is among those that go from one list. */
  lemma GoesFromList(items: Items, a: Address, caches: map<Hash, Tx>, gone: seq<nat>, tx: Tx)
    requires Kept(items, a, caches) && tx.hash in caches && caches[tx.hash] == tx
    requires forall i :: 0 <= i < |gone| ==> gone[i] in items
    ensures tx.hash in HashesAt(items, gone) <==> tx.nonce in gone && items[tx.nonce] == tx
    ensures tx.hash in HashesAt(items, gone) ==> tx.sender == a
  {
    HashesContents(items, gone, tx.hash);
    forall i | 0 <= i < |gone|
      ensures items[gone[i]].nonce == gone[i] && items[gone[i]].sender == a
      ensures caches[items[gone[i]].hash] == items[gone[i]]
    {
      assert gone[i] in items;
    }
  }

  lemma StillHeld(now: Pending, a: Address, gone: seq<nat>, tx: Tx)
    requires a in now
    ensures Holds(now[a := Without(now[a], gone)], tx) <==> Holds(now, tx) && !(tx.sender == a && tx.nonce in gone)
  {
    WithoutContents(now[a], gone, tx.nonce);
  }

  /** Cleaning one list uncaches just what goes. */
  lemma UncachedTurn(start: Pending, caches0: map<Hash, Tx>, now: Pending, caches: map<Hash, Tx>, a: Address,
                     gone: seq<nat>)
    requires AllKept(start, caches0) && caches == Uncached(caches0, start, now)
    requires a in start && a in now && now[a] == start[a] && (forall i :: 0 <= i < |gone| ==> gone[i] in now[a])
    ensures caches - HashSet(now[a], gone) == Uncached(caches0, start, now[a := Without(now[a], gone)])
  {
    var after := Uncached(caches0, start, now[a := Without(now[a], gone)]);
    UncachedIsPart(caches0, start, now);
    UncachedIsPart(caches0, start, now[a := Without(now[a], gone)]);
    forall h | h in caches0
      ensures h in after <==> h in caches && h !in HashesAt(now[a], gone)
    {
      UncachedTurnAt(start, caches0, now, a, gone, h);
    }
    hide *;
    SameParts(caches0, caches, after, HashesAt(now[a], gone));
  }

  lemma UncachedIsPart(caches: map<Hash, Tx>, before: Pending, after: Pending)
    ensures forall h :: h in Uncached(caches, before, after) ==>
            h in caches && Uncached(caches, before, after)[h] == caches[h]
  {
  }

  lemma SameParts(whole: map<Hash, Tx>, part: map<Hash, Tx>, after: map<Hash, Tx>, gone: seq<Hash>)
    requires forall h :: h in part ==> h in whole && part[h] == whole[h]
    requires forall h :: h in after ==> h in whole && after[h] == whole[h]
    requires forall h :: h in whole ==> (h in after <==> h in part && h !in gone)
    ensures part - (set h | h in gone) == after
  {
  }

  lemma UncachedTurnAt(start: Pending, caches0: map<Hash, Tx>, now: Pending, a: Address, gone: seq<nat>, h: Hash)
    requires AllKept(start, caches0) && h in caches0
    requires a in start && a in now && now[a] == start[a] && (forall i :: 0 <= i < |gone| ==> gone[i] in now[a])
    ensures h in Uncached(caches0, start, now[a := Without(now[a], gone)]) <==>
            h in Uncached(caches0, start, now) && h !in HashesAt(now[a], gone)
  {
    var tx := caches0[h];
    assert Kept(now[a], a, caches0) && tx.hash == h;
    hide AllKept, Kept, HashesAt, Without;
    GoesFromList(now[a], a, caches0, gone, tx);
    StillHeld(now, a, gone, tx);
    HeldInList(start, a, tx);
    hide Holds, ItemsOf;
  }

  lemma HeldInList(pending: Pending, a: Address, tx: Tx)
    requires a in pending
    ensures tx.sender == a ==> (Holds(pending, tx) <==> tx.nonce in pending[a] && pending[a][tx.nonce] == tx)
  {
  }

  lemma GoneFacts(items: Items, blocked: bool, total: nat, size: nat, baseFee: Option<nat>)
    ensures var gone := GoneInTurn(items, blocked, total, size, baseFee);
            && Descending(gone) && (forall i :: 0 <= i < |gone| ==> gone[i] in items)
            && |gone| <= Max(0, total - size) && |Without(items, gone)| + |gone| == |items|
            && Cleaned(items, Without(items, gone), baseFee)
  {
    if blocked && total > size {
      var keys, limit := Listed(items.Keys), total - size;
      KeysAreIn(items);
      ListedAscends(items.Keys);
      UnderpricedDescends(items, keys, baseFee, limit);
      UnderpricedMembers(items, keys, baseFee, limit, 0);
      var gone := Underpriced(items, keys, baseFee, limit);
      forall i | 0 <= i < |gone|
        ensures gone[i] in items
      {
        UnderpricedMembers(items, keys, baseFee, limit, gone[i]);
      }
      WithoutSize(items, gone);
      UnderpricedIsCleaned(items, baseFee, limit);
    }
  }

  /** A turn cleans enough: over the size and with something dropped, the list loses transactions
      until the size is met or all that is left covers the base fee; otherwise it loses nothing. */
  lemma TurnCleansEnough(items: Items, blocked: bool, total: nat, size: nat, baseFee: Option<nat>)
    ensures var gone := GoneInTurn(items, blocked, total, size, baseFee);
            && (!blocked || total <= size ==> gone == [])
            && (blocked && total > size ==>
                  || |gone| == total - size
                  || forall n :: n in Without(items, gone) ==> n in items && Covers(items[n], baseFee))
  {
    if blocked && total > size {
      var keys, limit := Listed(items.Keys), total - size;
      KeysAreIn(items);
      ListedAscends(items.Keys);
      var gone := Underpriced(items, keys, baseFee, limit);
      hide Listed, Underpriced, Without;
      if |gone| != limit {
        forall n | n in Without(items, gone)
          ensures n in items && Covers(items[n], baseFee)
        {
          WithoutContents(items, gone, n);
          ListedHas(items.Keys, n);
          PaysIfCovers(items[n], baseFee);
          if !CanPay(items[n], baseFee) {
            UnderpricedSpares(items, keys, baseFee, limit, n, n);
          }
        }
      }
    }
  }

  /** What a sweep has done after some turns: the senders still to come are untouched, lists only
      lost what cannot pay, the cache followed, and enough is left. */
  ghost predicate SweepOk(start: Snapshot, keys: seq<Address>, i: nat, q: Query, now: Pending) {
    && now.Keys == start.pending.Keys
    && Untouched(start.pending, keys, i, now) && EachCleaned(start.pending, now, q.baseFee)
    && AllKept(now, Uncached(start.caches, start.pending, now))
    && SizeOf(now, keys) >= Min(SizeOf(start.pending, keys), q.size)
  }

  lemma SweepMeans(start: Snapshot, keys: seq<Address>, i: nat, q: Query, now: Pending)
    ensures SweepOk(start, keys, i, q, now) <==>
            && now.Keys == start.pending.Keys && Untouched(start.pending, keys, i, now)
            && EachCleaned(start.pending, now, q.baseFee)
            && AllKept(now, Uncached(start.caches, start.pending, now))
            && SizeOf(now, keys) >= Min(SizeOf(start.pending, keys), q.size)
  {
    hide AllKept, Uncached, SizeUpTo, Cleaned;
  }

  lemma SweepStart(start: Snapshot, keys: seq<Address>, q: Query)
    requires AllKept(start.pending, start.caches) && keys == Listed(start.pending.Keys)
    ensures SweepOk(start, keys, 0, q, start.pending) && SweptUpTo(start.pending, keys, 0, q) == start.pending
    ensures Uncached(start.caches, start.pending, start.pending) == start.caches
  {
    hide AllKept, SizeUpTo, Listed;
    assert Uncached(start.caches, start.pending, start.pending) == start.caches;
    forall j | 0 <= j < |keys|
      ensures keys[j] in start.pending
    {
      ListedHas(start.pending.Keys, keys[j]);
    }
  }

  /** What one turn, of the sender `keys[i]`, does to the cache. */
  lemma TurnKeeps(start: Snapshot, now: Pending, a: Address, gone: seq<nat>)
    requires AllKept(start.pending, start.caches) && AllKept(now, Uncached(start.caches, start.pending, now))
    requires a in now && a in start.pending && now[a] == start.pending[a] && Descending(gone)
    requires forall k :: 0 <= k < |gone| ==> gone[k] in now[a]
    ensures var now' := now[a := Without(now[a], gone)];
            && AllKept(now', Uncached(start.caches, start.pending, now'))
            && Uncached(start.caches, start.pending, now) - HashSet(now[a], gone) ==
              Uncached(start.caches, start.pending, now')
  {
    hide *;
    UncachedTurn(start.pending, start.caches, now, Uncached(start.caches, start.pending, now), a, gone);
    CleanKeeps(now, Uncached(start.caches, start.pending, now), a, gone);
  }

  /** ... and to the lists. */
  lemma TurnCleans(start: Pending, keys: seq<Address>, i: nat, q: Query, now: Pending, items: Items, gone: nat)
    requires i < |keys| && Ascending(keys) && Untouched(start, keys, i, now) && EachCleaned(start, now, q.baseFee)
    requires keys[i] in now && now.Keys == start.Keys && Cleaned(now[keys[i]], items, q.baseFee)
    requires |items| + gone == |now[keys[i]]|
    requires gone <= Max(0, SizeUpTo(now, keys, i + 1) - q.size)
    requires SizeOf(now, keys) >= Min(SizeOf(start, keys), q.size)
    ensures var now' := now[keys[i] := items];
            && now'.Keys == start.Keys && Untouched(start, keys, i + 1, now') && EachCleaned(start, now', q.baseFee)
            && SizeOf(now', keys) >= Min(SizeOf(start, keys), q.size)
            && SizeUpTo(now', keys, i + 1) + gone == SizeUpTo(now, keys, i + 1)
  {
    hide *;
    UntouchedAt(start, keys, i, now);
    CleanedStep(start, now, keys[i], items, q.baseFee);
    UntouchedBehind(start, keys, i, now, items);
    SizeStep(start, keys, i, now, items, q.size, gone);
  }

  lemma SweepStep(start: Snapshot, keys: seq<Address>, i: nat, q: Query, now: Pending, blocked: bool, gone: seq<nat>)
    requires AllKept(start.pending, start.caches) && i < |keys| && Ascending(keys)
    requires SweepOk(start, keys, i, q, now) && keys[i] in now
    requires gone == GoneInTurn(now[keys[i]], blocked, SizeUpTo(now, keys, i + 1), q.size, q.baseFee)
    ensures forall k :: 0 <= k < |gone| ==> gone[k] in now[keys[i]]
    ensures var now' := now[keys[i] := Without(now[keys[i]], gone)];
            && SweepOk(start, keys, i + 1, q, now')
              && SizeUpTo(now', keys, i + 1) + |gone| == SizeUpTo(now, keys, i + 1)
            && Uncached(start.caches, start.pending, now) - HashSet(now[keys[i]], gone) ==
              Uncached(start.caches, start.pending, now')
  {
    hide *;
    SweepMeans(start, keys, i, q, now);
    UntouchedAt(start.pending, keys, i, now);
    GoneFacts(now[keys[i]], blocked, SizeUpTo(now, keys, i + 1), q.size, q.baseFee);
    TurnKeeps(start, now, keys[i], gone);
    TurnCleans(start.pending, keys, i, q, now, Without(now[keys[i]], gone), |gone|);
    SweepMeans(start, keys, i + 1, q, now[keys[i] := Without(now[keys[i]], gone)]);
  }

  lemma SizeStep(start: Pending, keys: seq<Address>, i: nat, now: Pending, items: Items, size: nat, gone: nat)
    requires Ascending(keys) && i < |keys| && keys[i] in now && |items| + gone == |now[keys[i]]|
    requires gone <= Max(0, SizeUpTo(now, keys, i + 1) - size) && SizeOf(now, keys) >= Min(SizeOf(start, keys), size)
    ensures SizeUpTo(now[keys[i] := items], keys, i + 1) + gone == SizeUpTo(now, keys, i + 1)
    ensures SizeOf(now[keys[i] := items], keys) >= Min(SizeOf(start, keys), size)
  {
    var now' := now[keys[i] := items];
    CleanedSize(now, keys, i, items);
    SizeGrows(now', keys, i + 1, |keys|);
    if gone == 0 {
      SizeSame(now, now', keys, |keys|);
    }
  }

  ghost predicate EachCleaned(start: Pending, now: Pending, baseFee: Option<nat>) {
    forall a :: a in now && a in start ==> Cleaned(start[a], now[a], baseFee)
  }

  lemma CleanedStep(start: Pending, now: Pending, a: Address, items: Items, baseFee: Option<nat>)
    requires EachCleaned(start, now, baseFee) && a in now && a in start && now[a] == start[a]
    requires Cleaned(now[a], items, baseFee)
    ensures EachCleaned(start, now[a := items], baseFee)
  {
    hide Cleaned;
  }

  ghost predicate Untouched(start: Pending, keys: seq<Address>, i: nat, now: Pending) {
    forall j :: i <= j < |keys| ==> keys[j] in now && keys[j] in start && now[keys[j]] == start[keys[j]]
  }

  lemma UntouchedAt(start: Pending, keys: seq<Address>, i: nat, now: Pending)
    requires Untouched(start, keys, i, now) && i < |keys|
    ensures keys[i] in now && keys[i] in start && now[keys[i]] == start[keys[i]]
  {
  }

  lemma UntouchedBehind(start: Pending, keys: seq<Address>, i: nat, now: Pending, items: Items)
    requires Ascending(keys) && i < |keys| && Untouched(start, keys, i, now)
    ensures Untouched(start, keys, i + 1, now[keys[i] := items])
  {
  }

  lemma {:induction false} SweepKeeps(start: Snapshot, keys: seq<Address>, i: nat, q: Query)
    requires AllKept(start.pending, start.caches) && keys == Listed(start.pending.Keys) && i <= |keys|
    ensures SweepOk(start, keys, i, q, SweptUpTo(start.pending, keys, i, q))
    decreases i
  {
    hide *;
    if i == 0 {
      SweepStart(start, keys, q);
    } else {
      ListedAscends(start.pending.Keys);
      SweepKeeps(start, keys, i - 1, q);
      SweepNext(start, keys, i - 1, q);
    }
  }

  lemma SweepNext(start: Snapshot, keys: seq<Address>, i: nat, q: Query)
    requires AllKept(start.pending, start.caches) && i < |keys| && Ascending(keys)
    requires SweepOk(start, keys, i, q, SweptUpTo(start.pending, keys, i, q))
    ensures SweepOk(start, keys, i + 1, q, SweptUpTo(start.pending, keys, i + 1, q))
  {
    hide *;
    var now, blocker := SweptUpTo(start.pending, keys, i, q),
      BlockerOf(ItemsOf(start.pending, keys[i]), q.filter, q.baseFee);
    SweptStep(start, keys, i, q);
    SweepStep(start, keys, i, q, now, blocker.Some?,
              GoneInTurn(now[keys[i]], blocker.Some?, SizeUpTo(now, keys, i + 1), q.size, q.baseFee));
  }

  lemma SweptStep(start: Snapshot, keys: seq<Address>, i: nat, q: Query)
    requires i < |keys| && SweepOk(start, keys, i, q, SweptUpTo(start.pending, keys, i, q))
    ensures var a, now := keys[i], SweptUpTo(start.pending, keys, i, q);
            && a in now && a in start.pending && now[a] == start.pending[a]
            && var blocker := BlockerOf(ItemsOf(start.pending, a), q.filter, q.baseFee);
               var gone := GoneInTurn(now[a], blocker.Some?, SizeUpTo(now, keys, i + 1), q.size, q.baseFee);
               && SweptUpTo(start.pending, keys, i + 1, q) == now[a := Without(now[a], gone)]
               && MarksUpTo(start.pending, keys, i + 1, q) == Mark(MarksUpTo(start.pending, keys, i, q), blocker)
  {
    hide BlockerOf, GoneInTurn, Without, SizeUpTo, Mark, AllKept, Cleaned;
    assert ItemsOf(SweptUpTo(start.pending, keys, i, q), keys[i]) == SweptUpTo(start.pending, keys, i, q)[keys[i]];
  }

  // ---- listing ----

  /** The offer of sender `i` reaches the limit. */
  ghost predicate FullAt(pending: Pending, senders: seq<Address>, i: nat, q: Query)
    requires i < |senders|
  {
    OfferOf(ItemsOf(pending, senders[i]), q.filter, q.baseFee) != []
      && |OffersUpTo(pending, senders, i + 1, q)| >= q.limit
  }

  /** How many senders have their turn to be cleaned, from `i` on: a listing ends after the last
      sender, or at an offer that reaches the limit, before that sender is cleaned. */
  ghost function TurnsFrom(pending: Pending, senders: seq<Address>, i: nat, q: Query): (n: nat)
    requires i <= |senders|
    ensures i <= n <= |senders| && (n < |senders| ==> FullAt(pending, senders, n, q))
    decreases |senders| - i
  {
    if i == |senders| || FullAt(pending, senders, i, q) then i else TurnsFrom(pending, senders, i + 1, q)
  }

  /** What a listing returns and leaves. */
  datatype Listing = Listing(offers: map<Address, seq<Tx>>, marks: map<Hash, bool>, pool: Snapshot)

  ghost function ListingOf(s: Snapshot, q: Query): Listing {
    var senders := Listed(s.pending.Keys);
    var turns := TurnsFrom(s.pending, senders, 0, q);
    var seen := if turns < |senders| then turns + 1 else turns;
    var pending := NonEmpty(SweptUpTo(s.pending, senders, turns, q));
    Listing(OffersUpTo(s.pending, senders, seen, q), MarksUpTo(s.pending, senders, seen, q),
            Snapshot(pending, Uncached(s.caches, s.pending, pending)))
  }

  /** Every pending transaction sits under its own sender and nonce and is cached, no sender's
      list is empty or longer than the limit, and the cache is indexed by hash. */
  ghost predicate PoolOk(s: Snapshot) {
    AllKept(s.pending, s.caches) && forall a :: a in s.pending ==> s.pending[a] != map[]
  }

  /** Everything offered is still pending, under the sender it is offered for. */
  ghost predicate Offers(result: map<Address, seq<Tx>>, now: Pending, baseFee: Option<nat>) {
    forall a :: a in result ==> a in now && RunOf(result[a], now[a], baseFee)
  }

  /** Only transactions that cannot pay are gone. */
  ghost predicate OnlyCleaned(before: Pending, after: Pending, baseFee: Option<nat>) {
    forall a :: Cleaned(ItemsOf(before, a), ItemsOf(after, a), baseFee)
  }

  ghost predicate AllSlotsRise(before: Pending, after: Pending) {
    forall a :: SlotsRise(ItemsOf(before, a), ItemsOf(after, a))
  }

  lemma SlotsRiseAt(pending: Pending, a: Address, items: Items)
    requires SlotsRise(ItemsOf(pending, a), items)
    ensures AllSlotsRise(pending, pending[a := items])
  {
    SlotsStay(pending);
    hide SlotsRise;
  }

  /** Pushing and removing keep the invariant, and slots only rise. */
  lemma PushedKeeps(s: Snapshot, tx: Tx)
    requires PoolOk(s)
    ensures PoolOk(Pushed(s, tx)) && AllSlotsRise(s.pending, Pushed(s, tx).pending)
  {
    if tx.hash in s.caches {
      SlotsStay(s.pending);
    } else {
      var items := Add(ItemsOf(s.pending, tx.sender), tx, 0);
      PushKeeps(s.pending, s.caches, tx);
      SlotsRiseAt(s.pending, tx.sender, items);
      hide AllKept, Add, AllSlotsRise, SlotsRise;
    }
  }

  lemma RemovedKeeps(s: Snapshot, h: Hash)
    requires PoolOk(s)
    ensures PoolOk(Removed(s, h)) && AllSlotsRise(s.pending, Removed(s, h).pending)
  {
    SlotsStay(s.pending);
    if h in s.caches {
      RemoveKeeps(s.pending, s.caches, h);
      RemoveSlots(s.pending, s.caches[h]);
    }
    hide AllKept, RemoveFrom, SlotsRise;
  }

  /** Deleting the senders with nothing left changes nothing that anyone can see. */
  lemma NonEmptyShows(now: Pending, a: Address)
    ensures ItemsOf(NonEmpty(now), a) == ItemsOf(now, a)
  {
  }

  lemma UncachedNonEmpty(caches: map<Hash, Tx>, start: Pending, now: Pending)
    ensures Uncached(caches, start, NonEmpty(now)) == Uncached(caches, start, now)
  {
    forall tx
      ensures Holds(NonEmpty(now), tx) <==> Holds(now, tx)
    {
      NonEmptyShows(now, tx.sender);
    }
    hide Holds, NonEmpty;
  }

  lemma NonEmptyKept(now: Pending, caches: map<Hash, Tx>)
    requires AllKept(now, caches)
    ensures PoolOk(Snapshot(NonEmpty(now), caches))
  {
    hide Kept;
  }

  lemma SweptCleaned(start: Snapshot, keys: seq<Address>, i: nat, q: Query, now: Pending)
    requires SweepOk(start, keys, i, q, now)
    ensures OnlyCleaned(start.pending, NonEmpty(now), q.baseFee)
  {
    forall a
      ensures Cleaned(ItemsOf(start.pending, a), ItemsOf(NonEmpty(now), a), q.baseFee)
    {
      NonEmptyShows(now, a);
      hide AllKept, Uncached, NonEmpty, SizeUpTo;
    }
  }

  lemma CleanedKeepsSlots(before: Pending, after: Pending, baseFee: Option<nat>)
    requires OnlyCleaned(before, after, baseFee)
    ensures AllSlotsRise(before, after)
  {
    forall a
      ensures SlotsRise(ItemsOf(before, a), ItemsOf(after, a))
    {
      assert Cleaned(ItemsOf(before, a), ItemsOf(after, a), baseFee);
    }
  }

  lemma SizeNonEmpty(now: Pending, keys: seq<Address>)
    ensures SizeOf(NonEmpty(now), keys) == SizeOf(now, keys)
  {
    SizeSame(NonEmpty(now), now, keys, |keys|);
  }

  lemma OffersStay(start: Snapshot, after: Pending, q: Query, offers: map<Address, seq<Tx>>)
    requires AllKept(start.pending, start.caches) && IsOffer(offers, start.pending, q)
    requires OnlyCleaned(start.pending, after, q.baseFee)
    ensures Offers(offers, start.pending, q.baseFee) && Offers(offers, after, q.baseFee)
  {
    hide AllKept, IsOffer, OnlyCleaned, RunOf;
    forall a | a in offers
      ensures a in start.pending && RunOf(offers[a], start.pending[a], q.baseFee) && a in after
      ensures RunOf(offers[a], after[a], q.baseFee)
    {
      OfferStays(start, after, q, offers, a);
    }
  }

  lemma OfferStays(start: Snapshot, after: Pending, q: Query, offers: map<Address, seq<Tx>>, a: Address)
    requires AllKept(start.pending, start.caches) && IsOffer(offers, start.pending, q)
    requires OnlyCleaned(start.pending, after, q.baseFee)
    requires a in offers
    ensures a in start.pending && RunOf(offers[a], start.pending[a], q.baseFee) && a in after
    ensures RunOf(offers[a], after[a], q.baseFee)
  {
    hide OfferOf, Cleaned;
    assert Kept(start.pending[a], a, start.caches) && Stored(start.pending[a], a);
    assert Cleaned(ItemsOf(start.pending, a), ItemsOf(after, a), q.baseFee);
    hide AllKept, Kept, Stored, RunOf, OnlyCleaned;
    FlatIsRun(start.pending[a], a, q.filter, q.baseFee);
    RunStays(offers[a], ItemsOf(start.pending, a), ItemsOf(after, a), q.baseFee);
  }

  lemma RunStays(run: seq<Tx>, before: Items, after: Items, baseFee: Option<nat>)
    requires RunOf(run, before, baseFee) && Cleaned(before, after, baseFee)
    ensures RunOf(run, after, baseFee) && after != map[]
  {
    assert run[0].nonce in after;
  }

  /** What a listing leaves: the invariant is kept, only transactions that cannot pay are cleaned
      out, and never below the size. */
  lemma ListingKeeps(s: Snapshot, q: Query)
    requires PoolOk(s)
    ensures var senders, pool := Listed(s.pending.Keys), ListingOf(s, q).pool;
            && PoolOk(pool) && OnlyCleaned(s.pending, pool.pending, q.baseFee) && AllSlotsRise(s.pending, pool.pending)
            && SizeOf(pool.pending, senders) >= Min(SizeOf(s.pending, senders), q.size)
  {
    hide *;
    var senders := Listed(s.pending.Keys);
    var turns := TurnsFrom(s.pending, senders, 0, q);
    var now := SweptUpTo(s.pending, senders, turns, q);
    PoolMeans(s);
    ListingMeans(s, q, senders, turns, if turns < |senders| then turns + 1 else turns);
    SweepKeeps(s, senders, turns, q);
    SweepMeans(s, senders, turns, q, now);
    UncachedNonEmpty(s.caches, s.pending, now);
    NonEmptyKept(now, Uncached(s.caches, s.pending, now));
    SweptCleaned(s, senders, turns, q, now);
    CleanedKeepsSlots(s.pending, NonEmpty(now), q.baseFee);
    SizeNonEmpty(now, senders);
  }

  /** What a listing offers: exactly the runs while there is room, and all of it still pending. */
  lemma ListingOffers(s: Snapshot, q: Query)
    requires PoolOk(s)
    ensures var r := ListingOf(s, q);
            IsOffer(r.offers, s.pending, q) && Offers(r.offers, s.pending, q.baseFee)
              && Offers(r.offers, r.pool.pending, q.baseFee)
  {
    hide *;
    var senders := Listed(s.pending.Keys);
    var turns := TurnsFrom(s.pending, senders, 0, q);
    var seen := if turns < |senders| then turns + 1 else turns;
    PoolMeans(s);
    ListingMeans(s, q, senders, turns, seen);
    EndOfListing(s.pending, senders, turns, seen, q);
    OffersAreOffer(s.pending, senders, seen, q);
    ListingKeeps(s, q);
    OffersStay(s, ListingOf(s, q).pool.pending, q, ListingOf(s, q).offers);
  }

  lemma EndOfListing(pending: Pending, senders: seq<Address>, turns: nat, seen: nat, q: Query)
    requires turns == TurnsFrom(pending, senders, 0, q) && seen == if turns < |senders| then turns + 1 else turns
    ensures turns <= seen <= |senders| && (seen == |senders| || |OffersUpTo(pending, senders, seen, q)| >= q.limit)
  {
  }

  lemma PoolMeans(s: Snapshot)
    ensures PoolOk(s) <==> AllKept(s.pending, s.caches) && forall a :: a in s.pending ==> s.pending[a] != map[]
  {
  }

  lemma ListingMeans(s: Snapshot, q: Query, senders: seq<Address>, turns: nat, seen: nat)
    requires senders == Listed(s.pending.Keys) && turns == TurnsFrom(s.pending, senders, 0, q)
    requires seen == if turns < |senders| then turns + 1 else turns
    ensures ListingOf(s, q).offers == OffersUpTo(s.pending, senders, seen, q)
    ensures ListingOf(s, q).marks == MarksUpTo(s.pending, senders, seen, q)
    ensures ListingOf(s, q).pool.pending == NonEmpty(SweptUpTo(s.pending, senders, turns, q))
    ensures ListingOf(s, q).pool.caches == Uncached(s.caches, s.pending, ListingOf(s, q).pool.pending)
  {
    hide OffersUpTo, MarksUpTo, SweptUpTo, Uncached, NonEmpty, Listed, TurnsFrom;
  }

  lemma {:induction false} SweptStable(pending: Pending, senders: seq<Address>, i: nat, j: nat, q: Query, k: nat)
    requires k < i <= j <= |senders| && Ascending(senders)
    ensures ItemsOf(SweptUpTo(pending, senders, j, q), senders[k]) ==
            ItemsOf(SweptUpTo(pending, senders, i, q), senders[k])
    decreases j
  {
    hide GoneInTurn, Without, BlockerOf, SizeUpTo;
    if i < j {
      SweptStable(pending, senders, i, j - 1, q, k);
      assert senders[k] < senders[j - 1];
    }
  }

  /** A listing cleans enough: a sender that had its turn and was blocked by a transaction that
      does not cover the base fee ends with none of these, or the lists up to it meet the size. */
  lemma ListingCleansEnough(s: Snapshot, q: Query, i: nat)
    requires PoolOk(s) && i < TurnsFrom(s.pending, Listed(s.pending.Keys), 0, q)
    ensures var senders, after := Listed(s.pending.Keys), ListingOf(s, q).pool.pending;
            BlockerOf(ItemsOf(s.pending, senders[i]), q.filter, q.baseFee).Some? ==>
              || SizeUpTo(after, senders, i + 1) <= q.size
              || forall n :: n in ItemsOf(after, senders[i]) ==> Covers(ItemsOf(after, senders[i])[n], q.baseFee)
  {
    hide *;
    var senders := Listed(s.pending.Keys);
    var turns := TurnsFrom(s.pending, senders, 0, q);
    var blocker := BlockerOf(ItemsOf(s.pending, senders[i]), q.filter, q.baseFee);
    var before, now := SweptUpTo(s.pending, senders, i, q), SweptUpTo(s.pending, senders, i + 1, q);
    var total := SizeUpTo(before, senders, i + 1);
    PoolMeans(s);
    ListedAscends(s.pending.Keys);
    SweepKeeps(s, senders, i, q);
    SweptStep(s, senders, i, q);
    var items := before[senders[i]];
    var gone := GoneInTurn(items, blocker.Some?, total, q.size, q.baseFee);
    SweepStep(s, senders, i, q, before, blocker.Some?, gone);
    TurnCleansEnough(items, blocker.Some?, total, q.size, q.baseFee);
    ListingMeans(s, q, senders, turns, if turns < |senders| then turns + 1 else turns);
    LaterTurns(s.pending, senders, i, turns, q);
    KeptIsPart(now, senders[i], items, gone);
  }

  lemma KeptIsPart(now: Pending, a: Address, items: Items, gone: seq<nat>)
    requires a in now && now[a] == Without(items, gone)
    ensures ItemsOf(now, a) == Without(items, gone)
    ensures forall n :: n in Without(items, gone) ==> n in items && Without(items, gone)[n] == items[n]
  {
    forall n | n in Without(items, gone)
      ensures n in items && Without(items, gone)[n] == items[n]
    {
      WithoutContents(items, gone, n);
    }
  }

  /** Later turns and the deletion of empty senders leave what the first turns made. */
  lemma LaterTurns(pending: Pending, senders: seq<Address>, i: nat, turns: nat, q: Query)
    requires i < turns <= |senders| && Ascending(senders)
    ensures var now, after := SweptUpTo(pending, senders, i + 1, q), NonEmpty(SweptUpTo(pending, senders, turns, q));
            SizeUpTo(after, senders, i + 1) == SizeUpTo(now, senders, i + 1)
              && ItemsOf(after, senders[i]) == ItemsOf(now, senders[i])
  {
    hide SweptUpTo, Ascending, NonEmpty;
    var now, last := SweptUpTo(pending, senders, i + 1, q), SweptUpTo(pending, senders, turns, q);
    forall k | 0 <= k <= i
      ensures ItemsOf(NonEmpty(last), senders[k]) == ItemsOf(now, senders[k])
      ensures SizeAt(NonEmpty(last), senders[k]) == SizeAt(now, senders[k])
    {
      SweptStable(pending, senders, i + 1, turns, q, k);
      NonEmptyShows(last, senders[k]);
    }
    SizeSame(NonEmpty(last), now, senders, i + 1);
  }

  /** What a listing marks: blockers as failed and nothing else, every blocker if there is room. */
  lemma ListingMarks(s: Snapshot, q: Query, h: Hash)
    requires PoolOk(s)
    ensures var r := ListingOf(s, q);
            && (AgreeOn(r.marks, q.filter, h)
                || (h in r.marks && !r.marks[h] && exists a :: a in s.pending && BlocksAt(s.pending, a, q, h)))
            && (|r.offers| < q.limit && (exists a :: a in s.pending && BlocksAt(s.pending, a, q, h)) ==>
                h in r.marks && !r.marks[h])
  {
    hide *;
    var senders := Listed(s.pending.Keys);
    var turns := TurnsFrom(s.pending, senders, 0, q);
    var seen := if turns < |senders| then turns + 1 else turns;
    ListingMeans(s, q, senders, turns, seen);
    EndOfListing(s.pending, senders, turns, seen, q);
    MarksUpToMean(s.pending, senders, seen, q, h);
    BlockersSeen(s.pending, senders, seen, q, h);
  }

  lemma BlockersSeen(pending: Pending, senders: seq<Address>, seen: nat, q: Query, h: Hash)
    requires seen <= |senders| && senders == Listed(pending.Keys)
    ensures BlocksUpTo(pending, senders, seen, q, h) ==> exists a :: a in pending && BlocksAt(pending, a, q, h)
    ensures seen == |senders| && (exists a :: a in pending && BlocksAt(pending, a, q, h)) ==>
            BlocksUpTo(pending, senders, seen, q, h)
  {
    hide BlocksAt, Listed;
    if BlocksUpTo(pending, senders, seen, q, h) {
      var j :| 0 <= j < seen && BlocksAt(pending, senders[j], q, h);
      ListedHas(pending.Keys, senders[j]);
    }
    if a :| a in pending && BlocksAt(pending, a, q, h) {
      ListedHas(pending.Keys, a);
      var j :| 0 <= j < |senders| && senders[j] == a;
      assert seen == |senders| ==> BlocksAt(pending, senders[j], q, h);
    }
  }

  /** No more senders are offered than asked for, but at least one if there is one. */
  lemma ListingWithinLimit(s: Snapshot, q: Query)
    ensures |ListingOf(s, q).offers| <= Max(q.limit, 1)
  {
    var senders := Listed(s.pending.Keys);
    var turns := TurnsFrom(s.pending, senders, 0, q);
    hide *;
    ListingMeans(s, q, senders, turns, if turns < |senders| then turns + 1 else turns);
    RoomBefore(s.pending, senders, 0, turns, q);
    if turns < |senders| {
      OneMoreOffer(s.pending, senders, turns, q);
    }
  }

  lemma OneMoreOffer(pending: Pending, senders: seq<Address>, i: nat, q: Query)
    requires i < |senders|
    ensures |OffersUpTo(pending, senders, i + 1, q)| <= |OffersUpTo(pending, senders, i, q)| + 1
    ensures OfferOf(ItemsOf(pending, senders[i]), q.filter, q.baseFee) == [] ==>
              OffersUpTo(pending, senders, i + 1, q) == OffersUpTo(pending, senders, i, q)
  {
    hide OfferOf;
    var before, after := OffersUpTo(pending, senders, i, q), OffersUpTo(pending, senders, i + 1, q);
    assert after.Keys <= before.Keys + {senders[i]};
    CardinalityOfSubset(after.Keys, before.Keys + {senders[i]});
  }

  /** Until a listing ends there is room. */
  lemma {:induction false} RoomBefore(pending: Pending, senders: seq<Address>, i: nat, turns: nat, q: Query)
    requires i <= turns <= |senders| && turns == TurnsFrom(pending, senders, i, q)
    requires |OffersUpTo(pending, senders, i, q)| < Max(q.limit, 1)
    ensures |OffersUpTo(pending, senders, turns, q)| < Max(q.limit, 1)
    decreases |senders| - i
  {
    hide TurnsFrom, OffersUpTo, OfferOf, FullAt, ItemsOf;
    if i < turns {
      TurnGoesOn(pending, senders, i, turns, q);
      FullMeans(pending, senders, i, q);
      OneMoreOffer(pending, senders, i, q);
      RoomBefore(pending, senders, i + 1, turns, q);
    }
  }

  lemma TurnGoesOn(pending: Pending, senders: seq<Address>, i: nat, turns: nat, q: Query)
    requires i < turns <= |senders| && turns == TurnsFrom(pending, senders, i, q)
    ensures !FullAt(pending, senders, i, q) && turns == TurnsFrom(pending, senders, i + 1, q)
  {
    hide FullAt;
  }

  /** What a listing forgets: exactly what it cleaned out, which can then be pushed again. */
  lemma ListingForgets(s: Snapshot, q: Query, tx: Tx)
    requires PoolOk(s) && tx.hash in s.caches && s.caches[tx.hash] == tx
    ensures var after := ListingOf(s, q).pool;
            && (tx.hash !in after.caches <==> Holds(s.pending, tx) && !Holds(after.pending, tx))
            && (tx.hash in after.caches ==> after.caches[tx.hash] == tx)
  {
    var senders := Listed(s.pending.Keys);
    var turns := TurnsFrom(s.pending, senders, 0, q);
    ListingMeans(s, q, senders, turns, if turns < |senders| then turns + 1 else turns);
    hide ListingOf, TurnsFrom, Listed, SweptUpTo, NonEmpty, Holds;
  }

  function EmptySenders(pending: Pending): set<Address> { set a | a in pending && pending[a] == map[] }

  lemma NoneEmpty(s: Snapshot)
    requires PoolOk(s)
    ensures EmptySenders(s.pending) == {}
  {
  }

  lemma EmptiedInTurn(now: Pending, a: Address, items: Items)
    requires a in now && now[a] != map[]
    ensures EmptySenders(now[a := items]) == if items == map[] then EmptySenders(now) + {a} else EmptySenders(now)
  {
  }

  lemma WithoutEmpty(now: Pending)
    ensures now - EmptySenders(now) == NonEmpty(now)
  {
  }

  lemma TurnTaken(pending: Pending, caches: map<Hash, Tx>, a: Address, total: nat, size: nat, baseFee: Option<nat>,
                  gone: seq<nat>, removed: seq<Hash>)
    requires a in pending && total > size && gone == MostUnderpriced(pending[a], baseFee, total - size)
    requires (forall i :: 0 <= i < |gone| ==> gone[i] in pending[a]) && removed == HashesAt(pending[a], gone)
    ensures GoneInTurn(pending[a], true, total, size, baseFee) == gone
    ensures HashSet(pending[a], gone) == (set h | h in removed)
  {
    hide MostUnderpriced, HashesAt;
  }

  lemma TurnPassed(pending: Pending, caches: map<Hash, Tx>, a: Address, blocked: bool, total: nat, size: nat,
                   baseFee: Option<nat>)
    requires a in pending && !(blocked && total > size)
    ensures GoneInTurn(pending[a], blocked, total, size, baseFee) == []
    ensures pending[a := Without(pending[a], [])] == pending && caches - HashSet(pending[a], []) == caches
  {
  }

  lemma FullMeans(pending: Pending, keys: seq<Address>, i: nat, q: Query)
    requires i < |keys|
    ensures FullAt(pending, keys, i, q) <==>
            OfferOf(ItemsOf(pending, keys[i]), q.filter, q.baseFee) != []
              && |OffersUpTo(pending, keys, i + 1, q)| >= q.limit
  {
  }

  /** What a listing has in hand: the pool, offers and marks so far, the number of transactions
      scanned, and the senders with nothing left. */
  datatype Sweep = Sweep(pool: Snapshot, offers: map<Address, seq<Tx>>, marks: map<Hash, bool>, total: nat,
                         emptied: set<Address>)

  /** Mid-listing, before the turn of sender `i`. */
  ghost predicate Midway(s: Snapshot, keys: seq<Address>, i: nat, q: Query, now: Sweep) {
    && i <= |keys| && TurnsFrom(s.pending, keys, i, q) == TurnsFrom(s.pending, keys, 0, q)
    && now.pool.pending == SweptUpTo(s.pending, keys, i, q)
    && now.pool.caches == Uncached(s.caches, s.pending, now.pool.pending)
    && now.offers == OffersUpTo(s.pending, keys, i, q) && now.marks == MarksUpTo(s.pending, keys, i, q)
    && now.total == SizeUpTo(now.pool.pending, keys, i) && now.emptied == EmptySenders(now.pool.pending)
  }

  lemma MidwayStart(s: Snapshot, keys: seq<Address>, q: Query)
    requires PoolOk(s) && keys == Listed(s.pending.Keys)
    ensures Midway(s, keys, 0, q, Sweep(s, map[], q.filter, 0, {}))
  {
    hide Listed, AllKept, TurnsFrom;
    SweepStart(s, keys, q);
    NoneEmpty(s);
    hide Uncached, EmptySenders;
  }

  /** The turn of sender `i`, before it is cleaned. */
  lemma MidwayTurn(s: Snapshot, keys: seq<Address>, i: nat, q: Query, now: Sweep)
    requires PoolOk(s) && keys == Listed(s.pending.Keys) && i < |keys| && Midway(s, keys, i, q, now)
    ensures AllKept(now.pool.pending, now.pool.caches) && keys[i] in s.pending && keys[i] in now.pool.pending
    ensures now.pool.pending[keys[i]] == s.pending[keys[i]] && s.pending[keys[i]] != map[]
    ensures Stored(s.pending[keys[i]], keys[i])
    ensures now.total + |now.pool.pending[keys[i]]| == SizeUpTo(now.pool.pending, keys, i + 1)
    ensures var items := s.pending[keys[i]];
            var offer, blocker := OfferOf(items, now.marks, q.baseFee), BlockerOf(items, now.marks, q.baseFee);
            && offer == OfferOf(ItemsOf(s.pending, keys[i]), q.filter, q.baseFee)
            && blocker == BlockerOf(ItemsOf(s.pending, keys[i]), q.filter, q.baseFee)
            && OffersUpTo(s.pending, keys, i + 1, q) ==
              (if offer == [] then now.offers else now.offers[keys[i] := offer])
            && MarksUpTo(s.pending, keys, i + 1, q) == Mark(now.marks, blocker)
  {
    MidwayMeans(s, keys, i, q, now);
    hide *;
    PoolMeans(s);
    SweepKeeps(s, keys, i, q);
    SweepMeans(s, keys, i, q, now.pool.pending);
    UntouchedAt(s.pending, keys, i, now.pool.pending);
    ListedAscends(s.pending.Keys);
    OfferInTurn(s, keys, i, q);
    SweptStep(s, keys, i, q);
    TurnValues(s, keys, i, q, now.pool.pending);
  }

  lemma MidwayMeans(s: Snapshot, keys: seq<Address>, i: nat, q: Query, now: Sweep)
    ensures Midway(s, keys, i, q, now) <==>
            && i <= |keys| && TurnsFrom(s.pending, keys, i, q) == TurnsFrom(s.pending, keys, 0, q)
            && now.pool.pending == SweptUpTo(s.pending, keys, i, q)
            && now.pool.caches == Uncached(s.caches, s.pending, now.pool.pending)
            && now.offers == OffersUpTo(s.pending, keys, i, q) && now.marks == MarksUpTo(s.pending, keys, i, q)
            && now.total == SizeUpTo(now.pool.pending, keys, i) && now.emptied == EmptySenders(now.pool.pending)
  {
    hide TurnsFrom, SweptUpTo, Uncached, OffersUpTo, MarksUpTo, SizeUpTo, EmptySenders;
  }

  lemma TurnValues(s: Snapshot, keys: seq<Address>, i: nat, q: Query, now: Pending)
    requires AllKept(s.pending, s.caches) && i < |keys| && keys[i] in s.pending && keys[i] in now
    ensures Stored(s.pending[keys[i]], keys[i]) && ItemsOf(s.pending, keys[i]) == s.pending[keys[i]]
    ensures SizeUpTo(now, keys, i + 1) == SizeUpTo(now, keys, i) + |now[keys[i]]|
    ensures var offers, offer :=
            OffersUpTo(s.pending, keys, i, q), OfferOf(ItemsOf(s.pending, keys[i]), q.filter, q.baseFee);
            OffersUpTo(s.pending, keys, i + 1, q) == if offer == [] then offers else offers[keys[i] := offer]
  {
    assert Kept(s.pending[keys[i]], keys[i], s.caches);
    hide OfferOf, AllKept;
  }

  /** A turn that leaves room: the sender is cleaned and the next one comes. */
  lemma MidwayNext(s: Snapshot, keys: seq<Address>, i: nat, q: Query, now: Sweep, gone: seq<nat>, next: Sweep)
    requires PoolOk(s) && keys == Listed(s.pending.Keys) && i < |keys| && Midway(s, keys, i, q, now)
    requires keys[i] in now.pool.pending && now.pool.pending[keys[i]] != map[] && !FullAt(s.pending, keys, i, q)
    requires gone == GoneInTurn(now.pool.pending[keys[i]],
                                BlockerOf(ItemsOf(s.pending, keys[i]), q.filter, q.baseFee).Some?,
                                SizeUpTo(now.pool.pending, keys, i + 1), q.size, q.baseFee)
    requires forall k :: 0 <= k < |gone| ==> gone[k] in now.pool.pending[keys[i]]
    requires next.pool.pending == now.pool.pending[keys[i] := Without(now.pool.pending[keys[i]], gone)]
    requires next.pool.caches == now.pool.caches - HashSet(now.pool.pending[keys[i]], gone)
    requires next.offers == OffersUpTo(s.pending, keys, i + 1, q) && next.marks == MarksUpTo(s.pending, keys, i + 1, q)
    requires next.total + |gone| == SizeUpTo(now.pool.pending, keys, i + 1)
    requires next.emptied == if Without(now.pool.pending[keys[i]], gone) == map[] then now.emptied + {keys[i]}
             else now.emptied
    ensures Midway(s, keys, i + 1, q, next)
  {
    hide *;
    MidwayMeans(s, keys, i, q, now);
    PoolMeans(s);
    ListedAscends(s.pending.Keys);
    SweepKeeps(s, keys, i, q);
    SweptStep(s, keys, i, q);
    SweepStep(s, keys, i, q, now.pool.pending, BlockerOf(ItemsOf(s.pending, keys[i]), q.filter, q.baseFee).Some?, gone);
    EmptiedInTurn(now.pool.pending, keys[i], Without(now.pool.pending[keys[i]], gone));
    NextTurn(s.pending, keys, i, q);
    MidwayMeans(s, keys, i + 1, q, next);
  }

  lemma NextTurn(pending: Pending, keys: seq<Address>, i: nat, q: Query)
    requires i < |keys| && !FullAt(pending, keys, i, q)
    ensures TurnsFrom(pending, keys, i, q) == TurnsFrom(pending, keys, i + 1, q)
  {
    hide FullAt;
  }

  lemma LastTurn(pending: Pending, keys: seq<Address>, i: nat, q: Query)
    requires i <= |keys| && (i == |keys| || FullAt(pending, keys, i, q))
    ensures TurnsFrom(pending, keys, i, q) == i
  {
    hide FullAt;
  }

  /** The end: after the last sender, or at an offer that reaches the limit. */
  lemma MidwayEnd(s: Snapshot, keys: seq<Address>, i: nat, q: Query, now: Sweep, offers: map<Address, seq<Tx>>,
                  marks: map<Hash, bool>)
    requires PoolOk(s) && keys == Listed(s.pending.Keys) && Midway(s, keys, i, q, now)
    requires i == |keys| ==> offers == now.offers && marks == now.marks
    requires i < |keys| ==> FullAt(s.pending, keys, i, q) && offers == OffersUpTo(s.pending, keys, i + 1, q)
    requires i < |keys| ==> marks == MarksUpTo(s.pending, keys, i + 1, q)
    ensures ListingOf(s, q) == Listing(offers, marks, Snapshot(now.pool.pending - now.emptied, now.pool.caches))
  {
    hide *;
    MidwayMeans(s, keys, i, q, now);
    LastTurn(s.pending, keys, i, q);
    ListingMeans(s, q, keys, i, if i < |keys| then i + 1 else i);
    WithoutEmpty(now.pool.pending);
    UncachedNonEmpty(s.caches, s.pending, now.pool.pending);
  }

  class PricePool {
    var pending: Pending
    var caches: map<Hash, Tx>
    const limitedSize: nat

    constructor (limitedSize: nat)
      ensures Valid() && pending == map[] && caches == map[] && this.limitedSize == limitedSize
    {
      pending, caches, this.limitedSize := map[], map[], limitedSize;
    }

    ghost function Now(): Snapshot
      reads this
    {
      Snapshot(pending, caches)
    }

    ghost predicate Valid()
      reads this
    {
      PoolOk(Now())
    }

    lemma Unfold()
      ensures Valid() <==> PoolOk(Now())
      ensures Now() == Snapshot(pending, caches)
    {
    }

    method Push(tx: Tx) returns (known: bool)
      requires Valid()
      modifies this
      ensures Valid() && known == (tx.hash in old(caches)) && Now() == Pushed(old(Now()), tx)
    {
      PushedKeeps(Now(), tx);
      hide PoolOk, Add;
      if tx.hash in caches {
        return true;
      }
      caches := caches[tx.hash := tx];
      if tx.sender in pending {
        pending := pending[tx.sender := Add(pending[tx.sender], tx, 0)];
      } else {
        pending := pending[tx.sender := Add(map[], tx, 0)];
      }
      known := false;
    }

    method Remove(hash: Hash) returns (found: bool)
      requires Valid()
      modifies this
      ensures Valid() && Now() == Removed(old(Now()), hash)
      ensures found <==>
              hash in old(caches) && old(caches)[hash].nonce in ItemsOf(old(pending), old(caches)[hash].sender)
    {
      RemovedKeeps(Now(), hash);
      hide PoolOk, Advance;
      if hash !in caches {
        return false;
      }
      var tx := caches[hash];
      caches := caches - {hash};
      found := false;
      if tx.sender in pending {
        var list := pending[tx.sender];
        if tx.nonce in list {
          list := Advance(list, tx.nonce);
          found := true;
          if |list| == 0 {
            pending := pending - {tx.sender};
          } else {
            pending := pending[tx.sender := list];
          }
        }
      }
    }

    /** The next attempts of every sender. On the way, when the scanned lists exceed the size
        limit, transactions that cannot pay the base fee are cleaned out, never below the limit. */
    method List(filter: map<Hash, bool>, baseFee: Option<nat>, limit: nat)
      returns (result: map<Address, seq<Tx>>, filter': map<Hash, bool>)
      requires Valid()
      modifies this
      ensures Valid()
      ensures Listing(result, filter', Now()) == ListingOf(old(Now()), Query(filter, baseFee, limit, limitedSize))
    {
      hide *;
      var keys := SortedKeys(pending.Keys);
      Unfold();
      ListingKeeps(Now(), Query(filter, baseFee, limit, limitedSize));
      var emptied;
      result, filter', emptied := ScanAll(keys, filter, baseFee, limit);
      pending := pending - emptied;
      Unfold();
    }

    /** Goes through the senders in turn; `emptied` are those with nothing left. */
    method ScanAll(keys: seq<Address>, filter: map<Hash, bool>, baseFee: Option<nat>, limit: nat)
      returns (result: map<Address, seq<Tx>>, filter': map<Hash, bool>, emptied: set<Address>)
      requires PoolOk(Now()) && keys == Listed(pending.Keys)
      modifies this
      ensures ListingOf(old(Now()), Query(filter, baseFee, limit, limitedSize)) ==
              Listing(result, filter', Snapshot(pending - emptied, caches))
    {
      hide *;
      ghost var s, q := Now(), Query(filter, baseFee, limit, limitedSize);
      Unfold();
      MidwayStart(s, keys, q);
      var totalLen: nat := 0;
      var i := 0;
      result, filter', emptied := map[], filter, {};
      while i < |keys|
        invariant i <= |keys|
        invariant Midway(s, keys, i, q, Sweep(Snapshot(pending, caches), result, filter', totalLen, emptied))
      {
        var a := keys[i];
        ghost var now := Sweep(Snapshot(pending, caches), result, filter', totalLen, emptied);
        MidwayTurn(s, keys, i, q, now);
        FullMeans(s.pending, keys, i, q);
        totalLen := totalLen + |pending[a]|;
        var list, dropped;
        list, dropped, filter' := Scan(pending[a], a, filter', baseFee);
        if |list| > 0 {
          result := result[a := list];
          if |result| >= limit {
            MidwayEnd(s, keys, i, q, now, result, filter');
            return;
          }
        }
        totalLen, emptied := FinishTurn(keys, i, baseFee, dropped, totalLen, emptied, s, q, now);
        i := i + 1;
      }
      MidwayEnd(s, keys, i, q, Sweep(Snapshot(pending, caches), result, filter', totalLen, emptied), result, filter');
    }

    /** Cleans sender `i` and notes whether anything is left of it. */
    method FinishTurn(keys: seq<Address>, i: nat, baseFee: Option<nat>, dropped: nat, totalLen: nat,
                      emptied: set<Address>,
                      ghost s: Snapshot, ghost q: Query, ghost now: Sweep)
      returns (totalLen': nat, emptied': set<Address>)
      requires PoolOk(s) && keys == Listed(s.pending.Keys) && i < |keys| && Midway(s, keys, i, q, now)
      requires !FullAt(s.pending, keys, i, q)
      requires now.pool == Snapshot(pending, caches) && now.emptied == emptied && q.size == limitedSize
      requires q.baseFee == baseFee
      requires keys[i] in pending && pending[keys[i]] != map[] && totalLen == SizeUpTo(pending, keys, i + 1)
      requires dropped == if BlockerOf(ItemsOf(s.pending, keys[i]), q.filter, q.baseFee).Some? then 1 else 0
      modifies this
      ensures Midway(s, keys, i + 1, q, Sweep(Snapshot(pending, caches), OffersUpTo(s.pending, keys, i + 1, q),
                                              MarksUpTo(s.pending, keys, i + 1, q), totalLen', emptied'))
    {
      hide *;
      ghost var gone := GoneInTurn(pending[keys[i]], dropped > 0, totalLen, limitedSize, baseFee);
      totalLen' := CleanInTurn(keys[i], baseFee, dropped, totalLen);
      emptied' := if |pending[keys[i]]| == 0 then emptied + {keys[i]} else emptied;
      MidwayNext(s, keys, i, q, now, gone, Sweep(Snapshot(pending, caches), OffersUpTo(s.pending, keys, i + 1, q),
                                                 MarksUpTo(s.pending, keys, i + 1, q), totalLen', emptied'));
    }

    /** Cleans the sender whose turn it is, if something of it was dropped and the lists scanned
        so far are over the limit; the excess over the limit is the most that goes. */
    method CleanInTurn(a: Address, baseFee: Option<nat>, dropped: nat, totalLen: nat) returns (totalLen': nat)
      requires a in pending
      modifies this
      ensures var gone := GoneInTurn(old(pending)[a], dropped > 0, totalLen, limitedSize, baseFee);
              && (forall k :: 0 <= k < |gone| ==> gone[k] in old(pending)[a])
              && pending == old(pending)[a := Without(old(pending)[a], gone)]
              && caches == old(caches) - HashSet(old(pending)[a], gone)
              && |gone| <= totalLen && totalLen' == totalLen - |gone|
    {
      hide *;
      totalLen' := totalLen;
      if dropped > 0 && totalLen > limitedSize {
        var kept, removed, gone := CleanUnderprice(pending[a], baseFee, totalLen - limitedSize);
        TurnTaken(pending, caches, a, totalLen, limitedSize, baseFee, gone, removed);
        totalLen' := totalLen - |removed|;
        pending := pending[a := kept];
        caches := caches - (set h | h in removed);
      } else {
        TurnPassed(pending, caches, a, dropped > 0, totalLen, limitedSize, baseFee);
      }
    }
  }
}
