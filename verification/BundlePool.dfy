/** The bundle pool: the latest bundle per uuid, expired lazily by `List`, and a bounded
    history of what became of each bundle. */
module BundlePool {
  import opened Chain
  import opened Ordered

  datatype Bundle = Bundle(
    uuid: nat,
    hash: Hash,
    blockNumber: nat,
    minTimestamp: Option<nat>,
    maxTimestamp: Option<nat>,
    txs: seq<PoolTx>)

  type Bundles = map<nat, Bundle>

  const HISTORY_MAX: nat := 100

  /** A bundle is gone once its block or its last timestamp has passed. */
  predicate Expired(b: Bundle, number: nat, timestamp: nat) {
    number > b.blockNumber || (b.maxTimestamp.Some? && timestamp > b.maxTimestamp.value)
  }

  predicate Early(b: Bundle, number: nat, timestamp: nat) {
    number < b.blockNumber || (b.minTimestamp.Some? && timestamp < b.minTimestamp.value)
  }

  predicate Active(b: Bundle, number: nat, timestamp: nat) {
    !Expired(b, number, timestamp) && !Early(b, number, timestamp)
  }

  /** The bundles a listing shows. */
  function Visible(pool: Bundles, number: nat, timestamp: nat): Bundles {
    map u | u in pool && Active(pool[u], number, timestamp) :: pool[u]
  }

  function Purge(pool: Bundles, number: nat, timestamp: nat): Bundles {
    map u | u in pool && !Expired(pool[u], number, timestamp) :: pool[u]
  }

  /** In numbers: a listing shows exactly the bundles for this very block whose time has come and
      has not passed. */
  lemma VisibleIff(pool: Bundles, number: nat, timestamp: nat, u: nat)
    ensures u in Visible(pool, number, timestamp) <==>
            && u in pool && pool[u].blockNumber == number
            && (pool[u].minTimestamp.Some? ==> pool[u].minTimestamp.value <= timestamp)
            && (pool[u].maxTimestamp.Some? ==> timestamp <= pool[u].maxTimestamp.value)
    ensures u in Visible(pool, number, timestamp) ==> Visible(pool, number, timestamp)[u] == pool[u]
  {
  }

  /** ... and deletes exactly those whose block or last time has passed. */
  lemma PurgeIff(pool: Bundles, number: nat, timestamp: nat, u: nat)
    ensures u in Purge(pool, number, timestamp) <==>
            && u in pool && number <= pool[u].blockNumber
            && (pool[u].maxTimestamp.Some? ==> timestamp <= pool[u].maxTimestamp.value)
    ensures u in Purge(pool, number, timestamp) ==> Purge(pool, number, timestamp)[u] == pool[u]
  {
  }

  // ---- expiry cannot be observed ----

  datatype Op = AddOp(bundle: Bundle) | ListOp(number: nat, timestamp: nat)

  function Step(pool: Bundles, op: Op): Bundles {
    match op
    case AddOp(b) => pool[b.uuid := b]
    case ListOp(number, timestamp) => Purge(pool, number, timestamp)
  }

  function After(pool: Bundles, ops: seq<Op>): Bundles {
    if ops == [] then pool else Step(After(pool, ops[..|ops| - 1]), ops[|ops| - 1])
  }

  /** The pool that never deletes: the latest bundle added per uuid. */
  function Latest(ops: seq<Op>): Bundles {
    if ops == [] then map[] else
      var before := Latest(ops[..|ops| - 1]);
      match ops[|ops| - 1] case AddOp(b) => before[b.uuid := b] case ListOp(_, _) => before
  }

  /** The newest bundle of a uuid wins, in the pool and in the one that never deletes, and the
      others are left alone. */
  lemma NewestWins(pool: Bundles, ops: seq<Op>, b: Bundle, u: nat)
    ensures var after, latest := Step(pool, AddOp(b)), Latest(ops + [AddOp(b)]);
            && b.uuid in after && after[b.uuid] == b && b.uuid in latest && latest[b.uuid] == b
            && (u != b.uuid ==> (u in after <==> u in pool) && (u in latest <==> u in Latest(ops)))
            && (u != b.uuid && u in after ==> after[u] == pool[u])
            && (u != b.uuid && u in latest ==> latest[u] == Latest(ops)[u])
  {
    assert (ops + [AddOp(b)])[..|ops|] == ops;
  }

  /** Every listing so far was at or before this block and time. */
  ghost predicate ListedBy(ops: seq<Op>, number: nat, timestamp: nat) {
    forall i :: 0 <= i < |ops| && ops[i].ListOp? ==> ops[i].number <= number && ops[i].timestamp <= timestamp
  }

  /** What the pool has deleted can no longer become active. */
  lemma {:induction false} DeletedIsExpired(ops: seq<Op>, number: nat, timestamp: nat, u: nat)
    requires ListedBy(ops, number, timestamp)
    ensures u in After(map[], ops) ==> u in Latest(ops) && After(map[], ops)[u] == Latest(ops)[u]
    ensures u in Latest(ops) && u !in After(map[], ops) ==> Expired(Latest(ops)[u], number, timestamp)
    decreases |ops|
  {
    if ops != [] {
      var init, last := ops[..|ops| - 1], ops[|ops| - 1];
      DeletedIsExpired(init, number, timestamp, u);
      assert last.ListOp? ==> last.number <= number && last.timestamp <= timestamp;
    }
  }

  /** Expiry is unobservable: a listing no earlier than all listings before it shows exactly
      what filtering the latest bundle per uuid would show, whatever was added and listed. */
  lemma ExpiryIsUnobservable(ops: seq<Op>, number: nat, timestamp: nat)
    requires ListedBy(ops, number, timestamp)
    ensures Visible(After(map[], ops), number, timestamp) == Visible(Latest(ops), number, timestamp)
  {
    forall u
      ensures u in Visible(After(map[], ops), number, timestamp) <==> u in Visible(Latest(ops), number, timestamp)
      ensures u in After(map[], ops) ==> u in Latest(ops) && After(map[], ops)[u] == Latest(ops)[u]
    {
      DeletedIsExpired(ops, number, timestamp, u);
    }
  }

  function Witness(number: nat, maxTimestamp: Option<nat>): Bundle {
    Bundle(0, 0, number, None, maxTimestamp, [])
  }

  /** Listings that go backwards are exactly the ones that can notice an earlier deletion. */
  lemma UnobservableIffForward(number: nat, timestamp: nat, number': nat, timestamp': nat)
    ensures (forall pool: Bundles ::
             Visible(Purge(pool, number, timestamp), number', timestamp') == Visible(pool, number', timestamp'))
       <==> number <= number' && timestamp <= timestamp'
  {
    if number <= number' && timestamp <= timestamp' {
    } else {
      var b := Witness(number', if number <= number' then Some(timestamp') else None);
      var pool: Bundles := map[0 := b];
      assert Expired(b, number, timestamp) && Active(b, number', timestamp');
      assert 0 in Visible(pool, number', timestamp')
        && 0 !in Visible(Purge(pool, number, timestamp), number', timestamp');
    }
  }

  // ---- status history ----

  datatype Status = Unknown | Waiting | ReplacedBy(hash: Hash) | ExpiredStatus | Submitted | Reverted(txHash: Hash)

  datatype BundleStat = BundleStat(hash: Hash, blockNumber: nat, status: Status, numTxs: nat)

  /** At most one entry per hash and at most `HISTORY_MAX` entries. */
  ghost predicate HistoryOk(history: seq<BundleStat>) {
    && |history| <= HISTORY_MAX
    && forall i, j :: 0 <= i < j < |history| ==> history[i].hash != history[j].hash
  }

  function Find(history: seq<BundleStat>, hash: Hash): (r: Option<nat>)
    ensures r.None? ==> forall i :: 0 <= i < |history| ==> history[i].hash != hash
    ensures r.Some? ==> r.value < |history| && history[r.value].hash == hash
  {
    if history == [] then None
    else if history[0].hash == hash then Some(0)
    else match Find(history[1..], hash) case None => None case Some(i) => Some(i + 1)
  }

  /** Sets a status, entering the bundle at the front first when it has no entry. */
  function Record(history: seq<BundleStat>, b: Bundle, status: Status): seq<BundleStat> {
    match Find(history, b.hash)
    case Some(i) => history[i := history[i].(status := status)]
    case None =>
      var longer := [BundleStat(b.hash, b.blockNumber, status, |b.txs|)] + history;
      if |longer| > HISTORY_MAX then longer[..HISTORY_MAX] else longer
  }

  /** Recording keeps one entry per hash and the bound, and touches no other entry's status. */
  lemma RecordKeeps(history: seq<BundleStat>, b: Bundle, status: Status)
    requires HistoryOk(history)
    ensures HistoryOk(Record(history, b, status))
    ensures Find(Record(history, b, status), b.hash).Some?
    ensures forall s :: s in Record(history, b, status) ==>
            if s.hash == b.hash then s.status == status else s in history
    ensures |Record(history, b, status)| >= |history|
    ensures (forall s :: s in history ==> s.hash != b.hash) ==>
              Record(history, b, status)[0] == BundleStat(b.hash, b.blockNumber, status, |b.txs|)
  {
    var after := Record(history, b, status);
    match Find(history, b.hash) {
      case Some(i) =>
        assert after[i].hash == b.hash;
      case None =>
        assert after[0].hash == b.hash;
    }
  }

  /** The recorded status of a bundle, if the bounded history still has it. */
  function StatusIn(history: seq<BundleStat>, hash: Hash): Option<Status> {
    match Find(history, hash) case None => None case Some(i) => Some(history[i].status)
  }

  /** A new entry pushes the last one out of a full history. */
  predicate FallsOff(history: seq<BundleStat>, b: Bundle, h: Hash) {
    Find(history, b.hash).None? && |history| == 100 && history[99].hash == h
  }

  lemma FindIs(history: seq<BundleStat>, i: nat)
    requires HistoryOk(history) && i < |history|
    ensures Find(history, history[i].hash) == Some(i)
  {
  }

  /** Recording sets one status and leaves every other, except that of an entry that falls off
      the end. */
  lemma RecordStatus(history: seq<BundleStat>, b: Bundle, status: Status, h: Hash)
    requires HistoryOk(history)
    ensures HistoryOk(Record(history, b, status))
    ensures StatusIn(Record(history, b, status), h) ==
            if h == b.hash then Some(status) else if FallsOff(history, b, h) then None else StatusIn(history, h)
  {
    var after := Record(history, b, status);
    RecordKeeps(history, b, status);
    if Find(history, h).Some? {
      var i := Find(history, h).value;
      var shift := if Find(history, b.hash).None? then 1 else 0;
      if i + shift < |after| {
        FindIs(after, i + shift);
      }
    }
    if Find(after, h).Some? && h != b.hash {
      assert after[Find(after, h).value] in after;
    }
    if h == b.hash {
      assert after[Find(after, h).value] in after;
    }
  }

  lemma RecordSize(history: seq<BundleStat>, b: Bundle, status: Status)
    requires HistoryOk(history)
    ensures |history| <= |Record(history, b, status)| <= |history| + 1
  {
  }

  /** The history once `bundle` is added: what it replaces is marked unless it was submitted, and
      it is waiting itself. */
  function HistoryAfterAdd(pool: Bundles, history: seq<BundleStat>, bundle: Bundle): seq<BundleStat> {
    var marked :=
      if bundle.uuid in pool && StatusIn(history, pool[bundle.uuid].hash) != Some(Submitted)
      then Record(history, pool[bundle.uuid], ReplacedBy(bundle.hash)) else history;
    Record(marked, bundle, Waiting)
  }

  /** The history once these bundles are deleted: each is marked expired, in this order. */
  function HistoryAfterExpiry(pool: Bundles, history: seq<BundleStat>, uuids: seq<nat>): seq<BundleStat> {
    if uuids == [] then history else
      var before, u := HistoryAfterExpiry(pool, history, uuids[..|uuids| - 1]), uuids[|uuids| - 1];
      if u in pool then Record(before, pool[u], ExpiredStatus) else before
  }

  /** A status is the expected one, or no longer recorded. */
  predicate LeftAs(now: Option<Status>, expected: Option<Status>) { now.None? || now == expected }

  /** What an addition makes of each status: the added bundle waits, the one it replaces says so
      unless it was submitted, and no other changes; entries only get lost off the end, and none
      while there is room for two. */
  lemma AddStatus(pool: Bundles, history: seq<BundleStat>, bundle: Bundle, h: Hash)
    requires HistoryOk(history)
    ensures HistoryOk(HistoryAfterAdd(pool, history, bundle))
    ensures StatusIn(HistoryAfterAdd(pool, history, bundle), bundle.hash) == Some(Waiting)
    ensures h != bundle.hash ==>
              LeftAs(StatusIn(HistoryAfterAdd(pool, history, bundle), h),
                     if bundle.uuid in pool && h == pool[bundle.uuid].hash && StatusIn(history, h) != Some(Submitted)
                     then Some(ReplacedBy(bundle.hash)) else StatusIn(history, h))
    ensures h != bundle.hash && |history| <= 98 ==>
              StatusIn(HistoryAfterAdd(pool, history, bundle), h)
              == if bundle.uuid in pool && h == pool[bundle.uuid].hash && StatusIn(history, h) != Some(Submitted)
                 then Some(ReplacedBy(bundle.hash)) else StatusIn(history, h)
    ensures |HistoryAfterAdd(pool, history, bundle)| >= |history|
  {
    hide HistoryOk, Record, StatusIn;
    var marked := history;
    if bundle.uuid in pool && StatusIn(history, pool[bundle.uuid].hash) != Some(Submitted) {
      RecordSize(history, pool[bundle.uuid], ReplacedBy(bundle.hash));
      RecordStatus(history, pool[bundle.uuid], ReplacedBy(bundle.hash), h);
      marked := Record(history, pool[bundle.uuid], ReplacedBy(bundle.hash));
    }
    RecordSize(marked, bundle, Waiting);
    RecordStatus(marked, bundle, Waiting, h);
    RecordStatus(marked, bundle, Waiting, bundle.hash);
  }

  /** What expiry makes of each status: deleted bundles are expired and no other changes; entries
      only get lost off the end, and none while there is room for all. */
  lemma {:induction false} ExpiryStatus(pool: Bundles, history: seq<BundleStat>, uuids: seq<nat>, h: Hash)
    requires HistoryOk(history)
    ensures HistoryOk(HistoryAfterExpiry(pool, history, uuids))
    ensures LeftAs(StatusIn(HistoryAfterExpiry(pool, history, uuids), h),
                   if h in HashesOf(pool, uuids) then Some(ExpiredStatus) else StatusIn(history, h))
    ensures |history| + |uuids| <= 100 ==>
              StatusIn(HistoryAfterExpiry(pool, history, uuids), h)
              == if h in HashesOf(pool, uuids) then Some(ExpiredStatus) else StatusIn(history, h)
    ensures |history| <= |HistoryAfterExpiry(pool, history, uuids)| <= |history| + |uuids|
    decreases |uuids|
  {
    hide HistoryOk, Record, StatusIn;
    if uuids != [] {
      var init, u := uuids[..|uuids| - 1], uuids[|uuids| - 1];
      assert uuids == init + [u];
      ExpiryStatus(pool, history, init, h);
      if u in pool {
        RecordSize(HistoryAfterExpiry(pool, history, init), pool[u], ExpiredStatus);
        RecordStatus(HistoryAfterExpiry(pool, history, init), pool[u], ExpiredStatus, h);
      }
    }
  }

  function HashesOf(pool: Bundles, keys: seq<nat>): set<Hash> { set u | u in keys && u in pool :: pool[u].hash }

  /** The uuids a listing deletes, in order. */
  ghost function ExpiredUuids(pool: Bundles, number: nat, timestamp: nat): seq<nat> {
    var keys := Listed(pool.Keys);
    ListedFacts(pool.Keys);
    KeysInPool(pool, keys);
    Outdated(pool, keys, |keys|, number, timestamp)
  }

  /** These are exactly the expired ones. */
  lemma ExpiredUuidsFacts(pool: Bundles, number: nat, timestamp: nat, u: nat)
    ensures u in ExpiredUuids(pool, number, timestamp) <==> u in pool && Expired(pool[u], number, timestamp)
  {
    var keys := Listed(pool.Keys);
    ListedFacts(pool.Keys);
    KeysInPool(pool, keys);
    OutdatedMembers(pool, keys, |keys|, number, timestamp, u);
    assert keys[..|keys|] == keys;
  }

  class BundlePool {
    var uuid: Bundles
    var history: seq<BundleStat>

    constructor ()
      ensures Valid() && uuid == map[] && history == []
    {
      uuid, history := map[], [];
    }

    ghost predicate Valid()
      reads this
    {
      HistoryOk(history) && forall u :: u in uuid ==> uuid[u].uuid == u
    }

    /** The newest bundle of a uuid wins; the one it replaces is marked unless it was submitted. */
    method Add(bundle: Bundle)
      requires Valid()
      modifies this
      ensures Valid() && uuid == Step(old(uuid), AddOp(bundle))
      ensures history == HistoryAfterAdd(old(uuid), old(history), bundle)
    {
      AddStatus(uuid, history, bundle, 0);
      hide HistoryOk, Record, StatusIn;
      var replaced := if bundle.uuid in uuid then Some(uuid[bundle.uuid]) else None;
      uuid := uuid[bundle.uuid := bundle];
      if replaced.Some? {
        if StatusIn(history, replaced.value.hash) != Some(Submitted) {
          history := Record(history, replaced.value, ReplacedBy(bundle.hash));
        }
      }
      history := Record(history, bundle, Waiting);
    }

    method SetHistory(bundle: Bundle, status: Status)
      requires Valid()
      modifies this`history
      ensures Valid() && history == Record(old(history), bundle, status)
    {
      RecordStatus(history, bundle, status, 0);
      hide HistoryOk, Record, StatusIn;
      history := Record(history, bundle, status);
    }

    /** The active bundles in uuid order; expired ones are deleted on the way and marked. */
    method List(number: nat, timestamp: nat) returns (out: seq<Bundle>)
      requires Valid()
      modifies this
      ensures Valid() && uuid == Step(old(uuid), ListOp(number, timestamp))
      ensures Ascending(Uuids(out)) && forall b :: b in out <==>
              b.uuid in Visible(old(uuid), number, timestamp) && old(uuid)[b.uuid] == b
      ensures history == HistoryAfterExpiry(old(uuid), old(history), ExpiredUuids(old(uuid), number, timestamp))
    {
      var keys := SortedKeys(uuid.Keys);
      KeysInPool(uuid, keys);
      ShownIsVisible(uuid, keys, number, timestamp);
      OutdatedIsPurged(uuid, keys, number, timestamp);
      OutdatedAscends(uuid, keys, |keys|, number, timestamp);
      hide HistoryOk, HistoryAfterExpiry, Shown, Outdated, Visible, Ascending, InPool;
      var removed;
      out, removed := Scan(keys, number, timestamp);
      Forget(removed);
    }

    method Scan(keys: seq<nat>, number: nat, timestamp: nat) returns (out: seq<Bundle>, removed: seq<nat>)
      requires InPool(uuid, keys)
      ensures out == Shown(uuid, keys, |keys|, number, timestamp)
      ensures removed == Outdated(uuid, keys, |keys|, number, timestamp)
    {
      out, removed := [], [];
      var i := 0;
      while i < |keys|
        invariant i <= |keys| && out == Shown(uuid, keys, i, number, timestamp)
        invariant removed == Outdated(uuid, keys, i, number, timestamp)
      {
        var b := uuid[keys[i]];
        if number > b.blockNumber || (b.maxTimestamp.Some? && timestamp > b.maxTimestamp.value) {
          removed := removed + [keys[i]];
        } else if !(number < b.blockNumber || (b.minTimestamp.Some? && timestamp < b.minTimestamp.value)) {
          out := out + [b];
        }
        i := i + 1;
      }
    }

    /** Deletes the named bundles and marks them expired. */
    method Forget(removed: seq<nat>)
      requires Valid() && Ascending(removed)
      modifies this
      ensures Valid() && uuid == old(uuid) - AsSet(removed)
      ensures history == HistoryAfterExpiry(old(uuid), old(history), removed)
    {
      hide HistoryOk, Record;
      var i := 0;
      while i < |removed|
        invariant i <= |removed| && uuid == old(uuid) - AsSet(removed[..i])
        invariant history == HistoryAfterExpiry(old(uuid), old(history), removed[..i])
      {
        var u := removed[i];
        assert removed[..i + 1][..i] == removed[..i] && u !in removed[..i];
        assert AsSet(removed[..i + 1]) == AsSet(removed[..i]) + {u};
        if u in uuid {
          history := Record(history, uuid[u], ExpiredStatus);
          uuid := uuid - {u};
        }
        i := i + 1;
      }
      assert removed[..i] == removed;
      ExpiryStatus(old(uuid), old(history), removed, 0);
    }
  }

  lemma {:induction false} OutdatedAscends(pool: Bundles, keys: seq<nat>, i: nat, number: nat, timestamp: nat)
    requires i <= |keys| && InPool(pool, keys) && Ascending(keys)
    ensures Ascending(Outdated(pool, keys, i, number, timestamp))
  {
    if i > 0 {
      OutdatedAscends(pool, keys, i - 1, number, timestamp);
      var before := Outdated(pool, keys, i - 1, number, timestamp);
      forall x | 0 <= x < |before|
        ensures before[x] < keys[i - 1]
      {
        OutdatedMembers(pool, keys, i - 1, number, timestamp, before[x]);
        assert before[x] in keys[..i - 1];
      }
    }
  }

  function AsSet(keys: seq<nat>): set<nat> { set u | u in keys }

  ghost predicate InPool(pool: Bundles, keys: seq<nat>) {
    forall i :: 0 <= i < |keys| ==> keys[i] in pool
  }

  lemma KeysInPool(pool: Bundles, keys: seq<nat>)
    requires Enumerates(keys, pool.Keys)
    ensures InPool(pool, keys)
  {
    assert forall i :: 0 <= i < |keys| ==> keys[i] in keys;
  }

  /** The active bundles among the first `i` uuids. */
  function Shown(pool: Bundles, keys: seq<nat>, i: nat, number: nat, timestamp: nat): seq<Bundle>
    requires i <= |keys| && InPool(pool, keys)
  {
    if i == 0 then [] else
      Shown(pool, keys, i - 1, number, timestamp)
      + (if Active(pool[keys[i - 1]], number, timestamp) then [pool[keys[i - 1]]] else [])
  }

  /** The expired uuids among the first `i`. */
  function Outdated(pool: Bundles, keys: seq<nat>, i: nat, number: nat, timestamp: nat): seq<nat>
    requires i <= |keys| && InPool(pool, keys)
  {
    if i == 0 then [] else
      Outdated(pool, keys, i - 1, number, timestamp)
      + (if Expired(pool[keys[i - 1]], number, timestamp) then [keys[i - 1]] else [])
  }

  lemma {:induction false} ShownMembers(pool: Bundles, keys: seq<nat>, i: nat, number: nat, timestamp: nat, b: Bundle)
    requires i <= |keys| && InPool(pool, keys)
    ensures b in Shown(pool, keys, i, number, timestamp) <==>
            exists j :: 0 <= j < i && pool[keys[j]] == b && Active(b, number, timestamp)
  {
    if i > 0 {
      ShownMembers(pool, keys, i - 1, number, timestamp, b);
    }
  }

  lemma {:induction false} ShownAscends(pool: Bundles, keys: seq<nat>, i: nat, number: nat, timestamp: nat)
    requires i <= |keys| && InPool(pool, keys) && Ascending(keys) && forall u :: u in pool ==> pool[u].uuid == u
    ensures Ascending(Uuids(Shown(pool, keys, i, number, timestamp)))
  {
    if i > 0 {
      ShownAscends(pool, keys, i - 1, number, timestamp);
      var before := Shown(pool, keys, i - 1, number, timestamp);
      forall x | 0 <= x < |before|
        ensures before[x].uuid < keys[i - 1]
      {
        ShownMembers(pool, keys, i - 1, number, timestamp, before[x]);
      }
    }
  }

  lemma ShownIsVisible(pool: Bundles, keys: seq<nat>, number: nat, timestamp: nat)
    requires Enumerates(keys, pool.Keys) && InPool(pool, keys) && forall u :: u in pool ==> pool[u].uuid == u
    ensures var out := Shown(pool, keys, |keys|, number, timestamp);
            && Ascending(Uuids(out))
            && forall b :: b in out <==> b.uuid in Visible(pool, number, timestamp) && pool[b.uuid] == b
  {
    ShownAscends(pool, keys, |keys|, number, timestamp);
    forall b
      ensures b in Shown(pool, keys, |keys|, number, timestamp) <==>
              b.uuid in Visible(pool, number, timestamp) && pool[b.uuid] == b
    {
      ShownMembers(pool, keys, |keys|, number, timestamp, b);
      if b.uuid in pool {
        assert b.uuid in keys;
      }
    }
  }

  lemma {:induction false} OutdatedMembers(pool: Bundles, keys: seq<nat>, i: nat, number: nat, timestamp: nat, u: nat)
    requires i <= |keys| && InPool(pool, keys)
    ensures u in Outdated(pool, keys, i, number, timestamp) <==> u in keys[..i] && Expired(pool[u], number, timestamp)
  {
    if i > 0 {
      OutdatedMembers(pool, keys, i - 1, number, timestamp, u);
      assert keys[..i] == keys[..i - 1] + [keys[i - 1]];
    }
  }

  lemma OutdatedIsPurged(pool: Bundles, keys: seq<nat>, number: nat, timestamp: nat)
    requires Enumerates(keys, pool.Keys) && InPool(pool, keys)
    ensures pool - AsSet(Outdated(pool, keys, |keys|, number, timestamp)) == Purge(pool, number, timestamp)
  {
    assert keys[..|keys|] == keys;
    forall u | u in pool
      ensures u in Outdated(pool, keys, |keys|, number, timestamp) <==> Expired(pool[u], number, timestamp)
    {
      OutdatedMembers(pool, keys, |keys|, number, timestamp, u);
    }
  }

  function Uuids(bundles: seq<Bundle>): (r: seq<nat>)
    ensures |r| == |bundles| && forall i :: 0 <= i < |bundles| ==> r[i] == bundles[i].uuid
  {
    seq(|bundles|, i requires 0 <= i < |bundles| => bundles[i].uuid)
  }
}
