/** Batched state fetching: requests for many accounts are packed into one call and the flat
    list of responses is unpacked again. */
module FetchStates {
  import opened Chain

  datatype AccessTuple = AccessTuple(address: Address, storageKeys: seq<Hash>)

  datatype FetchState = FetchState(accessList: Option<AccessTuple>, code: Option<Address>)

  datatype Request =
    | GetBalance(address: Address)
    | GetTransactionCount(address: Address)
    | GetCode(address: Address)
    | GetStorageAt(address: Address, key: Hash)
    | GetProof(address: Address, keys: seq<Hash>)

  datatype AccountResult<V> =
    | Plain(address: Address, balance: V, nonce: V, storage: seq<(Hash, V)>)
    | Proved(proof: V)

  datatype FetchStateResult<V> = FetchStateResult(acc: Option<AccountResult<V>>, code: Option<V>)

  datatype Outcome<V> = RpcFailed | Fetched(results: seq<FetchStateResult<V>>)

  /** The account an item is about. */
  function GetAddr(item: FetchState): Option<Address> {
    if item.accessList.Some? then Some(item.accessList.value.address) else item.code
  }

  function KeysOf(item: FetchState): seq<Hash> {
    if item.accessList.Some? then item.accessList.value.storageKeys else []
  }

  /** The node's answers to a list of requests, in order. */
  function Answers<V>(requests: seq<Request>, answer: Request -> V): (r: seq<V>)
    ensures |r| == |requests| && forall i :: 0 <= i < |r| ==> r[i] == answer(requests[i])
  {
    seq(|requests|, i requires 0 <= i < |requests| => answer(requests[i]))
  }

  lemma AnswersJoin<V>(a: seq<Request>, b: seq<Request>, answer: Request -> V)
    ensures Answers(a + b, answer) == Answers(a, answer) + Answers(b, answer)
  {
  }

  // ---- one item at a time ----

  function StorageRequests(a: Address, keys: seq<Hash>): seq<Request> {
    if keys == [] then [] else [GetStorageAt(a, keys[0])] + StorageRequests(a, keys[1..])
  }

  function StorageOf<V>(a: Address, keys: seq<Hash>, answer: Request -> V): seq<(Hash, V)> {
    if keys == [] then [] else [(keys[0], answer(GetStorageAt(a, keys[0])))] + StorageOf(a, keys[1..], answer)
  }

  /** What fetching one item alone yields; an item about no account yields nothing. */
  function FetchOne<V>(item: FetchState, answer: Request -> V): seq<FetchStateResult<V>> {
    match GetAddr(item)
    case None => []
    case Some(a) =>
      var acc := Plain(a, answer(GetBalance(a)), answer(GetTransactionCount(a)), StorageOf(a, KeysOf(item), answer));
      [FetchStateResult(Some(acc), if item.code.Some? then Some(answer(GetCode(item.code.value))) else None)]
  }

  function FetchOneWithProof<V>(item: FetchState, answer: Request -> V): FetchStateResult<V> {
    FetchStateResult(
      if item.accessList.Some?
        then Some(Proved(answer(GetProof(item.accessList.value.address, item.accessList.value.storageKeys)))) else None,
      if item.code.Some? then Some(answer(GetCode(item.code.value))) else None)
  }

  function FetchEach<V>(list: seq<FetchState>, answer: Request -> V): seq<FetchStateResult<V>> {
    if list == [] then [] else FetchOne(list[0], answer) + FetchEach(list[1..], answer)
  }

  function FetchEachWithProof<V>(list: seq<FetchState>, answer: Request -> V): (r: seq<FetchStateResult<V>>)
    ensures |r| == |list|
  {
    if list == [] then [] else [FetchOneWithProof(list[0], answer)] + FetchEachWithProof(list[1..], answer)
  }

  lemma {:induction false} StorageAnswers<V>(a: Address, keys: seq<Hash>, answer: Request -> V)
    ensures |StorageOf(a, keys, answer)| == |keys|
    ensures forall i :: 0 <= i < |keys| ==> StorageOf(a, keys, answer)[i] == (keys[i], answer(GetStorageAt(a, keys[i])))
    decreases |keys|
  {
    if keys != [] {
      StorageAnswers(a, keys[1..], answer);
    }
  }

  /** What an item gets is the answers to its own questions: balance, nonce and storage of the
      account it names, the access list before the code, and the code of the code's address. */
  lemma OwnAnswers<V>(item: FetchState, answer: Request -> V)
    ensures FetchOne(item, answer) == [] <==> item.accessList.None? && item.code.None?
    ensures item.accessList.Some? || item.code.Some? ==>
              && |FetchOne(item, answer)| == 1
              && var r := FetchOne(item, answer)[0];
                 var a := if item.accessList.Some? then item.accessList.value.address else item.code.value;
                 var keys := if item.accessList.Some? then item.accessList.value.storageKeys else [];
                 && r.acc.Some? && r.acc.value.Plain? && r.acc.value.address == a
                 && r.acc.value.balance == answer(GetBalance(a)) && r.acc.value.nonce == answer(GetTransactionCount(a))
                 && |r.acc.value.storage| == |keys|
                 && (forall i :: 0 <= i < |keys| ==>
                     r.acc.value.storage[i] == (keys[i], answer(GetStorageAt(a, keys[i]))))
                 && (if item.code.Some? then r.code == Some(answer(GetCode(item.code.value))) else r.code == None)
  {
    if GetAddr(item).Some? {
      StorageAnswers(GetAddr(item).value, KeysOf(item), answer);
    }
  }

  /** With proofs it gets the proof of its access list and the code of the code's address. */
  lemma OwnProof<V>(item: FetchState, answer: Request -> V)
    ensures var r := FetchOneWithProof(item, answer);
            && (if item.accessList.None? then r.acc == None else
                  var list := item.accessList.value;
                  r.acc == Some(Proved(answer(GetProof(list.address, list.storageKeys)))))
            && (if item.code.None? then r.code == None else r.code == Some(answer(GetCode(item.code.value))))
  {
  }

  /** Results come in the order of their items, and with proofs there is one for each. */
  lemma {:induction false} EachInOrder<V>(list: seq<FetchState>, answer: Request -> V, i: nat)
    requires i < |list|
    ensures FetchEachWithProof(list, answer)[i] == FetchOneWithProof(list[i], answer)
    ensures FetchEach(list, answer) ==
            FetchEach(list[..i], answer) + FetchOne(list[i], answer) + FetchEach(list[i + 1..], answer)
    decreases i
  {
    hide FetchOne, FetchOneWithProof;
    if i == 0 {
      assert list[..0] == [];
    } else {
      var rest := list[1..];
      EachInOrder(rest, answer, i - 1);
      var front := list[..i];
      assert front[0] == list[0] && front[1..] == rest[..i - 1] && rest[i..] == list[i + 1..];
      Associate(FetchOne(list[0], answer), FetchEach(rest[..i - 1], answer), FetchOne(list[i], answer));
      Associate(FetchOne(list[0], answer), FetchEach(rest[..i - 1], answer) + FetchOne(list[i], answer),
                FetchEach(list[i + 1..], answer));
    }
  }

  // ---- packing ----

  function Pack(item: FetchState): seq<Request> {
    match GetAddr(item)
    case None => []
    case Some(a) =>
      [GetBalance(a), GetTransactionCount(a)]
      + (if item.code.Some? then [GetCode(item.code.value)] else [])
      + StorageRequests(a, KeysOf(item))
  }

  function PackWithProof(item: FetchState): seq<Request> {
    (if item.accessList.Some? then [GetProof(item.accessList.value.address, item.accessList.value.storageKeys)] else [])
    + (if item.code.Some? then [GetCode(item.code.value)] else [])
  }

  function PackAll(list: seq<FetchState>, withProof: bool): seq<Request> {
    if list == [] then [] else
      (if withProof then PackWithProof(list[0]) else Pack(list[0])) + PackAll(list[1..], withProof)
  }

  method PackStorage(a: Address, keys: seq<Hash>) returns (requests: seq<Request>)
    ensures requests == StorageRequests(a, keys)
  {
    requests := [];
    var rest := keys;
    while rest != []
      invariant requests + StorageRequests(a, rest) == StorageRequests(a, keys)
    {
      Associate(requests, [GetStorageAt(a, rest[0])], StorageRequests(a, rest[1..]));
      requests, rest := requests + [GetStorageAt(a, rest[0])], rest[1..];
    }
  }

  method PackRequests(list: seq<FetchState>, withProof: bool) returns (requests: seq<Request>)
    ensures requests == PackAll(list, withProof)
  {
    requests := [];
    var rest := list;
    while rest != []
      invariant requests + PackAll(rest, withProof) == PackAll(list, withProof)
    {
      var item := rest[0];
      var mine: seq<Request> := [];
      if withProof {
        if item.accessList.Some? {
          mine := mine + [GetProof(item.accessList.value.address, item.accessList.value.storageKeys)];
        }
        if item.code.Some? {
          mine := mine + [GetCode(item.code.value)];
        }
      } else if GetAddr(item).Some? {
        var a := GetAddr(item).value;
        mine := [GetBalance(a), GetTransactionCount(a)];
        if item.code.Some? {
          mine := mine + [GetCode(item.code.value)];
        }
        if item.accessList.Some? {
          var storage := PackStorage(item.accessList.value.address, item.accessList.value.storageKeys);
          mine := mine + storage;
        }
      }
      assert mine == if withProof then PackWithProof(item) else Pack(item);
      Associate(requests, mine, PackAll(rest[1..], withProof));
      requests, rest := requests + mine, rest[1..];
    }
  }

  // ---- unpacking ----

  /** Reads the storage values of one item, starting at `idx`. */
  method UnpackStorage<V>(a: Address, keys: seq<Hash>, response: seq<V>, start: nat, ghost answer: Request -> V,
                          ghost tail: seq<V>)
    returns (storage: seq<(Hash, V)>, idx: nat)
    requires start <= |response| && response[start..] == Answers(StorageRequests(a, keys), answer) + tail
    ensures storage == StorageOf(a, keys, answer)
    ensures start <= idx <= |response| && response[idx..] == tail
  {
    storage, idx := [], start;
    var rest := keys;
    assert Answers(StorageRequests(a, rest), answer) + tail == response[start..];
    while rest != []
      invariant start <= idx <= |response| && response[idx..] == Answers(StorageRequests(a, rest), answer) + tail
      invariant storage + StorageOf(a, rest, answer) == StorageOf(a, keys, answer)
    {
      AnswersJoin([GetStorageAt(a, rest[0])], StorageRequests(a, rest[1..]), answer);
      assert response[idx] == response[idx..][0] == answer(GetStorageAt(a, rest[0]));
      assert response[idx + 1..] == response[idx..][1..];
      Associate(storage, [(rest[0], response[idx])], StorageOf(a, rest[1..], answer));
      storage := storage + [(rest[0], response[idx])];
      idx, rest := idx + 1, rest[1..];
    }
    assert Answers(StorageRequests(a, []), answer) + tail == tail;
  }

  lemma AtAndAfter<V>(response: seq<V>, at: nat, head: V, tail: seq<V>)
    requires at <= |response| && response[at..] == [head] + tail
    ensures at < |response| && response[at] == head && response[at + 1..] == tail
  {
    assert response[at..][0] == head && response[at + 1..] == response[at..][1..];
  }

  /** What an item's requests are answered with, part by part. */
  lemma PackParts<V>(item: FetchState, answer: Request -> V, tail: seq<V>)
    ensures GetAddr(item).None? ==> Answers(Pack(item), answer) + tail == tail && FetchOne(item, answer) == []
    ensures GetAddr(item).Some? ==>
              var a := GetAddr(item).value;
              var storage := Answers(StorageRequests(a, KeysOf(item)), answer) + tail;
              Answers(Pack(item), answer) + tail ==
              [answer(GetBalance(a))] + ([answer(GetTransactionCount(a))]
              + (if item.code.Some? then [answer(GetCode(item.code.value))] + storage else storage))
  {
    if GetAddr(item).Some? {
      var a := GetAddr(item).value;
      hide StorageRequests;
      var fixed := [GetBalance(a), GetTransactionCount(a)]
        + (if item.code.Some? then [GetCode(item.code.value)] else []);
      AnswersJoin(fixed, StorageRequests(a, KeysOf(item)), answer);
    }
  }

  lemma NoKeys<V>(a: Address, answer: Request -> V)
    ensures StorageOf(a, [], answer) == [] && Answers(StorageRequests(a, []), answer) == []
  {
  }

  /** Reads one item's responses from position `start` on, and no other item's. */
  method UnpackItem<V>(item: FetchState, response: seq<V>, start: nat, ghost answer: Request -> V, ghost tail: seq<V>)
    returns (out: seq<FetchStateResult<V>>, idx: nat)
    requires start <= |response| && response[start..] == Answers(Pack(item), answer) + tail
    ensures out == FetchOne(item, answer)
    ensures start <= idx <= |response| && response[idx..] == tail
  {
    PackParts(item, answer, tail);
    hide Pack, Answers, StorageRequests, StorageOf;
    out, idx := [], start;
    if GetAddr(item).None? {
      return;
    }
    var a := GetAddr(item).value;
    ghost var storageResponse := Answers(StorageRequests(a, KeysOf(item)), answer) + tail;
    ghost var rest := if item.code.Some? then [answer(GetCode(item.code.value))] + storageResponse else storageResponse;
    AtAndAfter(response, idx, answer(GetBalance(a)), [answer(GetTransactionCount(a))] + rest);
    var balance := response[idx];
    idx := idx + 1;
    AtAndAfter(response, idx, answer(GetTransactionCount(a)), rest);
    var nonce := response[idx];
    idx := idx + 1;
    var code: Option<V> := None;
    if item.code.Some? {
      AtAndAfter(response, idx, answer(GetCode(item.code.value)), storageResponse);
      code := Some(response[idx]);
      idx := idx + 1;
    }
    var storage: seq<(Hash, V)> := [];
    if item.accessList.Some? {
      storage, idx := UnpackStorage(a, item.accessList.value.storageKeys, response, idx, answer, tail);
    } else {
      NoKeys(a, answer);
      assert [] + tail == tail;
    }
    out := [FetchStateResult(Some(Plain(a, balance, nonce, storage)), code)];
  }

  /** Reads all items' responses; every response is consumed exactly once. */
  method Unpack<V>(list: seq<FetchState>, response: seq<V>, ghost answer: Request -> V)
    returns (out: seq<FetchStateResult<V>>, idx: nat)
    requires response == Answers(PackAll(list, false), answer)
    ensures out == FetchEach(list, answer) && idx == |response|
  {
    out, idx := [], 0;
    var rest := list;
    assert response[0..] == response;
    while rest != []
      invariant idx <= |response| && response[idx..] == Answers(PackAll(rest, false), answer)
      invariant out + FetchEach(rest, answer) == FetchEach(list, answer)
    {
      AnswersJoin(Pack(rest[0]), PackAll(rest[1..], false), answer);
      var one;
      one, idx := UnpackItem(rest[0], response, idx, answer, Answers(PackAll(rest[1..], false), answer));
      Associate(out, one, FetchEach(rest[1..], answer));
      out, rest := out + one, rest[1..];
    }
    assert |response[idx..]| == 0;
  }

  /** Reads responses with proofs from an iterator; it never runs dry, so no item is lost. */
  method UnpackWithProof<V>(list: seq<FetchState>, response: seq<V>, ghost answer: Request -> V)
    returns (out: seq<FetchStateResult<V>>, left: seq<V>)
    requires response == Answers(PackAll(list, true), answer)
    ensures out == FetchEachWithProof(list, answer) && |out| == |list| && left == []
  {
    out, left := [], response;
    var rest := list;
    while rest != []
      invariant left == Answers(PackAll(rest, true), answer)
      invariant out + FetchEachWithProof(rest, answer) == FetchEachWithProof(list, answer)
    {
      var item := rest[0];
      ghost var tail := Answers(PackAll(rest[1..], true), answer);
      AnswersJoin(PackWithProof(item), PackAll(rest[1..], true), answer);
      var acc: Option<AccountResult<V>>, code: Option<V> := None, None;
      if item.accessList.Some? {
        if left == [] {
          break;
        }
        acc, left := Some(Proved(left[0])), left[1..];
      }
      if item.code.Some? {
        if left == [] {
          break;
        }
        code, left := Some(left[0]), left[1..];
      }
      assert left == tail;
      Associate(out, [FetchStateResult(acc, code)], FetchEachWithProof(rest[1..], answer));
      out, rest := out + [FetchStateResult(acc, code)], rest[1..];
    }
  }

  /** The node answers request k with response k, or the call fails as a whole. */
  method MultiRpc<V>(requests: seq<Request>, answer: Request -> V, up: bool) returns (r: Option<seq<V>>)
    ensures r == if up then Some(Answers(requests, answer)) else None
  {
    if !up {
      return None;
    }
    r := Some(Answers(requests, answer));
  }

  /** Batched fetching yields exactly what fetching every item alone would yield. */
  method FetchStates<V>(list: seq<FetchState>, withProof: bool, answer: Request -> V, up: bool) returns (r: Outcome<V>)
    ensures !up ==> r == RpcFailed
    ensures up ==> r == Fetched(if withProof then FetchEachWithProof(list, answer) else FetchEach(list, answer))
  {
    var requests := PackRequests(list, withProof);
    var response := MultiRpc(requests, answer, up);
    if response.None? {
      return RpcFailed;
    }
    if withProof {
      var out, left := UnpackWithProof(list, response.value, answer);
      r := Fetched(out);
    } else {
      var out, idx := Unpack(list, response.value, answer);
      r := Fetched(out);
    }
  }

  /** Without proofs an item about no account is skipped, so results line up with the items
      exactly when every item names an account. */
  lemma {:induction false} ResultsLineUpIff<V>(list: seq<FetchState>, answer: Request -> V)
    ensures |FetchEach(list, answer)| <= |list|
    ensures |FetchEach(list, answer)| == |list| <==> forall i :: 0 <= i < |list| ==> GetAddr(list[i]).Some?
    decreases |list|
  {
    if list != [] {
      ResultsLineUpIff(list[1..], answer);
      assert forall i :: 0 < i < |list| ==> list[i] == list[1..][i - 1];
      assert (forall i :: 0 <= i < |list| ==> GetAddr(list[i]).Some?) <==>
             GetAddr(list[0]).Some? && forall i :: 0 <= i < |list[1..]| ==> GetAddr(list[1..][i]).Some?;
    }
  }
}
