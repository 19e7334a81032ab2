/** The relay submitter: a listener and detached submit threads that share `checked_state` and
    `history`. Every critical section is one atomic step, and steps interleave freely. */
module Relay {
  import opened Chain
  import opened Ordered

  const CHECKED_MAX: nat := 100

  datatype Signer = Production | Test

  /** What two requests must share for one to vouch for the other. */
  datatype Key = Key(slot: nat, number: nat, randao: Hash, withdrawalsRoot: Hash)

  datatype Request = Request(key: Key, value: nat, signer: Signer)

  datatype Checked = Checked(key: Key, passed: bool)

  // ---- the shared tables ----

  function Lookup(checked: seq<Checked>, key: Key): (r: Option<bool>)
    ensures r.None? ==> forall i :: 0 <= i < |checked| ==> checked[i].key != key
    ensures r.Some? ==> Checked(key, r.value) in checked
  {
    if checked == [] then None
    else if checked[0].key == key then Some(checked[0].passed)
    else Lookup(checked[1..], key)
  }

  /** Records a result: updates the first matching entry, or appends one and drops the oldest
      entries above the limit. */
  function RecordResult(checked: seq<Checked>, key: Key, passed: bool): seq<Checked> {
    if Lookup(checked, key).Some? then Update(checked, key, passed)
    else Trim(checked + [Checked(key, passed)])
  }

  function Update(checked: seq<Checked>, key: Key, passed: bool): seq<Checked> {
    if checked == [] then []
    else if checked[0].key == key then [Checked(key, passed)] + checked[1..]
    else [checked[0]] + Update(checked[1..], key, passed)
  }

  function Trim(checked: seq<Checked>): seq<Checked> {
    if |checked| > CHECKED_MAX then checked[|checked| - CHECKED_MAX..] else checked
  }

  ghost predicate DistinctKeys(checked: seq<Checked>) {
    forall i, j :: 0 <= i < j < |checked| ==> checked[i].key != checked[j].key
  }

  /** Updating keeps the length and, position by position, the keys. */
  lemma {:induction false} UpdateAt(checked: seq<Checked>, key: Key, passed: bool)
    ensures |Update(checked, key, passed)| == |checked|
    ensures forall i :: 0 <= i < |checked| ==>
              Update(checked, key, passed)[i] == checked[i] || Update(checked, key, passed)[i] == Checked(key, passed)
    ensures forall i :: 0 <= i < |checked| ==> Update(checked, key, passed)[i].key == checked[i].key
    decreases |checked|
  {
    if checked != [] && checked[0].key != key {
      UpdateAt(checked[1..], key, passed);
      assert forall i :: 0 < i < |checked| ==> checked[i] == checked[1..][i - 1];
    }
  }

  /** Recording keeps keys distinct and the table bounded; nothing enters but the new result. */
  lemma RecordKeeps(checked: seq<Checked>, key: Key, passed: bool)
    requires DistinctKeys(checked) && |checked| <= CHECKED_MAX
    ensures DistinctKeys(RecordResult(checked, key, passed)) && |RecordResult(checked, key, passed)| <= CHECKED_MAX
    ensures forall c :: c in RecordResult(checked, key, passed) ==> c in checked || c == Checked(key, passed)
  {
    UpdateAt(checked, key, passed);
  }

  lemma LookupCons(checked: seq<Checked>, key: Key)
    requires checked != []
    ensures Lookup(checked, key) == if checked[0].key == key then Some(checked[0].passed) else Lookup(checked[1..], key)
  {
  }

  lemma {:induction false} LookupUpdated(checked: seq<Checked>, key: Key, passed: bool, other: Key)
    requires Lookup(checked, key).Some?
    ensures Lookup(Update(checked, key, passed), other) == if other == key then Some(passed) else Lookup(checked, other)
    decreases |checked|
  {
    var after := Update(checked, key, passed);
    LookupCons(after, other);
    LookupCons(checked, other);
    if checked[0].key == key {
      assert after[1..] == checked[1..];
    } else {
      assert after[1..] == Update(checked[1..], key, passed);
      LookupUpdated(checked[1..], key, passed, other);
    }
  }

  lemma {:induction false} LookupAppended(checked: seq<Checked>, c: Checked, other: Key)
    ensures Lookup(checked + [c], other) ==
            if Lookup(checked, other).Some? then Lookup(checked, other)
            else if other == c.key then Some(c.passed) else None
    decreases |checked|
  {
    var after := checked + [c];
    LookupCons(after, other);
    if checked == [] {
      assert after[1..] == [];
    } else {
      assert after[1..] == checked[1..] + [c];
      LookupAppended(checked[1..], c, other);
    }
  }

  /** Recording a new key pushes the oldest entry out of a full table. */
  ghost predicate Forgotten(checked: seq<Checked>, key: Key, other: Key) {
    Lookup(checked, key).None? && |checked| == 100 && checked[0].key == other
  }

  /** A recorded result is read back, and every other key keeps its result, except that of the
      oldest entry when a new key comes into a full table. */
  lemma RecordedIsRead(checked: seq<Checked>, key: Key, passed: bool, other: Key)
    requires DistinctKeys(checked) && |checked| <= CHECKED_MAX
    ensures Lookup(RecordResult(checked, key, passed), key) == Some(passed)
    ensures other != key ==>
              Lookup(RecordResult(checked, key, passed), other)
              == if Forgotten(checked, key, other) then None else Lookup(checked, other)
  {
    if Lookup(checked, key).Some? {
      LookupUpdated(checked, key, passed, key);
      LookupUpdated(checked, key, passed, other);
    } else {
      var c := Checked(key, passed);
      LookupAppended(checked, c, key);
      LookupAppended(checked, c, other);
      if |checked| == CHECKED_MAX {
        var longer := checked + [c];
        assert longer[1..] == Trim(longer);
        LookupCons(longer, key);
        LookupCons(longer, other);
        assert forall i :: 0 < i < |longer| ==> longer[i].key != longer[0].key;
      }
    }
  }

  /** Notes a value under its slot, keeping the greater. */
  function NoteValue(history: map<nat, nat>, slot: nat, value: nat): map<nat, nat> {
    history[slot := if slot in history then Max(history[slot], value) else value]
  }

  /** The history section of a submit thread: note the value, then prune the first slot
      whenever there is one. */
  function UpdateHistory(history: map<nat, nat>, slot: nat, value: nat): map<nat, nat> {
    var noted := NoteValue(history, slot, value);
    assert slot in noted.Keys;
    noted - {Smallest(noted.Keys)}
  }

  /** Noting a value keeps the greater under its slot and leaves the other slots alone; then
      exactly the smallest slot goes. */
  lemma HistoryNoted(history: map<nat, nat>, slot: nat, value: nat, other: nat)
    ensures var noted, after := NoteValue(history, slot, value), UpdateHistory(history, slot, value);
            && slot in noted && noted[slot] >= value && (slot in history ==> noted[slot] >= history[slot])
            && (noted[slot] == value || (slot in history && noted[slot] == history[slot]))
            && (other != slot ==>
                (other in noted <==> other in history) && (other in noted ==> noted[other] == history[other]))
            && (other in after <==> other in noted && exists k :: k in noted && k < other)
            && (other in after ==> after[other] == noted[other])
  {
    var noted := NoteValue(history, slot, value);
    assert slot in noted.Keys;
    var least := Smallest(noted.Keys);
    hide Smallest;
    assert least in noted && forall k :: k in noted ==> k in noted.Keys;
  }

  predicate ProfitSmaller(history: map<nat, nat>, slot: nat, value: nat) {
    slot in history && history[slot] >= value
  }

  // ---- the protocol ----

  datatype Listener = Idle | Consulted(request: Request, passed: bool)

  datatype Thread = Submitting(request: Request) | Noted(request: Request, ok: bool)

  datatype Event = Dispatched(request: Request) | Completed(key: Key, ok: bool)

  datatype System = System(
    optimistic: bool,
    checked: seq<Checked>,
    history: map<nat, nat>,
    listener: Listener,
    threads: map<nat, Thread>,
    spawned: nat,
    log: seq<Event>)

  /** One critical section: the listener takes a request and looks its key up, the listener
      consults the history and spawns, a thread notes its value once the relay has answered, a
      thread records its result. */
  datatype Step =
    | Receive(key: Key, value: nat)
    | Consult
    | Finish(thread: nat, ok: bool)
    | Settle(thread: nat)

  function Init(optimistic: bool): System { System(optimistic, [], map[], Idle, map[], 0, []) }

  /** Requests arrive signed for production; on an optimistic relay a key that has not passed
      yet is tried under the test key first. */
  function Dispatch(s: System, request: Request, passed: bool): System {
    var sent := if s.optimistic && !passed then request.(signer := Test) else request;
    s.(listener := Idle, threads := s.threads[s.spawned := Submitting(sent)], spawned := s.spawned + 1,
       log := s.log + [Dispatched(sent)])
  }

  /** A step that is not enabled does nothing. */
  function Apply(s: System, step: Step): System {
    match step
    case Receive(key, value) =>
      if s.listener != Idle then s else
        var r := Lookup(s.checked, key);
        if r == Some(false) then s else s.(listener := Consulted(Request(key, value, Production), r == Some(true)))
    case Consult =>
      if s.listener.Idle? then s
      else if ProfitSmaller(s.history, s.listener.request.key.slot, s.listener.request.value) then s.(listener := Idle)
      else Dispatch(s, s.listener.request, s.listener.passed)
    case Finish(t, ok) =>
      if t !in s.threads || !s.threads[t].Submitting? then s else
        var request := s.threads[t].request;
        s.(history := UpdateHistory(s.history, request.key.slot, request.value), threads :=
           s.threads[t := Noted(request, ok)])
    case Settle(t) =>
      if t !in s.threads || !s.threads[t].Noted? then s else
        var Noted(request, ok) := s.threads[t];
        s.(checked := RecordResult(s.checked, request.key, ok), threads := s.threads - {t},
           log := s.log + [Completed(request.key, ok)])
  }

  /** An interleaving is any sequence of steps. */
  function Run(s: System, steps: seq<Step>): System {
    if steps == [] then s else Apply(Run(s, steps[..|steps| - 1]), steps[|steps| - 1])
  }

  /** Whatever is dispatched under the production key was vouched for by an earlier success. */
  ghost predicate Vouched(log: seq<Event>) {
    forall i :: 0 <= i < |log| && log[i].Dispatched? && log[i].request.signer.Production? ==>
      Completed(log[i].request.key, true) in log[..i]
  }

  ghost predicate Inv(s: System) {
    && s.history == map[]
    && DistinctKeys(s.checked) && |s.checked| <= CHECKED_MAX
    && (forall c :: c in s.checked && c.passed ==> Completed(c.key, true) in s.log)
    && (s.listener.Consulted? && s.listener.passed ==> Completed(s.listener.request.key, true) in s.log)
    && (s.optimistic ==> Vouched(s.log))
  }

  lemma VouchedPush(log: seq<Event>, e: Event)
    requires Vouched(log)
    requires e.Dispatched? && e.request.signer.Production? ==> Completed(e.request.key, true) in log
    ensures Vouched(log + [e])
  {
    var more := log + [e];
    assert more[..|log|] == log;
    forall i | 0 <= i < |more| && more[i].Dispatched? && more[i].request.signer.Production?
      ensures Completed(more[i].request.key, true) in more[..i]
    {
      if i < |log| {
        assert more[..i] == log[..i] && more[i] == log[i];
      }
    }
  }

  /** Pruning after every note leaves the history empty between critical sections. */
  lemma HistoryStaysEmpty(slot: nat, value: nat)
    ensures UpdateHistory(map[], slot, value) == map[]
  {
    var noted := NoteValue(map[], slot, value);
    assert noted.Keys == {slot};
    assert Smallest(noted.Keys) == slot;
  }

  lemma StepKeepsInv(s: System, step: Step)
    requires Inv(s)
    ensures Inv(Apply(s, step)) && Apply(s, step).optimistic == s.optimistic && s.log <= Apply(s, step).log
  {
    match step {
      case Receive(key, value) =>
      case Consult =>
        if s.listener.Consulted? && s.optimistic {
          var sent := if s.optimistic
            && !s.listener.passed then s.listener.request.(signer := Test) else s.listener.request;
          VouchedPush(s.log, Dispatched(sent));
        }
      case Finish(t, ok) =>
        if t in s.threads {
          HistoryStaysEmpty(s.threads[t].request.key.slot, s.threads[t].request.value);
        }
      case Settle(t) =>
        if t in s.threads && s.threads[t].Noted? {
          var Noted(request, ok) := s.threads[t];
          RecordKeeps(s.checked, request.key, ok);
          if s.optimistic {
            VouchedPush(s.log, Completed(request.key, ok));
          }
        }
    }
  }

  /** Optimistic relay safety over every interleaving: a request keeps the production signature
      only after an earlier request with the same key completed with success; recorded keys are
      distinct and at most a hundred; the history is always empty. */
  lemma {:induction false} EveryInterleavingIsSafe(optimistic: bool, steps: seq<Step>)
    ensures Inv(Run(Init(optimistic), steps)) && Run(Init(optimistic), steps).optimistic == optimistic
    decreases |steps|
  {
    if steps != [] {
      EveryInterleavingIsSafe(optimistic, steps[..|steps| - 1]);
      StepKeepsInv(Run(Init(optimistic), steps[..|steps| - 1]), steps[|steps| - 1]);
    }
  }

  // ---- the table says what happened last ----

  /** The last result that was recorded for a key. */
  ghost function LastResult(log: seq<Event>, key: Key): Option<bool> {
    if log == [] then None else
      var last := log[|log| - 1];
      if last.Completed? && last.key == key then Some(last.ok) else LastResult(log[..|log| - 1], key)
  }

  lemma LastResultPush(log: seq<Event>, e: Event, key: Key)
    ensures LastResult(log + [e], key) == if e.Completed? && e.key == key then Some(e.ok) else LastResult(log, key)
  {
    assert (log + [e])[..|log|] == log;
  }

  /** What the table says of a key is its last result; until the table is full it says all. */
  ghost predicate Current(s: System, key: Key) {
    && (Lookup(s.checked, key).Some? ==> Lookup(s.checked, key) == LastResult(s.log, key))
    && (|s.checked| < CHECKED_MAX ==> Lookup(s.checked, key) == LastResult(s.log, key))
  }

  lemma RecordGrows(checked: seq<Checked>, key: Key, passed: bool)
    requires |checked| <= CHECKED_MAX
    ensures |RecordResult(checked, key, passed)| >= |checked|
  {
    UpdateAt(checked, key, passed);
  }

  lemma StepKeepsCurrent(s: System, step: Step, key: Key)
    requires Inv(s) && Current(s, key)
    ensures Current(Apply(s, step), key)
  {
    hide Lookup, RecordResult, LastResult, Vouched;
    match step {
      case Receive(k, value) =>
      case Consult =>
        if s.listener.Consulted? {
          LastResultPush(s.log, Dispatched(s.listener.request), key);
          LastResultPush(s.log, Dispatched(s.listener.request.(signer := Test)), key);
        }
      case Finish(t, ok) =>
      case Settle(t) =>
        if t in s.threads && s.threads[t].Noted? {
          var Noted(request, ok) := s.threads[t];
          RecordedIsRead(s.checked, request.key, ok, key);
          RecordGrows(s.checked, request.key, ok);
          LastResultPush(s.log, Completed(request.key, ok), key);
        }
    }
  }

  /** In every interleaving, the entry of a key says what its last completion said. */
  lemma {:induction false} TableIsCurrent(optimistic: bool, steps: seq<Step>, key: Key)
    ensures Current(Run(Init(optimistic), steps), key)
    decreases |steps|
  {
    if steps != [] {
      var before := steps[..|steps| - 1];
      TableIsCurrent(optimistic, before, key);
      EveryInterleavingIsSafe(optimistic, before);
      StepKeepsCurrent(Run(Init(optimistic), before), steps[|steps| - 1], key);
    }
  }

  /** So a key whose last completion failed is held back: while it is recorded, a request for it
      is ignored. */
  lemma FailureHoldsBack(optimistic: bool, steps: seq<Step>, key: Key, value: nat)
    requires var s := Run(Init(optimistic), steps);
             LastResult(s.log, key) == Some(false) && (|s.checked| < CHECKED_MAX || Lookup(s.checked, key).Some?)
    ensures Apply(Run(Init(optimistic), steps), Receive(key, value)) == Run(Init(optimistic), steps)
  {
    TableIsCurrent(optimistic, steps, key);
  }

  /** Consulting the history sends the request exactly if no bid as high is noted for its slot. */
  lemma ConsultIff(s: System)
    requires s.listener.Consulted?
    ensures var request := s.listener.request;
            var lower := request.key.slot in s.history && s.history[request.key.slot] >= request.value;
            var sent := request.(signer := if s.optimistic && !s.listener.passed then Test else request.signer);
            && Apply(s, Consult).log == (if lower then s.log else s.log + [Dispatched(sent)])
            && Apply(s, Consult).listener == Idle
  {
  }

  // ---- the production key never goes first ----

  function EventKey(e: Event): Key {
    match e
    case Dispatched(request) => request.key
    case Completed(key, ok) => key
  }

  predicate IsTrial(e: Event) { e.Dispatched? && e.request.signer.Test? }

  ghost predicate Tried(log: seq<Event>, key: Key) {
    exists i :: 0 <= i < |log| && IsTrial(log[i]) && log[i].request.key == key
  }

  /** The first event about any key is a dispatch under the test key. */
  ghost predicate TrialFirst(log: seq<Event>) {
    forall i :: 0 <= i < |log| && !IsTrial(log[i]) ==> Tried(log[..i], EventKey(log[i]))
  }

  ghost predicate ThreadsTried(s: System) {
    forall t :: t in s.threads ==> Tried(s.log, s.threads[t].request.key)
  }

  lemma TriedExtends(log: seq<Event>, e: Event, key: Key)
    requires Tried(log, key) || (IsTrial(e) && e.request.key == key)
    ensures Tried(log + [e], key)
  {
    var i := if Tried(log, key) then (var i :| 0 <= i < |log| && IsTrial(log[i]) && log[i].request.key == key; i)
      else |log|;
    assert IsTrial((log + [e])[i]) && (log + [e])[i].request.key == key;
  }

  lemma TrialFirstPush(log: seq<Event>, e: Event)
    requires TrialFirst(log)
    requires IsTrial(e) || Tried(log, EventKey(e))
    ensures TrialFirst(log + [e])
  {
    var more := log + [e];
    assert more[..|log|] == log;
    forall i | 0 <= i < |more| && !IsTrial(more[i]) ensures Tried(more[..i], EventKey(more[i])) {
      if i < |log| {
        assert more[..i] == log[..i] && more[i] == log[i];
      }
    }
  }

  /** Any event about a key shows that the key was tried before. */
  lemma EventWasTried(log: seq<Event>, e: Event)
    requires TrialFirst(log) && e in log && !IsTrial(e)
    ensures Tried(log, EventKey(e))
  {
    var i :| 0 <= i < |log| && log[i] == e;
    var j :| 0 <= j < i && IsTrial(log[..i][j]) && log[..i][j].request.key == EventKey(e);
    assert IsTrial(log[j]);
  }

  lemma StepKeepsTrialFirst(s: System, step: Step)
    requires Inv(s) && s.optimistic && TrialFirst(s.log) && ThreadsTried(s)
    ensures TrialFirst(Apply(s, step).log) && ThreadsTried(Apply(s, step))
  {
    var s' := Apply(s, step);
    if s'.log != s.log {
      var e := if step.Consult? then s'.log[|s.log|]
        else Completed(s.threads[step.thread].request.key, s.threads[step.thread].ok);
      assert s'.log == s.log + [e];
      if step.Consult? && !IsTrial(e) {
        EventWasTried(s.log, Completed(EventKey(e), true));
      }
      TrialFirstPush(s.log, e);
      forall t | t in s'.threads ensures Tried(s'.log, s'.threads[t].request.key) {
        TriedExtends(s.log, e, s'.threads[t].request.key);
      }
    }
  }

  /** In every interleaving on an optimistic relay, whatever is sent or completed for a key comes
      after a request for that key sent under the test key. */
  lemma {:induction false} TestKeyGoesFirst(steps: seq<Step>)
    ensures TrialFirst(Run(Init(true), steps).log) && ThreadsTried(Run(Init(true), steps))
    decreases |steps|
  {
    if steps != [] {
      var before := steps[..|steps| - 1];
      TestKeyGoesFirst(before);
      EveryInterleavingIsSafe(true, before);
      StepKeepsTrialFirst(Run(Init(true), before), steps[|steps| - 1]);
    }
  }

  /** So the guard against lower bids never rejects anything. */
  lemma GuardNeverRejects(optimistic: bool, steps: seq<Step>, slot: nat, value: nat)
    ensures !ProfitSmaller(Run(Init(optimistic), steps).history, slot, value)
  {
    EveryInterleavingIsSafe(optimistic, steps);
  }

  predicate OfThread(step: Step) { step.Finish? || step.Settle? }

  /** Threads leave the listener alone, and any steps keep the invariant. */
  lemma {:induction false} ThreadsLeaveListener(s: System, steps: seq<Step>)
    requires Inv(s) && forall i :: 0 <= i < |steps| ==> OfThread(steps[i])
    ensures var s' := Run(s, steps); Inv(s') && s'.listener == s.listener && s'.optimistic == s.optimistic
    decreases |steps|
  {
    if steps != [] {
      var init, last := steps[..|steps| - 1], steps[|steps| - 1];
      ThreadsLeaveListener(s, init);
      StepKeepsInv(Run(s, init), last);
      assert OfThread(last);
    }
  }

  /** What a received request sends: nothing if its key is recorded as failed, otherwise the
      request, under the test key if the relay is optimistic and the key has not passed. */
  function Sends(s: System, key: Key, value: nat): seq<Event> {
    match Lookup(s.checked, key)
    case Some(false) => []
    case Some(true) => [Dispatched(Request(key, value, Production))]
    case None => [Dispatched(Request(key, value, if s.optimistic then Test else Production))]
  }

  /** In every reachable state with an idle listener, and whatever threads do before the history
      is consulted, a received request goes out exactly when its key was not recorded as failed
      on receipt, whatever it bids. */
  lemma DispatchedIff(optimistic: bool, steps: seq<Step>, key: Key, value: nat, between: seq<Step>)
    requires Run(Init(optimistic), steps).listener.Idle? && forall i :: 0 <= i < |between| ==> OfThread(between[i])
    ensures var s := Run(Init(optimistic), steps);
            var s' := Run(Apply(s, Receive(key, value)), between);
            Apply(s', Consult).log == s'.log + Sends(s, key, value)
  {
    var s := Run(Init(optimistic), steps);
    var received := Apply(s, Receive(key, value));
    EveryInterleavingIsSafe(optimistic, steps);
    StepKeepsInv(s, Receive(key, value));
    ThreadsLeaveListener(received, between);
    ReceiveMeans(s, key, value);
    hide *;
    ConsultMeans(Run(received, between), s, key, value);
  }

  lemma ReceiveMeans(s: System, key: Key, value: nat)
    requires s.listener.Idle?
    ensures var r, l := Lookup(s.checked, key), Apply(s, Receive(key, value)).listener;
            l == if r == Some(false) then Idle else Consulted(Request(key, value, Production), r == Some(true))
  {
    hide Lookup;
  }

  lemma ConsultMeans(s': System, s: System, key: Key, value: nat)
    requires Inv(s') && s'.optimistic == s.optimistic
    requires var r := Lookup(s.checked, key);
             s'.listener == if r == Some(false) then Idle
               else Consulted(Request(key, value, Production), r == Some(true))
    ensures Apply(s', Consult).log == s'.log + Sends(s, key, value)
  {
    hide Lookup, Vouched, DistinctKeys;
  }

  /** A run in which a lower bid for the same slot follows a higher one that succeeded. */
  lemma LowerBidGoesOut(key: Key)
    ensures var s :=
            Apply(Apply(Apply(Apply(Apply(Apply(Init(false), Receive(key, 10)), Consult), Finish(0, true)),
                              Settle(0)), Receive(key, 5)), Consult);
            s.log == [Dispatched(Request(key, 10, Production)), Completed(key, true),
                      Dispatched(Request(key, 5, Production))]
  {
    var s1 := Apply(Apply(Init(false), Receive(key, 10)), Consult);
    assert s1.log == [Dispatched(Request(key, 10, Production))]
      && s1.threads == map[0 := Submitting(Request(key, 10, Production))];
    HistoryStaysEmpty(key.slot, 10);
    var s2 := Apply(s1, Finish(0, true));
    assert s2.history == map[] && s2.threads == map[0 := Noted(Request(key, 10, Production), true)];
    var s3 := Apply(s2, Settle(0));
    assert s3.checked == [Checked(key, true)] && s3.history == map[];
    assert Lookup(s3.checked, key) == Some(true);
  }

  // ---- the critical sections as the threads run them ----

  class RelaySubmitter {
    var checkedState: seq<Checked>
    var history: map<nat, nat>

    constructor ()
      ensures checkedState == [] && history == map[]
    {
      checkedState, history := [], map[];
    }

    /** First matching entry. */
    method FindChecked(key: Key) returns (r: Option<bool>)
      ensures r == Lookup(checkedState, key)
    {
      var rest := checkedState;
      while rest != []
        invariant Lookup(rest, key) == Lookup(checkedState, key)
      {
        if rest[0].key == key {
          return Some(rest[0].passed);
        }
        rest := rest[1..];
      }
      r := None;
    }

    method NoteSubmission(slot: nat, value: nat)
      modifies this`history
      ensures history == UpdateHistory(old(history), slot, value)
    {
      if slot !in history {
        history := history[slot := value];
      }
      if value > history[slot] {
        history := history[slot := value];
      }
      assert history == NoteValue(old(history), slot, value);
      if |history| > 0 {
        history := history - {Smallest(history.Keys)};
      }
    }

    /** Overwrites the result of the first matching entry. */
    method UpdateMatching(key: Key, passed: bool) returns (matched: bool)
      modifies this`checkedState
      ensures matched == Lookup(old(checkedState), key).Some?
      ensures checkedState == if matched then Update(old(checkedState), key, passed) else old(checkedState)
    {
      var seen, rest := [], checkedState;
      while rest != []
        invariant checkedState == old(checkedState) == seen + rest
        invariant Lookup(rest, key) == Lookup(old(checkedState), key)
        invariant seen + Update(rest, key, passed) == Update(old(checkedState), key, passed)
      {
        if rest[0].key == key {
          checkedState := seen + ([rest[0].(passed := passed)] + rest[1..]);
          return true;
        }
        Associate(seen, [rest[0]], Update(rest[1..], key, passed));
        Associate(seen, [rest[0]], rest[1..]);
        assert rest == [rest[0]] + rest[1..];
        seen, rest := seen + [rest[0]], rest[1..];
      }
      matched := false;
    }

    method DropOldest()
      modifies this`checkedState
      ensures checkedState == Trim(old(checkedState))
    {
      ghost var gone := 0;
      while |checkedState| > CHECKED_MAX
        invariant gone <= |old(checkedState)| && checkedState == old(checkedState)[gone..]
        invariant gone == 0 || |old(checkedState)| - gone >= CHECKED_MAX
      {
        checkedState := checkedState[1..];
        gone := gone + 1;
      }
    }

    method RecordSubmission(key: Key, passed: bool)
      modifies this`checkedState
      ensures checkedState == RecordResult(old(checkedState), key, passed)
    {
      var matched := UpdateMatching(key, passed);
      if !matched {
        checkedState := checkedState + [Checked(key, passed)];
        DropOldest();
      }
    }
  }
}
