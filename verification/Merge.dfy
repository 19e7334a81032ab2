/** The order in which pending transactions are attempted, as a game on plain queues: one
    queue per sender, always serve the front with the greatest (miner tip, hash). */
module Merge {
  import opened Chain

  type Queues = map<Address, seq<Tx>>

  /** What an attempt does to its sender's queue: go on to the next transaction, or give up
      on the sender. */
  datatype Move = Shift | Drop

  datatype Attempt = Attempt(tx: Tx, move: Move)

  /** Greater tip first, then greater hash. */
  predicate Beats(x: Tx, y: Tx, baseFee: nat)
    requires CanPay(x, Some(baseFee)) && CanPay(y, Some(baseFee))
  {
    var a, b := MinerTip(x, baseFee), MinerTip(y, baseFee);
    a > b || (a == b && x.hash > y.hash)
  }

  /** Every queue is non-empty, holds its own sender's transactions, and its front can pay. */
  ghost predicate Live(q: Queues, baseFee: nat) {
    forall a :: a in q ==> q[a] != [] && CanPay(q[a][0], Some(baseFee)) && forall x :: x in q[a] ==> x.sender == a
  }

  /** `tx` is the front of its sender's queue and beats the front of every other queue. */
  ghost predicate Leads(q: Queues, baseFee: nat, tx: Tx)
    requires Live(q, baseFee)
  {
    && tx.sender in q && q[tx.sender][0] == tx
    && forall a :: a in q && a != tx.sender ==> Beats(tx, q[a][0], baseFee)
  }

  /** The order in numbers: the tip, the smaller of the priority fee and what the fee cap leaves
      over the base fee, is greater, or the same with a greater hash. */
  lemma BeatsInNumbers(x: Tx, y: Tx, baseFee: nat)
    requires CanPay(x, Some(baseFee)) && CanPay(y, Some(baseFee))
    ensures baseFee <= x.feeCap && baseFee <= y.feeCap
    ensures var a, b := Min(x.tipCap, x.feeCap - baseFee), Min(y.tipCap, y.feeCap - baseFee);
            Beats(x, y, baseFee) <==> a > b || (a == b && x.hash > y.hash)
  {
  }

  /** What leads pays more than the front of every other queue. */
  lemma LeaderPaysMost(q: Queues, baseFee: nat, tx: Tx, a: Address)
    requires Live(q, baseFee) && Leads(q, baseFee, tx) && a in q && a != tx.sender
    ensures q[a] != []
    ensures var y := q[a][0];
            var tip, other := Min(tx.tipCap, tx.feeCap - baseFee), Min(y.tipCap, y.feeCap - baseFee);
            tip > other || (tip == other && tx.hash > y.hash)
  {
    BeatsInNumbers(tx, q[a][0], baseFee);
    hide Beats, CanPay;
  }

  /** A sender whose next transaction is missing or cannot pay is out. */
  function After(q: Queues, baseFee: nat, a: Address, move: Move): Queues
    requires a in q && q[a] != []
  {
    var rest := q[a][1..];
    if move.Drop? || rest == [] || !CanPay(rest[0], Some(baseFee)) then q - {a} else q[a := rest]
  }

  lemma AfterIsLive(q: Queues, baseFee: nat, a: Address, move: Move)
    requires Live(q, baseFee) && a in q
    ensures Live(After(q, baseFee, a, move), baseFee)
  {
  }

  /** `log` is a run of the game from `q` to `q'`. */
  ghost predicate Run(q: Queues, baseFee: nat, log: seq<Attempt>, q': Queues)
    requires Live(q, baseFee)
    decreases |log|
  {
    if log == [] then q == q' else
      && Leads(q, baseFee, log[0].tx)
      && (AfterIsLive(q, baseFee, log[0].tx.sender, log[0].move);
          Run(After(q, baseFee, log[0].tx.sender, log[0].move), baseFee, log[1..], q'))
  }

  lemma RunStep(q: Queues, baseFee: nat, log: seq<Attempt>, q': Queues)
    requires Live(q, baseFee) && Run(q, baseFee, log, q') && log != []
    ensures Leads(q, baseFee, log[0].tx) && log[0].tx.sender in q && q[log[0].tx.sender] != []
    ensures q[log[0].tx.sender][0] == log[0].tx
    ensures var next := After(q, baseFee, log[0].tx.sender, log[0].move);
            Live(next, baseFee) && Run(next, baseFee, log[1..], q')
  {
    AfterIsLive(q, baseFee, log[0].tx.sender, log[0].move);
  }

  lemma RunMade(q: Queues, baseFee: nat, log: seq<Attempt>, q': Queues)
    requires Live(q, baseFee) && log != [] && Leads(q, baseFee, log[0].tx)
    requires var next := After(q, baseFee, log[0].tx.sender, log[0].move);
             Live(next, baseFee) && Run(next, baseFee, log[1..], q')
    ensures Run(q, baseFee, log, q')
  {
    hide Live, Leads, After;
  }

  lemma {:induction false} RunPush(q: Queues, baseFee: nat, log: seq<Attempt>, q': Queues, attempt: Attempt)
    requires Live(q, baseFee) && Run(q, baseFee, log, q')
    requires Live(q', baseFee) && Leads(q', baseFee, attempt.tx)
    ensures Run(q, baseFee, log + [attempt], After(q', baseFee, attempt.tx.sender, attempt.move))
    decreases |log|
  {
    var longer := log + [attempt];
    if log == [] {
      AfterIsLive(q, baseFee, attempt.tx.sender, attempt.move);
      assert longer[1..] == [];
    } else {
      RunStep(q, baseFee, log, q');
      hide *;
      assert longer[1..] == log[1..] + [attempt] && longer[0] == log[0];
      RunPush(After(q, baseFee, log[0].tx.sender, log[0].move), baseFee, log[1..], q', attempt);
      LeaderQueued(q', baseFee, attempt.tx);
      RunMade(q, baseFee, longer, After(q', baseFee, attempt.tx.sender, attempt.move));
    }
  }

  lemma LeaderQueued(q: Queues, baseFee: nat, tx: Tx)
    requires Live(q, baseFee) && Leads(q, baseFee, tx)
    ensures tx.sender in q && q[tx.sender] != []
  {
  }

  /** The transactions of `a` that were attempted, in order. */
  function AttemptsOf(log: seq<Attempt>, a: Address): seq<Tx>
    decreases |log|
  {
    if log == [] then [] else
      (if log[0].tx.sender == a then [log[0].tx] else []) + AttemptsOf(log[1..], a)
  }

  /** Each sender's attempts are a prefix of its queue. */
  lemma {:induction false} AttemptsArePrefix(q: Queues, baseFee: nat, log: seq<Attempt>, q': Queues, a: Address)
    requires Live(q, baseFee) && Run(q, baseFee, log, q')
    ensures AttemptsOf(log, a) <= if a in q then q[a] else []
    decreases |log|
  {
    hide Live, Leads;
    if log != [] {
      RunStep(q, baseFee, log, q');
      hide Run;
      var next := After(q, baseFee, log[0].tx.sender, log[0].move);
      AttemptsArePrefix(next, baseFee, log[1..], q', a);
      if log[0].tx.sender == a {
        assert q[a] == [log[0].tx] + q[a][1..];
      }
    }
  }

  ghost predicate ConsecutiveNonces(list: seq<Tx>) {
    forall i :: 0 < i < |list| ==> list[i].nonce == list[i - 1].nonce + 1
  }

  /** ... so on queues of consecutive nonces, no sender's nonce is ever skipped or repeated. */
  lemma AttemptsAreConsecutive(q: Queues, baseFee: nat, log: seq<Attempt>, q': Queues, a: Address)
    requires Live(q, baseFee) && Run(q, baseFee, log, q')
    requires a in q ==> ConsecutiveNonces(q[a])
    ensures ConsecutiveNonces(AttemptsOf(log, a))
  {
    AttemptsArePrefix(q, baseFee, log, q', a);
    assert a in q ==> forall i :: 0 <= i < |AttemptsOf(log, a)| ==> AttemptsOf(log, a)[i] == q[a][i];
  }

  lemma {:induction false} AbsentStaysAbsent(q: Queues, baseFee: nat, log: seq<Attempt>, q': Queues, a: Address)
    requires Live(q, baseFee) && Run(q, baseFee, log, q') && a !in q
    ensures a !in q' && forall j :: 0 <= j < |log| ==> log[j].tx.sender != a
    decreases |log|
  {
    if log != [] {
      AfterIsLive(q, baseFee, log[0].tx.sender, log[0].move);
      AbsentStaysAbsent(After(q, baseFee, log[0].tx.sender, log[0].move), baseFee, log[1..], q', a);
      assert forall j :: 0 < j < |log| ==> log[j] == log[1..][j - 1];
    }
  }

  /** A sender that was given up on is never attempted again. */
  lemma {:induction false} DroppedIsFinal(q: Queues, baseFee: nat, log: seq<Attempt>, q': Queues, i: nat, j: nat)
    requires Live(q, baseFee) && Run(q, baseFee, log, q')
    requires i < j < |log| && log[i].move.Drop?
    ensures log[j].tx.sender != log[i].tx.sender
    decreases |log|
  {
    hide Live, Leads;
    RunStep(q, baseFee, log, q');
    hide Run;
    var next := After(q, baseFee, log[0].tx.sender, log[0].move);
    if i == 0 {
      AbsentStaysAbsent(next, baseFee, log[1..], q', log[0].tx.sender);
      assert log[j] == log[1..][j - 1];
    } else {
      DroppedIsFinal(next, baseFee, log[1..], q', i - 1, j - 1);
    }
  }

  /** Fees only rise along the run when a sender's own next transaction is uncovered. */
  lemma {:induction false} NeighboursAreGreedy(q: Queues, baseFee: nat, log: seq<Attempt>, q': Queues, i: nat)
    requires Live(q, baseFee) && Run(q, baseFee, log, q') && i + 1 < |log|
    ensures baseFee <= log[i].tx.feeCap && baseFee <= log[i + 1].tx.feeCap
    ensures var x, y := log[i].tx, log[i + 1].tx;
            var tip, other := Min(x.tipCap, x.feeCap - baseFee), Min(y.tipCap, y.feeCap - baseFee);
            y.sender == x.sender || tip > other || (tip == other && x.hash > y.hash)
    decreases |log|
  {
    hide *;
    RunStep(q, baseFee, log, q');
    var next := After(q, baseFee, log[0].tx.sender, log[0].move);
    assert log[1..][0] == log[1];
    RunStep(next, baseFee, log[1..], q');
    if i == 0 {
      NextPaysLess(q, baseFee, log[0], log[1].tx);
    } else {
      NeighboursAreGreedy(next, baseFee, log[1..], q', i - 1);
    }
  }

  lemma NextPaysLess(q: Queues, baseFee: nat, attempt: Attempt, y: Tx)
    requires Live(q, baseFee) && Leads(q, baseFee, attempt.tx)
    requires attempt.tx.sender in q && q[attempt.tx.sender] != []
    requires var next := After(q, baseFee, attempt.tx.sender, attempt.move);
             Live(next, baseFee) && Leads(next, baseFee, y)
    ensures baseFee <= attempt.tx.feeCap && baseFee <= y.feeCap
    ensures var x := attempt.tx;
            var tip, other := Min(x.tipCap, x.feeCap - baseFee), Min(y.tipCap, y.feeCap - baseFee);
            y.sender == x.sender || tip > other || (tip == other && x.hash > y.hash)
  {
    LeaderCovers(q, baseFee, attempt.tx);
    LeaderCovers(After(q, baseFee, attempt.tx.sender, attempt.move), baseFee, y);
    if y.sender != attempt.tx.sender {
      LeaderPaysMost(q, baseFee, attempt.tx, y.sender);
    }
  }

  lemma LeaderCovers(q: Queues, baseFee: nat, tx: Tx)
    requires Live(q, baseFee) && Leads(q, baseFee, tx)
    ensures baseFee <= tx.feeCap
  {
  }

  /** A sender was given up on. */
  ghost predicate GivenUp(log: seq<Attempt>, a: Address) {
    exists i :: 0 <= i < |log| && log[i].tx.sender == a && log[i].move.Drop?
  }

  lemma GivenUpLater(log: seq<Attempt>, a: Address)
    requires log != [] && GivenUp(log[1..], a)
    ensures GivenUp(log, a)
  {
    var i :| 0 <= i < |log[1..]| && log[1..][i].tx.sender == a && log[1..][i].move.Drop?;
    assert log[i + 1].tx.sender == a;
  }

  function QueueOf(q: Queues, a: Address): seq<Tx> { if a in q then q[a] else [] }

  /** Nobody is passed over: a sender is attempted until its queue is used up or is what is left,
      unless it was given up on. */
  lemma {:induction false} ServedOut(q: Queues, baseFee: nat, log: seq<Attempt>, q': Queues, a: Address)
    requires Live(q, baseFee) && Run(q, baseFee, log, q')
    requires forall x :: x in QueueOf(q, a) ==> baseFee <= x.feeCap
    ensures GivenUp(log, a) || AttemptsOf(log, a) + QueueOf(q', a) == QueueOf(q, a)
    decreases |log|
  {
    hide *;
    if log == [] {
      NoRun(q, baseFee, log, q', a);
    } else {
      RunStep(q, baseFee, log, q');
      AttemptsStep(log, a);
      var next, tail := After(q, baseFee, log[0].tx.sender, log[0].move), log[1..];
      if log[0].tx.sender == a && log[0].move.Drop? {
        GivenUpNow(log, a);
      } else {
        QueueStep(q, baseFee, log[0], a);
        ServedOut(next, baseFee, tail, q', a);
        if GivenUp(tail, a) {
          GivenUpLater(log, a);
        } else if log[0].tx.sender == a {
          Associate([log[0].tx], AttemptsOf(tail, a), QueueOf(q', a));
        }
      }
    }
  }

  lemma NoRun(q: Queues, baseFee: nat, log: seq<Attempt>, q': Queues, a: Address)
    requires Live(q, baseFee) && Run(q, baseFee, log, q') && log == []
    ensures AttemptsOf(log, a) + QueueOf(q', a) == QueueOf(q, a)
  {
  }

  lemma AttemptsStep(log: seq<Attempt>, a: Address)
    requires log != []
    ensures AttemptsOf(log, a) ==
            if log[0].tx.sender == a then [log[0].tx] + AttemptsOf(log[1..], a) else AttemptsOf(log[1..], a)
  {
  }

  lemma GivenUpNow(log: seq<Attempt>, a: Address)
    requires log != [] && log[0].tx.sender == a && log[0].move.Drop?
    ensures GivenUp(log, a)
  {
  }

  /** Going on to the next transaction of a queue that can pay leaves just the rest of it, and
      the other queues alone. */
  lemma QueueStep(q: Queues, baseFee: nat, attempt: Attempt, a: Address)
    requires var b := attempt.tx.sender; b in q && q[b] != [] && q[b][0] == attempt.tx
    requires forall x :: x in QueueOf(q, a) ==> baseFee <= x.feeCap
    requires !(attempt.tx.sender == a && attempt.move.Drop?)
    ensures var next := After(q, baseFee, attempt.tx.sender, attempt.move);
            && QueueOf(q, a) == (if attempt.tx.sender == a then [attempt.tx] + QueueOf(next, a) else QueueOf(next, a))
            && forall x :: x in QueueOf(next, a) ==> baseFee <= x.feeCap
  {
    if attempt.tx.sender == a {
      assert q[a] == [attempt.tx] + q[a][1..];
      if q[a][1..] != [] {
        assert q[a][1..][0] in q[a];
      }
    }
  }

  /** The queues after a log, which alone decides them. */
  ghost function QueuesAfter(q: Queues, baseFee: nat, log: seq<Attempt>): Queues
    decreases |log|
  {
    if log == [] || log[0].tx.sender !in q || q[log[0].tx.sender] == [] then q
    else QueuesAfter(After(q, baseFee, log[0].tx.sender, log[0].move), baseFee, log[1..])
  }

  lemma QueuesStep(q: Queues, baseFee: nat, log: seq<Attempt>)
    requires log != [] && log[0].tx.sender in q && q[log[0].tx.sender] != []
    ensures QueuesAfter(q, baseFee, log) ==
            QueuesAfter(After(q, baseFee, log[0].tx.sender, log[0].move), baseFee, log[1..])
  {
    hide After;
  }

  lemma RunStart(q: Queues, baseFee: nat, log: seq<Attempt>, q': Queues)
    requires Live(q, baseFee) && Run(q, baseFee, log, q')
    ensures QueuesAfter(q, baseFee, log[..0]) == q && Run(q, baseFee, log[..0], q)
    ensures if log == [] then q' == q else Leads(q, baseFee, log[0].tx)
  {
  }

  /** The first `n` attempts of a run are a run, and attempt `n` leads what they left. */
  lemma {:induction false} RunReaches(q: Queues, baseFee: nat, log: seq<Attempt>, q': Queues, n: nat)
    requires Live(q, baseFee) && Run(q, baseFee, log, q') && n <= |log|
    ensures var mid := QueuesAfter(q, baseFee, log[..n]);
            && Live(mid, baseFee) && Run(q, baseFee, log[..n], mid)
            && (if n < |log| then Leads(mid, baseFee, log[n].tx) else q' == mid)
    decreases |log|
  {
    hide *;
    if n == 0 {
      RunStart(q, baseFee, log, q');
    } else {
      RunStep(q, baseFee, log, q');
      var prefix := log[..n];
      assert prefix[1..] == log[1..][..n - 1] && prefix[0] == log[0];
      RunReaches(After(q, baseFee, log[0].tx.sender, log[0].move), baseFee, log[1..], q', n - 1);
      QueuesStep(q, baseFee, prefix);
      RunMade(q, baseFee, prefix, QueuesAfter(q, baseFee, prefix));
    }
  }

  lemma NextInLine(q: Queues, a: Address, done: seq<Tx>, whole: seq<Tx>)
    requires done + QueueOf(q, a) == whole && |done| < |whole|
    ensures a in q && q[a] != [] && q[a][0] == whole[|done|]
  {
  }

  lemma QueueHere(q: Queues, a: Address)
    requires a in q
    ensures QueueOf(q, a) == q[a]
  {
  }

  /** Every attempt is the best there is: it pays more than the next transaction `y` of every
      other sender that was not given up on and has one left. */
  lemma EachIsBest(q: Queues, baseFee: nat, log: seq<Attempt>, q': Queues, i: nat, a: Address, y: Tx)
    requires Live(q, baseFee) && Run(q, baseFee, log, q') && i < |log| && a in q && a != log[i].tx.sender
    requires !GivenUp(log[..i], a) && |AttemptsOf(log[..i], a)| < |q[a]| && y == q[a][|AttemptsOf(log[..i], a)|]
    requires forall x :: x in q[a] ==> baseFee <= x.feeCap
    ensures var x := log[i].tx;
            var tip, other := Min(x.tipCap, x.feeCap - baseFee), Min(y.tipCap, y.feeCap - baseFee);
            tip > other || (tip == other && x.hash > y.hash)
  {
    hide *;
    var mid := QueuesAfter(q, baseFee, log[..i]);
    QueueHere(q, a);
    RunReaches(q, baseFee, log, q', i);
    ServedOut(q, baseFee, log[..i], mid, a);
    NextInLine(mid, a, AttemptsOf(log[..i], a), q[a]);
    LeaderPaysMost(mid, baseFee, log[i].tx, a);
  }
}
