/** The record of a filling phase: each transaction tried, in order, with its outcome. */
module Trials {
  import opened Chain
  import opened Evm
  import opened BuildEnv

  datatype Trial = Trial(tx: Tx, action: CommitAction)

  /** Where the build stands after these trials. */
  ghost function PointAfter(ctx: Context, p: Point, trials: seq<Trial>): Point {
    if trials == [] then p else
      var init, last := trials[..|trials| - 1], trials[|trials| - 1];
      Moved(ctx, last.tx, PointAfter(ctx, p, init), last.action)
  }

  /** A stop ends a phase. */
  predicate Stopped(trials: seq<Trial>) { trials != [] && trials[|trials| - 1].action.Stop? }

  /** Each outcome is the one due where the trials before it left the build, and nothing is
      tried after a stop. */
  ghost predicate Judged(ctx: Context, p: Point, trials: seq<Trial>, forever: bool) {
    trials == [] ||
    var init, last := trials[..|trials| - 1], trials[|trials| - 1];
    && Judged(ctx, p, init, forever) && !Stopped(init)
    && Decided(ctx, last.tx, PointAfter(ctx, p, init), last.action, forever)
  }

  /** The transactions that went into the block. */
  function Successes(trials: seq<Trial>): seq<Tx> {
    if trials == [] then [] else
      var last := trials[|trials| - 1];
      Successes(trials[..|trials| - 1]) + (if last.action.Success? then [last.tx] else [])
  }

  /** The hashes of the transactions that can never go into a block any more. */
  function Removals(trials: seq<Trial>): seq<Hash> {
    if trials == [] then [] else
      var last := trials[|trials| - 1];
      Removals(trials[..|trials| - 1]) + (if last.action.RemoveTx? then [last.tx.hash] else [])
  }

  /** The trials lead from one point to another. */
  ghost predicate Lead(ctx: Context, p: Point, trials: seq<Trial>, forever: bool, p': Point) {
    Judged(ctx, p, trials, forever) && p' == PointAfter(ctx, p, trials)
  }

  lemma LeadStart(ctx: Context, p: Point, forever: bool)
    ensures Lead(ctx, p, [], forever, p) && !Stopped([]) && Successes([]) == [] && Removals([]) == []
  {
  }

  lemma LeadPush(ctx: Context, p: Point, trials: seq<Trial>, forever: bool, p': Point, t: Trial)
    requires Lead(ctx, p, trials, forever, p') && !Stopped(trials)
    requires Decided(ctx, t.tx, p', t.action, forever)
    ensures Lead(ctx, p, trials + [t], forever, Moved(ctx, t.tx, p', t.action))
    ensures Stopped(trials + [t]) == t.action.Stop?
  {
    assert (trials + [t])[..|trials|] == trials;
    hide Decided, Moved;
  }

  lemma ListsPush(trials: seq<Trial>, t: Trial)
    ensures Successes(trials + [t]) == if t.action.Success? then Successes(trials) + [t.tx] else Successes(trials)
    ensures Removals(trials + [t]) == if t.action.RemoveTx? then Removals(trials) + [t.tx.hash] else Removals(trials)
  {
    assert (trials + [t])[..|trials|] == trials;
  }

  /** Without a deadline only a lack of gas stops a phase. */
  lemma StoppedForGas(ctx: Context, p: Point, trials: seq<Trial>, p': Point)
    requires Lead(ctx, p, trials, true, p') && Stopped(trials)
    ensures p'.gasPool <= TX_GAS
  {
  }

  lemma {:induction false} JudgedPrefix(ctx: Context, p: Point, trials: seq<Trial>, forever: bool, n: nat)
    requires Judged(ctx, p, trials, forever) && n <= |trials|
    ensures Judged(ctx, p, trials[..n], forever)
    ensures n < |trials| ==>
            !Stopped(trials[..n])
              && Decided(ctx, trials[n].tx, PointAfter(ctx, p, trials[..n]), trials[n].action, forever)
    decreases |trials|
  {
    if n == |trials| {
      assert trials[..n] == trials;
    } else if n < |trials| - 1 {
      var init := trials[..|trials| - 1];
      JudgedPrefix(ctx, p, init, forever, n);
      assert init[..n] == trials[..n];
    }
  }

  /** Exactly the transactions found hopeless are removed. */
  lemma {:induction false} RemovalsIff(trials: seq<Trial>, h: Hash)
    ensures h in Removals(trials) <==>
            exists i :: 0 <= i < |trials| && trials[i].tx.hash == h && trials[i].action.RemoveTx?
    decreases |trials|
  {
    if trials != [] {
      var n := |trials| - 1;
      RemovalsIff(trials[..n], h);
      assert forall i :: 0 <= i < n ==> trials[..n][i] == trials[i];
    }
  }

  /** ... and just those that succeeded go into the block. */
  lemma {:induction false} SuccessesIff(trials: seq<Trial>, x: Tx)
    ensures x in Successes(trials) <==>
            exists i :: 0 <= i < |trials| && trials[i].tx == x && trials[i].action.Success?
    decreases |trials|
  {
    if trials != [] {
      var n := |trials| - 1;
      SuccessesIff(trials[..n], x);
      assert forall i :: 0 <= i < n ==> trials[..n][i] == trials[i];
    }
  }

  /** Why each trial of a phase was removed or not: it was exactly when, where the trials before
      it left the build, there was room for it and it was hopeless, unless the deadline came. */
  lemma RemovedForCause(ctx: Context, p: Point, trials: seq<Trial>, forever: bool, i: nat)
    requires Judged(ctx, p, trials, forever) && i < |trials|
    ensures var at := PointAfter(ctx, p, trials[..i]);
            && (trials[i].action.RemoveTx? ==> HasRoom(ctx, trials[i].tx, at) && Hopeless(ctx, trials[i].tx, at.world))
            && (HasRoom(ctx, trials[i].tx, at) && Hopeless(ctx, trials[i].tx, at.world) ==>
                  trials[i].action.RemoveTx? || (trials[i].action.Stop? && !forever))
  {
    JudgedPrefix(ctx, p, trials, forever, i);
    VerdictIff(ctx, trials[i].tx, PointAfter(ctx, p, trials[..i]));
    hide Verdict, HasRoom, Hopeless, PointAfter;
  }

  lemma MarkMoves(ctx: Context, tx: Tx, p: Point, action: CommitAction)
    ensures Moved(ctx, tx, p, action).marks == p.marks[tx.hash := action.Success? || action.RemoveTx?]
  {
  }

  /** A phase leaves the mark of whatever it does not try. */
  lemma {:induction false} MarkKept(ctx: Context, p: Point, trials: seq<Trial>, h: Hash)
    requires forall i :: 0 <= i < |trials| ==> trials[i].tx.hash != h
    ensures var marks := PointAfter(ctx, p, trials).marks;
            (h in marks <==> h in p.marks) && (h in marks ==> marks[h] == p.marks[h])
    decreases |trials|
  {
    hide Moved;
    if trials != [] {
      var init, last := trials[..|trials| - 1], trials[|trials| - 1];
      MarkKept(ctx, p, init, h);
      MarkMoves(ctx, last.tx, PointAfter(ctx, p, init), last.action);
    }
  }

  /** What it tries is marked, as settled exactly if its last trial put it into the block or
      removed it. */
  lemma {:induction false} MarkSet(ctx: Context, p: Point, trials: seq<Trial>, i: nat)
    requires i < |trials| && forall j :: i < j < |trials| ==> trials[j].tx.hash != trials[i].tx.hash
    ensures var marks, h := PointAfter(ctx, p, trials).marks, trials[i].tx.hash;
            h in marks && (marks[h] <==> trials[i].action.Success? || trials[i].action.RemoveTx?)
    decreases |trials|
  {
    hide Moved;
    var init, last := trials[..|trials| - 1], trials[|trials| - 1];
    MarkMoves(ctx, last.tx, PointAfter(ctx, p, init), last.action);
    if i < |trials| - 1 {
      assert init[i] == trials[i] && forall j :: i < j < |init| ==> init[j] == trials[j];
      MarkSet(ctx, p, init, i);
    }
  }

  /** Without a deadline, what is tried decides what comes of it: phases from one point that try
      the same transactions have the same outcomes. */
  lemma {:induction false} OutcomesDetermined(ctx: Context, p: Point, ts: seq<Trial>, us: seq<Trial>)
    requires Judged(ctx, p, ts, true) && Judged(ctx, p, us, true) && |ts| == |us|
    requires forall i :: 0 <= i < |ts| ==> ts[i].tx == us[i].tx
    ensures ts == us
    decreases |ts|
  {
    if ts != [] {
      OutcomesDetermined(ctx, p, ts[..|ts| - 1], us[..|us| - 1]);
      assert ts == ts[..|ts| - 1] + [ts[|ts| - 1]] && us == us[..|us| - 1] + [us[|us| - 1]];
    }
  }
}
