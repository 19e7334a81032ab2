/** Base fee and gas limit of the next block, as the Specification section of EIP-1559 sets
    them out. */
module FeeMarket {
  import opened Chain

  const ELASTICITY: nat := 2
  const BASE_FEE_DENOMINATOR: nat := 8
  const GAS_LIMIT_DIVISOR: nat := 1024
  const MIN_GAS_LIMIT: nat := 5000

  // ---- base fee ----

  /** An eighth of the share of the base fee given by `gas` over `target`, rounded down twice. */
  function Change(gas: nat, target: nat, baseFee: nat): nat
    requires target > 0
  {
    gas * baseFee / target / BASE_FEE_DENOMINATOR
  }

  /** With no gas target a parent that used gas makes the source divide by zero. */
  function CalcBaseFee(gasLimit: nat, gasUsed: nat, baseFee: nat): nat
    requires gasLimit >= 2 || gasUsed == 0
  {
    var target := gasLimit / ELASTICITY;
    if gasUsed == target then baseFee
    else if gasUsed > target then Max(Change(gasUsed - target, target, baseFee), 1) + baseFee
    else Max(baseFee - Change(target - gasUsed, target, baseFee), 0)
  }

  lemma QuotientMonotone(a: nat, b: nat, d: nat)
    requires a <= b && d > 0
    ensures a / d <= b / d
  {
    if b / d < a / d {
      assert b < d * (b / d) + d;
      assert d * (b / d) + d == d * (b / d + 1);
      ProductMonotone(b / d + 1, a / d, d);
      assert false;
    }
  }

  lemma ExactQuotient(a: nat, d: nat)
    requires d > 0
    ensures a * d / d == a
  {
    var q := a * d / d;
    assert a * d == d * q + a * d % d;
    if q < a {
      ProductMonotone(q + 1, a, d);
      assert false;
    } else if q > a {
      ProductMonotone(a + 1, q, d);
      assert false;
    }
  }

  lemma ChangeMonotone(a: nat, b: nat, target: nat, baseFee: nat)
    requires a <= b && target > 0
    ensures Change(a, target, baseFee) <= Change(b, target, baseFee)
  {
    ProductMonotone(a, b, baseFee);
    QuotientMonotone(a * baseFee, b * baseFee, target);
    QuotientMonotone(a * baseFee / target, b * baseFee / target, BASE_FEE_DENOMINATOR);
  }

  /** Up to a whole target of difference, the change is at most an eighth. */
  lemma ChangeAtMostEighth(gas: nat, target: nat, baseFee: nat)
    requires gas <= target && target > 0
    ensures Change(gas, target, baseFee) <= baseFee / BASE_FEE_DENOMINATOR
  {
    ProductMonotone(gas, target, baseFee);
    QuotientMonotone(gas * baseFee, target * baseFee, target);
    assert target * baseFee == baseFee * target;
    ExactQuotient(baseFee, target);
    QuotientMonotone(gas * baseFee / target, baseFee, BASE_FEE_DENOMINATOR);
  }

  /** The base fee falls by at most an eighth, and rises by at most the greater of one and an
      eighth while the parent used no more than twice its target. */
  lemma BaseFeeBounds(gasLimit: nat, gasUsed: nat, baseFee: nat)
    requires gasLimit >= 2
    ensures CalcBaseFee(gasLimit, gasUsed, baseFee) >= baseFee - baseFee / 8
    ensures gasUsed <= 2 * (gasLimit / 2) ==> CalcBaseFee(gasLimit, gasUsed, baseFee) <= baseFee + Max(1, baseFee / 8)
  {
    var target := gasLimit / ELASTICITY;
    if gasUsed < target {
      ChangeAtMostEighth(target - gasUsed, target, baseFee);
    } else if target < gasUsed <= 2 * target {
      ChangeAtMostEighth(gasUsed - target, target, baseFee);
    }
  }

  /** The fixed points of the rule: an empty parent lowers the fee by exactly an eighth, one at
      its target keeps it, one at twice its target raises it by exactly an eighth, at least one. */
  lemma BaseFeeAtExtremes(gasLimit: nat, baseFee: nat)
    requires gasLimit >= 2
    ensures CalcBaseFee(gasLimit, 0, baseFee) == baseFee - baseFee / 8
    ensures CalcBaseFee(gasLimit, gasLimit / 2, baseFee) == baseFee
    ensures CalcBaseFee(gasLimit, 2 * (gasLimit / 2), baseFee) == baseFee + Max(1, baseFee / 8)
  {
    var target := gasLimit / ELASTICITY;
    assert target * baseFee == baseFee * target;
    ExactQuotient(baseFee, target);
    assert Change(target, target, baseFee) == baseFee / BASE_FEE_DENOMINATOR;
  }

  lemma QuotientBounds(a: nat, d: nat)
    requires d > 0
    ensures a / d * d <= a < (a / d + 1) * d
  {
    assert a == d * (a / d) + a % d;
  }

  /** Rounding down twice is rounding down once by the product. */
  lemma ChangeInNumbers(gas: nat, target: nat, baseFee: nat)
    requires target > 0
    ensures var change := Change(gas, target, baseFee);
            8 * target * change <= gas * baseFee < 8 * target * (change + 1)
  {
    var product := gas * baseFee;
    var share, change := product / target, Change(gas, target, baseFee);
    QuotientBounds(product, target);
    QuotientBounds(share, 8);
    ProductMonotone(change * 8, share, target);
    ProductMonotone(share + 1, (change + 1) * 8, target);
    assert change * 8 * target == 8 * target * change;
    assert (change + 1) * 8 * target == 8 * target * (change + 1);
  }

  /** Under its target the parent lowers the fee by the base fee times the missing share of the
      target, divided by eight and rounded down. */
  lemma FallInNumbers(gasLimit: nat, gasUsed: nat, baseFee: nat)
    requires gasLimit >= 2 && gasUsed < gasLimit / 2
    ensures var target, next := gasLimit / 2, CalcBaseFee(gasLimit, gasUsed, baseFee);
            && next <= baseFee
            && 8 * target * (baseFee - next) <= (target - gasUsed) * baseFee < 8 * target * (baseFee - next + 1)
  {
    var target := gasLimit / 2;
    ChangeAtMostEighth(target - gasUsed, target, baseFee);
    ChangeInNumbers(target - gasUsed, target, baseFee);
    hide Change;
  }

  /** Above its target it raises the fee by one, or if that is more, by the base fee times the
      surplus share of the target, divided by eight and rounded down. */
  lemma RiseInNumbers(gasLimit: nat, gasUsed: nat, baseFee: nat)
    requires gasLimit >= 2 && gasUsed > gasLimit / 2
    ensures var target, next := gasLimit / 2, CalcBaseFee(gasLimit, gasUsed, baseFee);
            && next >= baseFee + 1
            && (gasUsed - target) * baseFee < 8 * target * (next - baseFee + 1)
            && (next == baseFee + 1 || 8 * target * (next - baseFee) <= (gasUsed - target) * baseFee)
  {
    var target := gasLimit / 2;
    var change, next := Change(gasUsed - target, target, baseFee), CalcBaseFee(gasLimit, gasUsed, baseFee);
    ChangeInNumbers(gasUsed - target, target, baseFee);
    hide Change;
    ProductMonotone(change + 1, next - baseFee + 1, 8 * target);
    assert (change + 1) * (8 * target) == 8 * target * (change + 1);
    assert (next - baseFee + 1) * (8 * target) == 8 * target * (next - baseFee + 1);
  }

  /** More gas used never lowers the next base fee, across all three branches. */
  lemma BaseFeeMonotone(gasLimit: nat, used: nat, used': nat, baseFee: nat)
    requires gasLimit >= 2 && used <= used'
    ensures CalcBaseFee(gasLimit, used, baseFee) <= CalcBaseFee(gasLimit, used', baseFee)
  {
    var target := gasLimit / ELASTICITY;
    if used' < target {
      ChangeMonotone(target - used', target - used, target, baseFee);
    } else if used > target {
      ChangeMonotone(used - target, used' - target, target, baseFee);
    }
  }

  datatype Parent = Parent(gasLimit: nat, gasUsed: nat)

  /** The base fee after a chain of blocks. */
  function ChainBaseFee(baseFee: nat, chain: seq<Parent>): nat
    requires forall i :: 0 <= i < |chain| ==> chain[i].gasLimit >= 2
    decreases |chain|
  {
    if chain == [] then baseFee else
      var before := ChainBaseFee(baseFee, chain[..|chain| - 1]);
      var last := chain[|chain| - 1];
      CalcBaseFee(last.gasLimit, last.gasUsed, before)
  }

  /** Along every chain a base fee of at least seven stays at least seven. */
  lemma {:induction false} SevenIsAFloor(baseFee: nat, chain: seq<Parent>)
    requires baseFee >= 7 && forall i :: 0 <= i < |chain| ==> chain[i].gasLimit >= 2
    ensures ChainBaseFee(baseFee, chain) >= 7
    decreases |chain|
  {
    if chain != [] {
      var init, last := chain[..|chain| - 1], chain[|chain| - 1];
      SevenIsAFloor(baseFee, init);
      BaseFeeBounds(last.gasLimit, last.gasUsed, ChainBaseFee(baseFee, init));
    }
  }

  /** Below eight a fee cannot fall, and any use above target raises it. */
  lemma SmallFeesOnlyRise(gasLimit: nat, gasUsed: nat, baseFee: nat)
    requires gasLimit >= 2 && baseFee < 8
    ensures CalcBaseFee(gasLimit, gasUsed, baseFee) >= baseFee
    ensures gasUsed > gasLimit / 2 ==> CalcBaseFee(gasLimit, gasUsed, baseFee) > baseFee
  {
    BaseFeeBounds(gasLimit, gasUsed, baseFee);
  }

  // ---- gas limit ----

  function Target(desired: nat): nat { Max(desired, MIN_GAS_LIMIT) }

  /** The target is the limit asked for, but never less than 5000. */
  lemma TargetInNumbers(desired: nat)
    ensures Target(desired) >= desired && Target(desired) >= 5000
    ensures Target(desired) == desired || (Target(desired) == 5000 && desired < 5000)
  {
  }

  /** How far one step may move; below 1024 the subtraction wraps around. */
  function Delta(parent: nat): nat { Sub64(parent / GAS_LIMIT_DIVISOR, 1) }

  function CalcGasLimit(parent: nat, desired: nat): nat {
    var target := Target(desired);
    if parent < target then
      var limit := Add64(parent, Delta(parent));
      if limit > target then target else limit
    else if parent > target then
      var limit := Sub64(parent, Delta(parent));
      if limit < target then target else limit
    else parent
  }

  /** What one step owes: less than a 1024th of the parent, towards the target, never past it. */
  ghost predicate ProperStep(parent: nat, desired: nat) {
    var next, target := CalcGasLimit(parent, desired), Target(desired);
    && next < parent + parent / GAS_LIMIT_DIVISOR && parent - parent / GAS_LIMIT_DIVISOR < next
    && (parent <= target ==> parent <= next <= target)
    && (parent >= target ==> target <= next <= parent)
  }

  /** Adding a step wraps around. */
  predicate StepWraps(parent: nat) { parent + parent / GAS_LIMIT_DIVISOR > TWO_64 }

  /** A step is proper exactly when there is room for one and raising the limit does not wrap
      around. */
  lemma GasLimitStep(parent: nat, desired: nat)
    requires parent < TWO_64 && desired < TWO_64
    ensures ProperStep(parent, desired) <==>
            parent >= GAS_LIMIT_DIVISOR && !(parent < Target(desired) && StepWraps(parent))
    ensures ProperStep(parent, desired) && parent >= 2 * GAS_LIMIT_DIVISOR && parent != Target(desired) ==>
            CalcGasLimit(parent, desired) != parent
  {
    if parent >= GAS_LIMIT_DIVISOR {
      assert Delta(parent) == parent / GAS_LIMIT_DIVISOR - 1;
      if parent < Target(desired) {
        if StepWraps(parent) {
          assert Add64(parent, Delta(parent)) == parent + Delta(parent) - TWO_64;
        } else {
          assert Add64(parent, Delta(parent)) == parent + Delta(parent);
        }
      } else if parent > Target(desired) {
        assert Sub64(parent, Delta(parent)) == parent - Delta(parent);
      }
    }
  }

  /** Away from the target a proper step is as large as the bound allows. */
  lemma GasLimitStepIsFull(parent: nat, desired: nat)
    requires parent < TWO_64 && desired < TWO_64 && ProperStep(parent, desired)
    ensures var next := CalcGasLimit(parent, desired);
            next == Target(desired) || next == parent + (parent / 1024 - 1) || next == parent - (parent / 1024 - 1)
  {
    GasLimitStep(parent, desired);
    assert Delta(parent) == parent / GAS_LIMIT_DIVISOR - 1;
    assert parent < Target(desired) ==> Add64(parent, Delta(parent)) == parent + Delta(parent);
    assert parent > Target(desired) ==> Sub64(parent, Delta(parent)) == parent - Delta(parent);
  }

  /** The limit after `n` blocks that all ask for `desired`. */
  function After(parent: nat, desired: nat, n: nat): nat {
    if n == 0 then parent else CalcGasLimit(After(parent, desired, n - 1), desired)
  }

  lemma {:induction false} AfterShift(parent: nat, desired: nat, n: nat)
    ensures After(CalcGasLimit(parent, desired), desired, n) == After(parent, desired, n + 1)
  {
    if n > 0 {
      AfterShift(parent, desired, n - 1);
    }
  }

  lemma {:induction false} TargetIsStable(parent: nat, desired: nat, m: nat, n: nat)
    requires m <= n && After(parent, desired, m) == Target(desired)
    ensures After(parent, desired, n) == Target(desired)
    decreases n
  {
    if m < n {
      TargetIsStable(parent, desired, m, n - 1);
    }
  }

  /** Whether repeated steps ever reach the target. */
  ghost predicate Reaches(parent: nat, desired: nat) {
    exists n: nat :: After(parent, desired, n) == Target(desired)
  }

  function Distance(parent: nat, desired: nat): nat {
    if parent <= Target(desired) then Target(desired) - parent else parent - Target(desired)
  }

  lemma ReachesFromNext(parent: nat, desired: nat)
    requires Reaches(CalcGasLimit(parent, desired), desired)
    ensures Reaches(parent, desired)
  {
    var n: nat :| After(CalcGasLimit(parent, desired), desired, n) == Target(desired);
    AfterShift(parent, desired, n);
  }

  /** No step on the way from `parent` to the target wraps around. */
  predicate ClearWay(parent: nat, desired: nat) { parent >= Target(desired) || !StepWraps(Target(desired) - 1) }

  lemma ClearStep(parent: nat, desired: nat)
    requires ClearWay(parent, desired) && parent < Target(desired)
    ensures !StepWraps(parent)
  {
    QuotientMonotone(parent, Target(desired) - 1, GAS_LIMIT_DIVISOR);
  }

  /** From 2048 on every step moves, so on a clear way the target is reached. */
  lemma {:induction false} LargeLimitsReach(parent: nat, desired: nat)
    requires parent >= 2 * GAS_LIMIT_DIVISOR && parent < TWO_64 && desired < TWO_64 && ClearWay(parent, desired)
    ensures Reaches(parent, desired)
    decreases Distance(parent, desired)
  {
    if parent == Target(desired) {
      assert After(parent, desired, 0) == Target(desired);
    } else {
      if parent < Target(desired) {
        ClearStep(parent, desired);
      }
      GasLimitStep(parent, desired);
      LargeLimitsReach(CalcGasLimit(parent, desired), desired);
      ReachesFromNext(parent, desired);
    }
  }

  /** Without a clear way a limit can wrap around into the band that never moves. */
  lemma WrapsIntoStuckBand()
    ensures var parent, desired := 18428747250223007212, TWO_64 - 1;
            parent >= 2 * GAS_LIMIT_DIVISOR && !ClearWay(parent, desired) && !Reaches(parent, desired)
  {
    var parent, desired := 18428747250223007212, TWO_64 - 1;
    assert CalcGasLimit(parent, desired) == 1500;
    forall n: nat
      ensures After(parent, desired, n) != Target(desired)
    {
      if n > 0 {
        AfterShift(parent, desired, n - 1);
        MiddleLimitsStick(1500, desired, n - 1);
      }
    }
  }

  /** Between 1024 and 2047 the step is zero: the limit never moves. */
  lemma {:induction false} MiddleLimitsStick(parent: nat, desired: nat, n: nat)
    requires GAS_LIMIT_DIVISOR <= parent < 2 * GAS_LIMIT_DIVISOR
    ensures After(parent, desired, n) == parent
  {
    if n > 0 {
      MiddleLimitsStick(parent, desired, n - 1);
      assert Delta(parent) == 0;
      assert Add64(parent, 0) == parent;
    }
  }

  /** Below 1024 the wrapped step counts down to zero and then jumps to the target. */
  lemma {:induction false} SmallLimitsWrapAround(parent: nat, desired: nat)
    requires parent < GAS_LIMIT_DIVISOR && Target(desired) < TWO_64
    ensures After(parent, desired, parent + 1) == Target(desired)
    decreases parent
  {
    assert Delta(parent) == TWO_64 - 1;
    if parent == 0 {
      assert After(0, desired, 0) == 0;
      assert CalcGasLimit(0, desired) == Target(desired);
      assert After(0, desired, 1) == CalcGasLimit(After(0, desired, 0), desired);
    } else {
      assert Add64(parent, TWO_64 - 1) == parent - 1;
      assert CalcGasLimit(parent, desired) == parent - 1;
      SmallLimitsWrapAround(parent - 1, desired);
      AfterShift(parent, desired, parent);
    }
  }

  /** Short of the target, a limit converges exactly when the next one does. */
  lemma ReachesIffNext(parent: nat, desired: nat)
    requires parent != Target(desired)
    ensures Reaches(parent, desired) <==> Reaches(CalcGasLimit(parent, desired), desired)
  {
    if Reaches(parent, desired) {
      var n: nat :| After(parent, desired, n) == Target(desired);
      AfterShift(parent, desired, n - 1);
    }
    if Reaches(CalcGasLimit(parent, desired), desired) {
      ReachesFromNext(parent, desired);
    }
  }

  /** What becomes of a limit whose raise wraps around to `w`: below 1024 it still converges, up
      to 2047 it is stuck, and from 2048 on it starts over from `w`. */
  lemma WrapDecides(parent: nat, desired: nat)
    requires parent < Target(desired) && desired < TWO_64 && StepWraps(parent)
    ensures var w := parent + parent / GAS_LIMIT_DIVISOR - 1 - TWO_64;
            && 0 <= w == CalcGasLimit(parent, desired) < parent
            && (Reaches(parent, desired) <==>
                  w < GAS_LIMIT_DIVISOR || (w >= 2 * GAS_LIMIT_DIVISOR && Reaches(w, desired)))
  {
    var w := parent + parent / GAS_LIMIT_DIVISOR - 1 - TWO_64;
    assert Delta(parent) == parent / GAS_LIMIT_DIVISOR - 1;
    assert Add64(parent, Delta(parent)) == w;
    ReachesIffNext(parent, desired);
    if w < GAS_LIMIT_DIVISOR {
      SmallLimitsWrapAround(w, desired);
    } else if w < 2 * GAS_LIMIT_DIVISOR {
      forall n: nat
        ensures After(w, desired, n) != Target(desired)
      {
        MiddleLimitsStick(w, desired, n);
      }
    }
  }

  /** Exactly which parents converge: all but those between 1024 and 2047, where only the
      target itself (which is at least 5000) would do. */
  lemma ConvergesIff(parent: nat, desired: nat)
    requires parent < TWO_64 && desired < TWO_64 && (parent >= 2 * GAS_LIMIT_DIVISOR ==> ClearWay(parent, desired))
    ensures Reaches(parent, desired) <==> !(GAS_LIMIT_DIVISOR <= parent < 2 * GAS_LIMIT_DIVISOR)
  {
    if parent >= 2 * GAS_LIMIT_DIVISOR {
      LargeLimitsReach(parent, desired);
    } else if parent < GAS_LIMIT_DIVISOR {
      SmallLimitsWrapAround(parent, desired);
    } else {
      forall n: nat
        ensures After(parent, desired, n) != Target(desired)
      {
        MiddleLimitsStick(parent, desired, n);
      }
    }
  }
}
