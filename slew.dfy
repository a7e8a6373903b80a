/** The slew-limited move shared by the turntable, reflector and cooling-fan controllers:
    step the current value toward the target by at most one step, snapping to the target when
    it is within one step. */
module Slew {
  function Abs(x: real): real { if x < 0.0 then -x else x }
  function Min(a: real, b: real): real { if a <= b then a else b }
  function Max(a: real, b: real): real { if a >= b then a else b }

  /** One update of a slew-limited value. */
  function Step(current: real, target: real, step: real): (r: real)
    requires step > 0.0
    ensures Min(current, target) <= r <= Max(current, target)
    ensures Abs(target - current) <= step ==> r == target
    ensures Abs(target - current) > step ==> Abs(target - r) == Abs(target - current) - step
  {
    if current != target then
      if Abs(target - current) <= step then target
      else if target > current then current + step
      else current - step
    else current
  }

  /** `x` forced into `[lo, hi]`: `max(lo, min(hi, x))`. */
  function Clamp(x: real, lo: real, hi: real): (r: real)
    requires lo <= hi
    ensures lo <= r <= hi
    ensures lo <= x <= hi ==> r == x
    ensures x < lo ==> r == lo
    ensures x > hi ==> r == hi
  {
    Max(lo, Min(hi, x))
  }

  /** The value after `k` unclamped updates toward a fixed target. */
  function Iterate(current: real, target: real, step: real, k: nat): real
    requires step > 0.0
    decreases k
  {
    if k == 0 then current else Iterate(Step(current, target, step), target, step, k - 1)
  }

  /** The value after `k` updates that each clamp to `[lo, hi]` after the move. */
  function IterateClamped(current: real, target: real, step: real, lo: real, hi: real, k: nat): real
    requires step > 0.0 && lo <= hi
    decreases k
  {
    if k == 0 then current
    else IterateClamped(Clamp(Step(current, target, step), lo, hi), target, step, lo, hi, k - 1)
  }

  /** The distance `k` full steps cover, built up one step at a time. */
  function Reach(k: nat, step: real): real
    decreases k
  {
    if k == 0 then 0.0 else Reach(k - 1, step) + step
  }

  lemma {:induction false} ReachIsProduct(k: nat, step: real)
    ensures Reach(k, step) == (k as real) * step
    decreases k
  {
    if k > 0 {
      ReachIsProduct(k - 1, step);
      assert ((k - 1) as real) * step + step == (k as real) * step;
    }
  }

  lemma {:induction false} IterateReaches(current: real, target: real, step: real, k: nat)
    requires step > 0.0
    ensures Iterate(current, target, step, k) == target <==> Reach(k, step) >= Abs(target - current)
    decreases k
  {
    if k > 0 {
      var next := Step(current, target, step);
      IterateReaches(next, target, step, k - 1);
      NonNegativeReach(k - 1, step);
    }
  }

  lemma {:induction false} NonNegativeReach(k: nat, step: real)
    requires step > 0.0
    ensures Reach(k, step) >= 0.0
    decreases k
  {
    if k > 0 {
      NonNegativeReach(k - 1, step);
    }
  }

  /** Repeated updates reach the target exactly after ceil(|target - current| / step) of them
      and not before; once reached, the target is kept. */
  lemma IterateReachesTarget(current: real, target: real, step: real, k: nat)
    requires step > 0.0
    ensures Iterate(current, target, step, k) == target <==> (k as real) * step >= Abs(target - current)
  {
    IterateReaches(current, target, step, k);
    ReachIsProduct(k, step);
  }

  /** Clamping toward an in-range target never increases the distance to it. */
  lemma ClampTowardTarget(x: real, target: real, lo: real, hi: real)
    requires lo <= target <= hi
    ensures Abs(target - Clamp(x, lo, hi)) <= Abs(target - x)
  {
  }

  /** With the clamp after the move, an in-range target is still reached within
      ceil(|target - current| / step) updates, whatever the starting value. */
  lemma IterateClampedReachesTarget(current: real, target: real, step: real, lo: real, hi: real, k: nat)
    requires step > 0.0 && lo <= target <= hi
    requires (k as real) * step >= Abs(target - current)
    ensures IterateClamped(current, target, step, lo, hi, k) == target
  {
    ReachIsProduct(k, step);
    IterateClampedReaches(current, target, step, lo, hi, k);
  }

  lemma {:induction false} IterateClampedReaches(current: real, target: real, step: real, lo: real, hi: real, k: nat)
    requires step > 0.0 && lo <= target <= hi
    requires Reach(k, step) >= Abs(target - current)
    ensures IterateClamped(current, target, step, lo, hi, k) == target
    decreases k
  {
    if k > 0 {
      var next := Clamp(Step(current, target, step), lo, hi);
      ClampTowardTarget(Step(current, target, step), target, lo, hi);
      NonNegativeReach(k - 1, step);
      IterateClampedReaches(next, target, step, lo, hi, k - 1);
    }
  }
}
