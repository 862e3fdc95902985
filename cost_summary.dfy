/** client/src/components/CostSummary.tsx: the guarded per-serving cost,
    the 20-step count-up animation of the two displayed figures and the
    servings input's fallback. */
module CostSummary {
  import opened Wrappers

  const Steps := 20

  /** `servings > 0 ? totalCost / servings : 0`. */
  function CostPerServing(totalCost: real, servings: real): (r: real)
    ensures servings > 0.0 ==> r * servings == totalCost
    ensures servings <= 0.0 ==> r == 0.0
  {
    if servings > 0.0 then totalCost / servings else 0.0
  }

  /** The value shown after tick `k` (0-based) of an animation from `start`
      to `target`: one twentieth of the gap per tick, the target itself on
      the last tick. */
  function Frame(start: real, target: real, k: nat): real
  {
    if k + 1 >= Steps then target else start + (k + 1) as real * ((target - start) / Steps as real)
  }

  /** The interval loop: `currentStep++`, then either the target (and the
      interval stops) or the previous value plus the step. */
  method Animate(start: real, target: real) returns (frames: seq<real>)
    ensures |frames| == Steps
    ensures forall k :: 0 <= k < Steps ==> frames[k] == Frame(start, target, k)
    ensures frames[Steps - 1] == target
  {
    var step := (target - start) / Steps as real;
    var shown := start;
    var currentStep := 0;
    frames := [];
    while true
      invariant 0 <= currentStep < Steps && |frames| == currentStep
      invariant shown == start + currentStep as real * step
      invariant forall k :: 0 <= k < currentStep ==> frames[k] == Frame(start, target, k)
      decreases Steps - currentStep
    {
      currentStep := currentStep + 1;
      if currentStep >= Steps {
        shown := target;
        frames := frames + [shown];
        return;
      }
      shown := shown + step;
      frames := frames + [shown];
    }
  }

  /** Counting up never overshoots: from `start` to a larger `target`
      every frame lies between the two and no frame is below an earlier
      one (and symmetrically when counting down). */
  lemma FramesMonotone(start: real, target: real, i: nat, j: nat)
    requires i <= j < Steps
    ensures start <= target ==> start <= Frame(start, target, i) <= Frame(start, target, j) <= target
    ensures target <= start ==> start >= Frame(start, target, i) >= Frame(start, target, j) >= target
  {
    var d := (target - start) / Steps as real;
    var a := (i + 1) as real;
    var b := if j + 1 < Steps then (j + 1) as real else Steps as real;
    assert a <= b;
    StepScale(start, target, d, a, b, Frame(start, target, i), Frame(start, target, j));
  }

  /** One step of the count-up is 1/20 of the gap, so taking a ticks of it,
      then b >= a, then all 20 moves steadily from start to target. */
  lemma StepScale(start: real, target: real, d: real, a: real, b: real, fa: real, fb: real)
    requires d == (target - start) / Steps as real
    requires 0.0 < a <= b <= Steps as real
    requires fa == start + a * d && fb == start + b * d
    ensures start <= target ==> start <= fa <= fb <= target
    ensures target <= start ==> start >= fa >= fb >= target
  {
    assert b * d - a * d == (b - a) * d;
    assert Steps as real * d - b * d == (Steps as real - b) * d;
    assert Steps as real * d == target - start;
  }

  /** The figures a summary displays. */
  class Display {
    var animatedTotal: real
    var animatedPerServing: real

    /** Both figures start at their targets, so nothing animates on mount. */
    constructor (totalCost: real, servings: real)
      ensures animatedTotal == totalCost
      ensures animatedPerServing == CostPerServing(totalCost, servings)
    {
      animatedTotal := totalCost;
      animatedPerServing := CostPerServing(totalCost, servings);
    }

    /** The total changed: count up from what is shown to the new total. */
    method OnTotalChange(totalCost: real) returns (frames: seq<real>)
      modifies this
      ensures frames == seq(Steps, k requires 0 <= k < Steps => Frame(old(animatedTotal), totalCost, k))
      ensures animatedTotal == totalCost
      ensures animatedPerServing == old(animatedPerServing)
    {
      frames := Animate(animatedTotal, totalCost);
      animatedTotal := totalCost;
    }

    /** The per-serving cost changed: the same animation on that figure. */
    method OnPerServingChange(totalCost: real, servings: real) returns (frames: seq<real>)
      modifies this
      ensures frames == seq(Steps, k requires 0 <= k < Steps =>
                            Frame(old(animatedPerServing), CostPerServing(totalCost, servings), k))
      ensures animatedPerServing == CostPerServing(totalCost, servings)
      ensures animatedTotal == old(animatedTotal)
    {
      frames := Animate(animatedPerServing, CostPerServing(totalCost, servings));
      animatedPerServing := CostPerServing(totalCost, servings);
    }
  }

  /** `parseInt(value) || 1`: an unparsable entry (None) or zero gives 1,
      any other integer, negative ones included, passes through. */
  function ServingsFromInput(parsed: Option<int>): (s: int)
    ensures s != 0
    ensures parsed.Some? && parsed.value != 0 ==> s == parsed.value
    ensures parsed.None? || parsed.value == 0 ==> s == 1
  {
    if parsed.Some? && parsed.value != 0 then parsed.value else 1
  }
}
