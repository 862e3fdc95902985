/** client/src/components/OnboardingTutorial.tsx: the seven-step tour, its
    navigation and its progress bar. Titles and descriptions are
    translated text and are not modelled. */
module Onboarding {
  import opened Wrappers

  datatype Position = Top | Bottom | Left | Right | Center

  /** A step: its id, the selector of the element it highlights, where the
      card goes. */
  datatype Step = Step(id: string, targetElement: Option<string>, position: Position)

  const Steps: seq<Step> := [
    Step("welcome", None, Center),
    Step("add_ingredient", Some("[data-onboarding=\"add-ingredient-button\"]"), Bottom),
    Step("fill_fields", Some(".ingredient-card"), Right),
    Step("unit_conversion", Some(".unit-selector"), Top),
    Step("cost_calculation", Some(".cost-summary"), Left),
    Step("save_share", Some("[data-onboarding=\"save-button\"]"), Bottom),
    Step("complete", None, Center)
  ]

  const LastStep := |Steps| - 1

  /** `((currentStep + 1) / steps.length) * 100`. */
  function Progress(currentStep: nat): (p: real)
    requires currentStep < |Steps|
    ensures p * |Steps| as real == (currentStep + 1) as real * 100.0
  {
    ((currentStep + 1) as real / |Steps| as real) * 100.0
  }

  /** The bar is never empty, grows with every step, and is full exactly
      on the last step. */
  lemma ProgressBounds(i: nat, j: nat)
    requires i < j < |Steps|
    ensures 0.0 < Progress(i) < Progress(j) <= 100.0
    ensures Progress(j) == 100.0 <==> j == LastStep
    ensures Progress(i) < 100.0
  {
    assert Progress(i) * 7.0 == (i + 1) as real * 100.0;
    assert Progress(j) * 7.0 == (j + 1) as real * 100.0;
  }

  /** `handleNext` on a step: the next index, or None for "completed". */
  function Next(currentStep: nat): (r: Option<nat>)
    requires currentStep < |Steps|
    ensures r.None? <==> currentStep == LastStep
    ensures r.Some? ==> r.value == currentStep + 1 && r.value < |Steps|
  {
    if currentStep < |Steps| - 1 then Some(currentStep + 1) else None
  }

  /** `handlePrevious`: one step back, staying on the first step. */
  function Previous(currentStep: nat): (r: nat)
    requires currentStep < |Steps|
    ensures r < |Steps|
    ensures currentStep > 0 ==> r + 1 == currentStep
    ensures currentStep == 0 ==> r == 0
  {
    if currentStep > 0 then currentStep - 1 else 0
  }

  /** Previous undoes Next on every step but the last, and Next undoes
      Previous on every step but the first. */
  lemma NextPreviousInverse(k: nat)
    requires k < |Steps|
    ensures k < LastStep ==> Previous(Next(k).value) == k
    ensures 0 < k ==> Next(Previous(k)) == Some(k)
  {
  }

  /** Only the welcome and closing steps highlight nothing. */
  lemma TargetedSteps(k: nat)
    requires k < |Steps|
    ensures Steps[k].targetElement.None? <==> k == 0 || k == LastStep
    ensures Steps[k].position == Center <==> k == 0 || k == LastStep
  {
  }

  /** What a handler reports to the page. */
  datatype Signal = NoSignal | Completed | Skipped

  class Tutorial {
    var currentStep: nat

    ghost predicate Valid()
      reads this
    {
      currentStep < |Steps|
    }

    constructor ()
      ensures Valid() && currentStep == 0
    {
      currentStep := 0;
    }

    /** Advances, or on the last step calls `onComplete` and stays. */
    method HandleNext() returns (signal: Signal)
      requires Valid()
      modifies this
      ensures Valid()
      ensures Next(old(currentStep)).Some? ==> currentStep == Next(old(currentStep)).value && signal == NoSignal
      ensures Next(old(currentStep)).None? ==> currentStep == old(currentStep) && signal == Completed
    {
      if currentStep < |Steps| - 1 {
        currentStep := currentStep + 1;
        signal := NoSignal;
      } else {
        signal := Completed;
      }
    }

    method HandlePrevious()
      requires Valid()
      modifies this
      ensures Valid() && currentStep == Previous(old(currentStep))
    {
      if currentStep > 0 {
        currentStep := currentStep - 1;
      }
    }

    /** Calls `onSkip`; the step does not change. */
    method HandleSkip() returns (signal: Signal)
      ensures signal == Skipped
    {
      signal := Skipped;
    }

    function ProgressNow(): (p: real)
      requires Valid()
      reads this
      ensures 0.0 < p <= 100.0
      ensures p == 100.0 <==> currentStep == LastStep
    {
      if currentStep < LastStep then
        ProgressBounds(currentStep, LastStep);
        Progress(currentStep)
      else
        ProgressBounds(0, currentStep);
        Progress(currentStep)
    }
  }
}
