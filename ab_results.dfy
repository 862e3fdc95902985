/** client/src/pages/ABTestResults.tsx: the lift shown beside each
    treatment metric and the rule that colours it. */
module ABTestResults {

  /** `calculateLift`: the relative change of treatment over control in
      per cent, and 0 when control is 0. */
  function CalculateLift(treatment: real, control: real): (lift: real)
    ensures control == 0.0 ==> lift == 0.0
    ensures control != 0.0 ==> lift * control == (treatment - control) * 100.0
  {
    if control == 0.0 then 0.0 else ((treatment - control) / control) * 100.0
  }

  /** Equal figures give no lift; against a positive control the lift is
      positive exactly when treatment is higher and negative exactly when
      it is lower. */
  lemma LiftSign(treatment: real, control: real)
    ensures treatment == control ==> CalculateLift(treatment, control) == 0.0
    ensures control > 0.0 ==> (CalculateLift(treatment, control) > 0.0 <==> treatment > control)
    ensures control > 0.0 ==> (CalculateLift(treatment, control) < 0.0 <==> treatment < control)
  {
    var lift := CalculateLift(treatment, control);
    if control > 0.0 {
      LiftTimesControl(lift, control, treatment - control);
    }
  }

  /** From lift * c == d * 100 with c > 0, lift and d share their sign. */
  lemma LiftTimesControl(lift: real, c: real, d: real)
    requires c > 0.0 && lift * c == d * 100.0
    ensures lift > 0.0 <==> d > 0.0
    ensures lift < 0.0 <==> d < 0.0
  {
    if lift > 0.0 { assert lift * c > 0.0; }
    if lift < 0.0 { assert lift * c < 0.0; }
    if lift == 0.0 { assert lift * c == 0.0; }
  }

  /** Doubling a positive control figure is a lift of 100 per cent;
      halving it is a lift of -50 per cent. */
  lemma LiftExamples()
    ensures CalculateLift(0.6, 0.3) == 100.0
    ensures CalculateLift(10.0, 20.0) == -50.0
    ensures CalculateLift(5.0, 0.0) == 0.0
  {
  }

  datatype Metric = FirstIngredientRate | AvgTimeToFirstIngredient | RecipeSaveRate | AvgIngredientsPerSession

  datatype Colour = Green | Red

  /** Rates and counts are good when they go up; the time to the first
      ingredient is good when it goes down. */
  function LiftColour(m: Metric, lift: real): (c: Colour)
    ensures m != AvgTimeToFirstIngredient ==> (c == Green <==> lift > 0.0)
    ensures m == AvgTimeToFirstIngredient ==> (c == Green <==> lift < 0.0)
  {
    if m == AvgTimeToFirstIngredient then (if lift < 0.0 then Green else Red)
    else (if lift > 0.0 then Green else Red)
  }

  /** The sign shown before every lift: '+' for a positive one. */
  function LiftPrefix(lift: real): (p: string)
    ensures p == "+" <==> lift > 0.0
    ensures p != "+" ==> p == ""
  {
    if lift > 0.0 then "+" else ""
  }

  /** What the colour says about the raw figures, for a positive control:
      green means treatment is higher for the rate metrics and lower for
      the time metric; no change is red; and on the time metric a '+' is
      always red. */
  lemma ColourMeaning(m: Metric, treatment: real, control: real)
    requires control > 0.0
    ensures var c := LiftColour(m, CalculateLift(treatment, control));
            (m != AvgTimeToFirstIngredient ==> (c == Green <==> treatment > control))
            && (m == AvgTimeToFirstIngredient ==> (c == Green <==> treatment < control))
            && (treatment == control ==> c == Red)
            && (m == AvgTimeToFirstIngredient && LiftPrefix(CalculateLift(treatment, control)) == "+" ==> c == Red)
  {
    LiftSign(treatment, control);
  }
}
