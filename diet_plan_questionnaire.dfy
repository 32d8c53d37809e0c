/**
 * The three-question diet-plan dialog. `nextStep` and `prevStep` move the
 * step without any check of their own; the footer offers Previous only
 * after the first step and Submit instead of Next on the last, and that
 * gating is what keeps the step in 1..3.
 */
module DietPlanQuestionnaire {
  import opened Wrappers

  const FirstStep := 1
  const LastStep := 3

  datatype Control = Previous | Next | Submit

  /** The footer buttons at a step, left to right. */
  function Controls(step: int): (r: seq<Control>)
    ensures Previous in r <==> step > 1
    ensures Next in r <==> step < LastStep
    ensures Submit in r <==> step >= LastStep
    ensures |r| == if step > 1 then 2 else 1
  {
    (if step > 1 then [Previous] else []) + (if step < LastStep then [Next] else [Submit])
  }

  /** The step after a click: Previous and Next move by one and Submit stays. */
  function StepAfter(step: int, c: Control): int
  {
    match c
    case Previous => step - 1
    case Next => step + 1
    case Submit => step
  }

  /** Clicking only the offered buttons keeps the step in range, one step per move. */
  lemma OfferedClickInRange(step: int, c: Control)
    requires FirstStep <= step <= LastStep && c in Controls(step)
    ensures FirstStep <= StepAfter(step, c) <= LastStep
    ensures c != Submit ==> StepAfter(step, c) - step == 1 || step - StepAfter(step, c) == 1
    ensures c == Submit <==> step == LastStep && StepAfter(step, c) == step
  {
  }

  /** Any run of offered clicks from the first step stays in 1..3. */
  function Run(step: int, clicks: seq<Control>): int
    decreases |clicks|
  {
    if clicks == [] then step else Run(StepAfter(step, clicks[0]), clicks[1..])
  }

  /** Every click of the run is offered at the step it is made on. */
  predicate Offered(step: int, clicks: seq<Control>)
    decreases |clicks|
  {
    clicks == [] || (clicks[0] in Controls(step) && Offered(StepAfter(step, clicks[0]), clicks[1..]))
  }

  lemma {:induction false} RunInRange(step: int, clicks: seq<Control>)
    requires FirstStep <= step <= LastStep && Offered(step, clicks)
    ensures FirstStep <= Run(step, clicks) <= LastStep
    decreases |clicks|
  {
    if clicks != [] {
      OfferedClickInRange(step, clicks[0]);
      RunInRange(StepAfter(step, clicks[0]), clicks[1..]);
    }
  }

  /** The question shown at a step; none outside 1..3. */
  function Question(step: int): (q: Option<string>)
    ensures q.Some? <==> FirstStep <= step <= LastStep
  {
    if step == 1 then Some("Question 1: What are your dietary restrictions?")
    else if step == 2 then Some("Question 2: What are your favorite foods?")
    else if step == 3 then Some("Question 3: What are your fitness goals?")
    else None
  }

  predicate IsPremium(plan: Option<string>)
  {
    plan == Some("premium")
  }

  /** The dialog title names the premium plan exactly when the plan is "premium". */
  function PlanName(plan: Option<string>): (name: string)
    ensures IsPremium(plan) <==> name == "Premium Diet Plan"
    ensures !IsPremium(plan) <==> name == "Basic Diet Plan"
  {
    if IsPremium(plan) then "Premium Diet Plan" else "Basic Diet Plan"
  }

  function Title(plan: Option<string>): string
  {
    PlanName(plan) + " Questionnaire"
  }

  class DietPlanQuestionnaire {
    var step: int
    const plan: Option<string>

    predicate Valid()
      reads this
    {
      FirstStep <= step <= LastStep
    }

    constructor (plan: Option<string>)
      ensures Valid() && step == FirstStep && this.plan == plan
    {
      step := FirstStep;
      this.plan := plan;
    }

    method NextStep()
      modifies this
      ensures step == old(step) + 1
    {
      step := step + 1;
    }

    method PrevStep()
      modifies this
      ensures step == old(step) - 1
    {
      step := step - 1;
    }

    /**
     * A click on one of the offered buttons; Submit schedules the dialog's
     * close (`closing`) and leaves the step as it is.
     */
    method Click(c: Control) returns (closing: bool)
      requires Valid() && c in Controls(step)
      modifies this
      ensures Valid()
      ensures step == StepAfter(old(step), c)
      ensures closing <==> c == Submit
    {
      OfferedClickInRange(step, c);
      closing := false;
      match c {
        case Previous => PrevStep();
        case Next => NextStep();
        case Submit => closing := true;
      }
    }
  }
}
