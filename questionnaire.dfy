/**
 * The diet-then-skin questionnaire wizard: 11 diet questions followed by 11
 * skin questions, one per step, with Next gated on the current answer.
 */
module Questionnaire {

  datatype Section = Diet | Skin

  datatype Kind = Radio | Checkbox

  /** A question as the wizard uses it: the form field it fills and how it is answered. */
  datatype Question = Question(id: string, kind: Kind)

  const DietQuestions: seq<Question> := [
    Question("healthGoal", Radio),
    Question("activityLevel", Radio),
    Question("currentDiet", Radio),
    Question("dietaryRestrictions", Radio),
    Question("mealsPerDay", Radio),
    Question("snackPreferences", Radio),
    Question("eatingOutFrequency", Radio),
    Question("waterIntake", Radio),
    Question("mealSuggestions", Radio),
    Question("energyLevel", Radio),
    Question("followLikelihood", Radio)
  ]

  const SkinQuestions: seq<Question> := [
    Question("skinType", Radio),
    Question("skinConcerns", Checkbox),
    Question("routineFrequency", Radio),
    Question("currentProducts", Checkbox),
    Question("sunscreen", Radio),
    Question("timeWilling", Radio),
    Question("recentIssues", Radio),
    Question("stressLevel", Radio),
    Question("environmentExposure", Radio),
    Question("routinePreference", Radio),
    Question("followLikelihood", Radio)
  ]

  const TotalDietSteps: nat := |DietQuestions|
  const TotalSkinSteps: nat := |SkinQuestions|
  const TotalSteps: nat := TotalDietSteps + TotalSkinSteps

  lemma StepCounts()
    ensures TotalDietSteps == 11 && TotalSkinSteps == 11 && TotalSteps == 22
  {
  }

  /** Where the wizard is: a section and a 1-based step in it. */
  datatype Position = Position(section: Section, step: int)

  function StepsIn(section: Section): nat
  {
    if section == Diet then TotalDietSteps else TotalSkinSteps
  }

  predicate ValidPosition(p: Position)
  {
    1 <= p.step <= StepsIn(p.section)
  }

  /** The global step shown as "Step n of 22": diet steps first, then skin steps. */
  function Ordinal(p: Position): int
  {
    if p.section == Diet then p.step else TotalDietSteps + p.step
  }

  lemma OrdinalRange(p: Position)
    requires ValidPosition(p)
    ensures 1 <= Ordinal(p) <= TotalSteps
  {
  }

  /** Two valid positions with the same global step are the same position. */
  lemma OrdinalInjective(p: Position, q: Position)
    requires ValidPosition(p) && ValidPosition(q) && Ordinal(p) == Ordinal(q)
    ensures p == q
  {
  }

  /**
   * Where an answered handleNext moves, short of completing the last
   * question: one global step forward, from diet step 11 to skin step 1.
   */
  function Advance(p: Position): (r: Position)
    ensures ValidPosition(p) && Ordinal(p) < TotalSteps ==> ValidPosition(r) && Ordinal(r) == Ordinal(p) + 1
  {
    if p.section == Diet && p.step < TotalDietSteps then Position(Diet, p.step + 1)
    else if p.section == Diet && p.step == TotalDietSteps then Position(Skin, 1)
    else Position(Skin, p.step + 1)
  }

  /**
   * Where handlePrevious moves from any position but the first: one global
   * step back, from skin step 1 to diet step 11.
   */
  function Retreat(p: Position): (r: Position)
    ensures ValidPosition(p) && Ordinal(p) > 1 ==> ValidPosition(r) && Ordinal(r) == Ordinal(p) - 1
  {
    if p.step > 1 then Position(p.section, p.step - 1)
    else Position(Diet, TotalDietSteps)
  }

  /** Previous undoes a non-completing Next, and Next undoes Previous. */
  lemma AdvanceRetreatRoundTrip(p: Position)
    requires ValidPosition(p)
    ensures Ordinal(p) < TotalSteps ==> Retreat(Advance(p)) == p
    ensures Ordinal(p) > 1 ==> Advance(Retreat(p)) == p
  {
    if Ordinal(p) < TotalSteps {
      OrdinalInjective(Retreat(Advance(p)), p);
    }
    if Ordinal(p) > 1 {
      OrdinalInjective(Advance(Retreat(p)), p);
    }
  }

  /** The progress effect: the global step as a percentage of all 22 steps. */
  function Progress(p: Position): real
  {
    Ordinal(p) as real / TotalSteps as real * 100.0
  }

  /** Progress lies in (0, 100], grows with the global step, and is 100 only at the last skin question. */
  lemma ProgressBounds(p: Position, q: Position)
    requires ValidPosition(p) && ValidPosition(q)
    ensures 0.0 < Progress(p) <= 100.0
    ensures Progress(p) == 100.0 <==> p == Position(Skin, TotalSkinSteps)
    ensures Ordinal(p) < Ordinal(q) ==> Progress(p) < Progress(q)
  {
    StepCounts();
    OrdinalRange(p);
    OrdinalRange(q);
    if Progress(p) == 100.0 {
      assert Ordinal(p) as real == TotalSteps as real;
      OrdinalInjective(p, Position(Skin, TotalSkinSteps));
    }
  }

  /** A skin answer: a radio choice or the list of ticked boxes. */
  datatype Answer = Text(value: string) | Choices(items: seq<string>)

  /** JavaScript truthiness of a stored answer: "" is falsy, any array is truthy. */
  predicate Truthy(a: Answer)
  {
    a.Text? ==> a.value != ""
  }

  /** The diet answer gate: a missing key or "" is not an answer. */
  predicate DietAnswered(form: map<string, string>, q: Question)
  {
    q.kind == Radio ==> q.id in form && form[q.id] != ""
  }

  /** The skin answer gate: a radio needs a truthy value, a checkbox a non-empty list. */
  predicate SkinAnswered(form: map<string, Answer>, q: Question)
  {
    && (q.kind == Radio ==> q.id in form && Truthy(form[q.id]))
    && (q.kind == Checkbox ==> !(q.id in form && form[q.id].Choices? && |form[q.id].items| == 0))
  }

  /** The question shown at a position. */
  function QuestionAt(p: Position): (q: Question)
    requires ValidPosition(p)
    ensures q == (DietQuestions + SkinQuestions)[Ordinal(p) - 1]
  {
    if p.section == Diet then DietQuestions[p.step - 1] else SkinQuestions[p.step - 1]
  }

  const InitialDietForm: map<string, string> := map[
    "healthGoal" := "", "activityLevel" := "", "currentDiet" := "", "dietaryRestrictions" := "",
    "mealsPerDay" := "", "snackPreferences" := "", "eatingOutFrequency" := "", "waterIntake" := "",
    "mealSuggestions" := "", "energyLevel" := "", "followLikelihood" := ""
  ]

  const InitialSkinForm: map<string, Answer> := map[
    "skinType" := Text(""), "skinConcerns" := Choices([]), "routineFrequency" := Text(""),
    "currentProducts" := Choices([]), "sunscreen" := Text(""), "timeWilling" := Text(""),
    "recentIssues" := Text(""), "stressLevel" := Text(""), "environmentExposure" := Text(""),
    "routinePreference" := Text(""), "followLikelihood" := Text("")
  ]

  /** `items.filter(item => item !== value)`. */
  function Without(items: seq<string>, value: string): (r: seq<string>)
    ensures forall x :: x in r <==> x in items && x != value
    ensures |r| <= |items|
  {
    if items == [] then []
    else if items[0] == value then Without(items[1..], value)
    else [items[0]] + Without(items[1..], value)
  }

  /** Unticking a box that was ticked once, just now, gives back the list from before. */
  lemma {:induction false} TickUntick(items: seq<string>, value: string)
    requires value !in items
    ensures Without(items + [value], value) == items
  {
    if items == [] {
      assert [] + [value] == [value];
    } else {
      assert (items + [value])[1..] == items[1..] + [value];
      TickUntick(items[1..], value);
    }
  }

  /** Removing a value that is not in the list leaves the list unchanged. */
  lemma {:induction false} WithoutKeepsOthers(items: seq<string>, value: string)
    requires value !in items
    ensures Without(items, value) == items
  {
    if items != [] {
      WithoutKeepsOthers(items[1..], value);
    }
  }

  /** The wizard page. The fields are its React state. */
  class QuestionnairePage {
    var currentStep: int
    var section: Section
    var progress: real
    var isComplete: bool
    var showConfetti: bool
    var dietForm: map<string, string>
    var skinForm: map<string, Answer>

    /** The (section, step) pair. */
    function At(): Position
      reads this
    {
      Position(section, currentStep)
    }

    /** The step never leaves 1..11 in either section. */
    predicate Valid()
      reads this
    {
      ValidPosition(At())
    }

    /** The question on screen has been answered. */
    predicate CurrentAnswered()
      reads this
      requires Valid()
    {
      if section == Diet then DietAnswered(dietForm, QuestionAt(At()))
      else SkinAnswered(skinForm, QuestionAt(At()))
    }

    constructor ()
      ensures Valid()
      ensures section == Diet && currentStep == 1 && progress == 4.5
      ensures !isComplete && !showConfetti
      ensures dietForm == InitialDietForm && skinForm == InitialSkinForm
    {
      currentStep := 1;
      section := Diet;
      progress := 4.5;
      isComplete := false;
      showConfetti := false;
      dietForm := InitialDietForm;
      skinForm := InitialSkinForm;
    }

    /** The effect on [currentStep, section]: progress follows the global step. */
    method UpdateProgress()
      requires Valid()
      modifies this
      ensures progress == Progress(At())
      ensures Valid() && currentStep == old(currentStep) && section == old(section)
      ensures isComplete == old(isComplete) && showConfetti == old(showConfetti)
      ensures dietForm == old(dietForm) && skinForm == old(skinForm)
    {
      if section == Diet {
        progress := currentStep as real / TotalSteps as real * 100.0;
      } else {
        progress := (TotalDietSteps + currentStep) as real / TotalSteps as real * 100.0;
      }
    }

    /**
     * handleNext: nothing happens while the current question is unanswered;
     * otherwise the wizard advances one step, or, at the last skin question,
     * starts the completion celebration.
     */
    method HandleNext()
      requires Valid()
      modifies this
      ensures Valid()
      ensures !old(CurrentAnswered()) ==>
        currentStep == old(currentStep) && section == old(section) && showConfetti == old(showConfetti)
      ensures old(CurrentAnswered()) && Ordinal(old(At())) < TotalSteps ==>
        At() == Advance(old(At())) && showConfetti == old(showConfetti)
      ensures old(CurrentAnswered()) && Ordinal(old(At())) == TotalSteps ==>
        At() == old(At()) && showConfetti
      ensures progress == old(progress) && isComplete == old(isComplete)
      ensures dietForm == old(dietForm) && skinForm == old(skinForm)
    {
      if section == Diet {
        var currentQuestion := DietQuestions[currentStep - 1];
        if currentQuestion.kind == Radio && !(currentQuestion.id in dietForm && dietForm[currentQuestion.id] != "") {
          return;
        }
      } else {
        var currentQuestion := SkinQuestions[currentStep - 1];
        var id := currentQuestion.id;
        if (currentQuestion.kind == Radio && !(id in skinForm && Truthy(skinForm[id])))
           || (currentQuestion.kind == Checkbox && id in skinForm && skinForm[id].Choices? && |skinForm[id].items| == 0)
        {
          return;
        }
      }

      if section == Diet && currentStep < TotalDietSteps {
        currentStep := currentStep + 1;
      } else if section == Diet && currentStep == TotalDietSteps {
        section := Skin;
        currentStep := 1;
      } else if section == Skin && currentStep < TotalSkinSteps {
        currentStep := currentStep + 1;
      } else {
        showConfetti := true;
      }
    }

    /** The delayed step of a completed handleNext: a second later the wizard is complete. */
    method CompleteAfterDelay()
      requires showConfetti
      modifies this
      ensures isComplete && showConfetti
      ensures currentStep == old(currentStep) && section == old(section) && progress == old(progress)
      ensures dietForm == old(dietForm) && skinForm == old(skinForm)
    {
      isComplete := true;
    }

    /** handlePrevious: back one global step; nothing at the first diet question. */
    method HandlePrevious()
      requires Valid()
      modifies this
      ensures Valid()
      ensures Ordinal(old(At())) == 1 ==> At() == old(At())
      ensures Ordinal(old(At())) > 1 ==> At() == Retreat(old(At()))
      ensures progress == old(progress) && isComplete == old(isComplete) && showConfetti == old(showConfetti)
      ensures dietForm == old(dietForm) && skinForm == old(skinForm)
    {
      if section == Diet && currentStep > 1 {
        currentStep := currentStep - 1;
      } else if section == Diet && currentStep == 1 {
        return;
      } else if section == Skin && currentStep > 1 {
        currentStep := currentStep - 1;
      } else if section == Skin && currentStep == 1 {
        section := Diet;
        currentStep := TotalDietSteps;
      }
    }

    /** handleDietChange: the named field takes the value; nothing else changes. */
    method HandleDietChange(field: string, value: string)
      modifies this
      ensures dietForm == old(dietForm)[field := value]
      ensures skinForm == old(skinForm) && currentStep == old(currentStep) && section == old(section)
      ensures progress == old(progress) && isComplete == old(isComplete) && showConfetti == old(showConfetti)
    {
      dietForm := dietForm[field := value];
    }

    /** handleSkinChange: the named field takes the radio value; nothing else changes. */
    method HandleSkinChange(field: string, value: string)
      modifies this
      ensures skinForm == old(skinForm)[field := Text(value)]
      ensures dietForm == old(dietForm) && currentStep == old(currentStep) && section == old(section)
      ensures progress == old(progress) && isComplete == old(isComplete) && showConfetti == old(showConfetti)
    {
      skinForm := skinForm[field := Text(value)];
    }

    /**
     * handleSkinCheckboxChange on a checkbox field: ticking appends the value,
     * unticking removes every copy of it; no other field changes.
     */
    method HandleSkinCheckboxChange(field: string, value: string, checked: bool)
      requires field in skinForm && skinForm[field].Choices?
      modifies this
      ensures checked ==> skinForm == old(skinForm)[field := Choices(old(skinForm)[field].items + [value])]
      ensures !checked ==> skinForm == old(skinForm)[field := Choices(Without(old(skinForm)[field].items, value))]
      ensures field in skinForm && skinForm[field].Choices?
      ensures checked <==> value in skinForm[field].items
      ensures forall x :: x != value ==> (x in skinForm[field].items <==> x in old(skinForm)[field].items)
      ensures forall f :: f in old(skinForm) && f != field ==> f in skinForm && skinForm[f] == old(skinForm)[f]
      ensures dietForm == old(dietForm) && currentStep == old(currentStep) && section == old(section)
      ensures progress == old(progress) && isComplete == old(isComplete) && showConfetti == old(showConfetti)
    {
      var items := skinForm[field].items;
      if checked {
        skinForm := skinForm[field := Choices(items + [value])];
      } else {
        skinForm := skinForm[field := Choices(Without(items, value))];
      }
    }
  }
}
