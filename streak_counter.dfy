/**
 * The sleep-streak card: a streak of days against a goal, a celebration when
 * the goal is reached, and the progress and remaining-days displays.
 *
 * The streak read back from storage goes through Number.parseInt, so it can
 * be NaN; a streak is therefore an `Option<int>` whose `None` is NaN. NaN
 * stays NaN under `+ 1` and every comparison with it is false.
 */
module StreakCounter {
  import opened Wrappers
  import opened Browser
  import opened JsString

  const InitialStreak := 6
  const InitialGoal := 7

  /** `Math.min(streak, goal)`, the numerator of "streak/goal". */
  function ProgressNumerator(streak: Option<int>, goal: int): (r: Option<int>)
    ensures r.Some? <==> streak.Some?
    ensures r.Some? ==> r.value <= goal
    ensures r.Some? ==> (r.value == goal <==> streak.value >= goal)
    ensures r.Some? && streak.value < goal ==> r.value == streak.value
  {
    match streak
    case None => None
    case Some(s) => Some(if s < goal then s else goal)
  }

  /**
   * `Math.min((streak / goal) * 100, 100)`, the width of the progress bar in
   * percent, over exact rationals.
   */
  function BarWidth(streak: Option<int>, goal: int): (r: Option<real>)
    requires goal > 0
    ensures r.Some? <==> streak.Some?
    ensures r.Some? ==> r.value <= 100.0
    ensures r.Some? ==> (r.value == 100.0 <==> streak.value >= goal)
    ensures r.Some? && streak.value < goal ==> r.value * goal as real == streak.value as real * 100.0
  {
    match streak
    case None => None
    case Some(s) =>
      var w := (s as real / goal as real) * 100.0;
      Some(if w < 100.0 then w else 100.0)
  }

  /**
   * The hint under the bar: "N more days to reach your goal!" while the
   * streak is below the goal (`Some(N)`), "Set a new goal" otherwise (`None`).
   */
  function RemainingDays(streak: Option<int>, goal: int): (r: Option<int>)
    ensures r.Some? <==> streak.Some? && streak.value < goal
    ensures r.Some? ==> r.value > 0 && streak.value + r.value == goal
  {
    if streak.Some? && streak.value < goal then Some(goal - streak.value) else None
  }

  /** Each further day brings the goal one day closer, until it is reached. */
  lemma RemainingCountsDown(s: int, goal: int)
    requires s + 1 < goal
    ensures RemainingDays(Some(s + 1), goal) == Some(RemainingDays(Some(s), goal).value - 1)
  {
  }

  /**
   * For a numeric streak the full bar, the goal/goal counter and the "Set a
   * new goal" hint come together. A NaN streak also gets that hint, but
   * with a NaN counter and a `NaN%` width.
   */
  lemma FullBarIffGoalShown(streak: Option<int>, goal: int)
    requires goal > 0
    ensures streak.Some? ==>
      (BarWidth(streak, goal) == Some(100.0) <==> ProgressNumerator(streak, goal) == Some(goal))
      && (BarWidth(streak, goal) == Some(100.0) <==> RemainingDays(streak, goal).None?)
    ensures streak.None? ==>
      RemainingDays(streak, goal).None? && BarWidth(streak, goal).None? && ProgressNumerator(streak, goal).None?
  {
  }

  /**
   * What the trackers store, `n.toString()` of an integer streak, is a
   * non-empty text that the mount effect parses back to the same streak.
   */
  lemma StoredStreakReadsBack(n: int)
    ensures TruthyText(Some(IntToString(n))) && ParseInt(Some(IntToString(n))) == Some(n)
  {
    ParseIntToString(n);
  }

  /** A streak that reaches the goal: compared as JavaScript does, NaN never does. */
  predicate GoalReached(streak: Option<int>, goal: int)
  {
    streak.Some? && streak.value >= goal
  }

  class StreakCounter {
    var streak: Option<int>
    var goal: int
    var showCelebration: bool

    /** The goal is never changed and the bar divides by it. */
    predicate Valid()
      reads this
    {
      goal > 0
    }

    constructor ()
      ensures Valid()
      ensures streak == Some(InitialStreak) && goal == InitialGoal && !showCelebration
    {
      streak := Some(InitialStreak);
      goal := InitialGoal;
      showCelebration := false;
    }

    /** The mount effect: a stored streak that is a non-empty string replaces the initial one. */
    method LoadStoredStreak(stored: Option<string>)
      modifies this
      ensures TruthyText(stored) ==> streak == ParseInt(stored)
      ensures !TruthyText(stored) ==> streak == old(streak)
      ensures goal == old(goal) && showCelebration == old(showCelebration)
    {
      if TruthyText(stored) {
        streak := ParseInt(stored);
      }
    }

    /**
     * The goal effect: the celebration starts (confetti and a 5-second timer,
     * reported as `celebrate`) exactly when the goal is reached and no
     * celebration is showing.
     */
    method CheckGoal() returns (celebrate: bool)
      modifies this
      ensures celebrate <==> GoalReached(streak, goal) && !old(showCelebration)
      ensures showCelebration == (old(showCelebration) || celebrate)
      ensures streak == old(streak) && goal == old(goal)
    {
      celebrate := false;
      if streak.Some? && streak.value >= goal && !showCelebration {
        showCelebration := true;
        celebrate := true;
      }
    }

    /** The celebration timer firing. */
    method EndCelebration()
      modifies this
      ensures !showCelebration
      ensures streak == old(streak) && goal == old(goal)
    {
      showCelebration := false;
    }

    /** incrementStreak: one more day (NaN stays NaN). */
    method IncrementStreak()
      modifies this
      ensures old(streak).Some? ==> streak == Some(old(streak).value + 1)
      ensures old(streak).None? ==> streak.None?
      ensures goal == old(goal) && showCelebration == old(showCelebration)
    {
      if streak.Some? {
        streak := Some(streak.value + 1);
      }
    }
  }

  /**
   * From one day short of the goal, one increment makes the goal effect
   * celebrate; and once the timer ends the celebration, the effect starts it
   * again for as long as the goal stays reached.
   */
  method IncrementReachesGoal(c: StreakCounter) returns (first: bool, again: bool)
    requires c.streak == Some(c.goal - 1) && !c.showCelebration
    modifies c
    ensures first && again
  {
    c.IncrementStreak();
    first := c.CheckGoal();
    c.EndCelebration();
    again := c.CheckGoal();
  }
}
