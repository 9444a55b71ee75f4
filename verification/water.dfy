/** The hydration instruction (water_instruction in
    WaterTracker/scripts/health_server.py), lifted to a pure function: the
    current UTC time and the parsed last-drink time are inputs. Three rules
    are tried in priority order: behind schedule, long since the last drink,
    nothing drunk today. */
module Water {
  import opened Wrappers

  /** Hours of the day over which the daily goal is spread evenly. */
  const WakingHours: real := 16.0
  const DefaultGoalMl: int := 2500

  /** The request's `last_drink_time`: absent or empty, present but not
      parseable (or not comparable with "now"), or parsed to a number of
      minutes before now. */
  datatype LastDrink = NotGiven | Unparseable | MinutesAgo(minutes: real)

  datatype Priority = NoPriority | Normal | High

  /** Which message the instruction carries; the two deficit messages quote
      the truncated deficit in ml. */
  datatype Advice =
    | NoAdvice
    | FarBehind(deficitMl: int)
    | SlightlyBehind(deficitMl: int)
    | OverTwoHours
    | OverNinetyMinutes
    | NothingYetToday

  datatype Instruction = Instruction(
    advice: Advice,
    recommendedAmountMl: int,
    priority: Priority,
    deadlineMinutes: int,
    dailyTargetOverride: int)

  /** The query parameters the watch sends. */
  datatype Query = Query(currentIntakeMl: Option<int>, dailyGoalMl: Option<int>, lastDrink: LastDrink)

  function MinInt(a: int, b: int): int {
    if a <= b then a else b
  }

  /** Hours since UTC midnight, to the minute. */
  function HoursPassed(hour: int, minute: int): (h: real)
    requires 0 <= hour < 24 && 0 <= minute < 60
    ensures 0.0 <= h < 24.0
    ensures h * 60.0 == (60 * hour + minute) as real
  {
    hour as real + minute as real / 60.0
  }

  /** The intake expected by now if the goal is spread evenly over the waking
      hours; it grows with the hour and levels off at the goal. */
  function ExpectedIntake(goalMl: int, hoursPassed: real): (e: real)
    ensures goalMl >= 0 && hoursPassed >= 0.0 ==> 0.0 <= e <= goalMl as real
    ensures hoursPassed >= WakingHours ==> e == goalMl as real
    ensures hoursPassed <= WakingHours ==> e * WakingHours == goalMl as real * hoursPassed
  {
    var fraction := if hoursPassed / WakingHours <= 1.0 then hoursPassed / WakingHours else 1.0;
    FractionOfGoal(goalMl as real, fraction);
    goalMl as real * fraction
  }

  lemma FractionOfGoal(goal: real, fraction: real)
    ensures goal >= 0.0 && 0.0 <= fraction <= 1.0 ==> 0.0 <= goal * fraction <= goal
  {
    assert goal - goal * fraction == goal * (1.0 - fraction);
  }

  /** Python's int() of a float: truncation toward zero. */
  function TruncateTowardZero(x: real): (n: int)
    ensures x >= 0.0 ==> n as real <= x < n as real + 1.0
    ensures x < 0.0 ==> n as real - 1.0 < x <= n as real
  {
    if x >= 0.0 then x.Floor else -((-x).Floor)
  }

  /** How far behind schedule the drinker is, in whole ml (truncated toward zero). */
  function DeficitMl(currentMl: int, goalMl: int, hoursPassed: real): int {
    TruncateTowardZero(ExpectedIntake(goalMl, hoursPassed) - currentMl as real)
  }

  const NoInstruction: Instruction := Instruction(NoAdvice, 0, NoPriority, 0, 0)

  /** The three rules, first match wins. Stated below as a decision table. */
  function Decide(currentMl: int, goalMl: int, hoursPassed: real, lastDrink: LastDrink): (r: Instruction)
    ensures var d := DeficitMl(currentMl, goalMl, hoursPassed);
            && (r.advice.FarBehind? <==> d > 500)
            && (r.advice.SlightlyBehind? <==> 200 < d <= 500)
            && (r.advice.OverTwoHours? <==> d <= 200 && lastDrink.MinutesAgo? && lastDrink.minutes > 120.0)
            && (r.advice.OverNinetyMinutes? <==>
                  d <= 200 && lastDrink.MinutesAgo? && 90.0 < lastDrink.minutes <= 120.0)
            && (r.advice.NothingYetToday? <==>
                  d <= 200 && !(lastDrink.MinutesAgo? && lastDrink.minutes > 90.0)
                  && currentMl == 0 && hoursPassed > 1.0)
    ensures r.advice.FarBehind? ==>
              r.recommendedAmountMl == 500 && r.deadlineMinutes == 30
              && r.advice.deficitMl == DeficitMl(currentMl, goalMl, hoursPassed)
              && (r.priority == High <==> r.advice.deficitMl > 1000)
              && (r.priority == Normal <==> r.advice.deficitMl <= 1000)
    ensures r.advice.SlightlyBehind? ==>
              r.recommendedAmountMl == MinInt(r.advice.deficitMl, 300) && r.priority == Normal
              && r.deadlineMinutes == 45 && r.advice.deficitMl == DeficitMl(currentMl, goalMl, hoursPassed)
    ensures r.advice.OverTwoHours? || r.advice.NothingYetToday? ==>
              r.recommendedAmountMl == 250 && r.priority == High && r.deadlineMinutes == 15
    ensures r.advice.OverNinetyMinutes? ==>
              r.recommendedAmountMl == 200 && r.priority == Normal && r.deadlineMinutes == 30
    ensures r.advice.NoAdvice? <==> r == NoInstruction
    ensures 0 <= r.recommendedAmountMl <= 500
    ensures r.recommendedAmountMl > 0 <==> !r.advice.NoAdvice?
    ensures r.dailyTargetOverride == 0
  {
    var deficit := DeficitMl(currentMl, goalMl, hoursPassed);
    var byDeficit :=
      if deficit > 500 then
        Instruction(FarBehind(deficit), MinInt(deficit, 500), if deficit > 1000 then High else Normal, 30, 0)
      else if deficit > 200 then
        Instruction(SlightlyBehind(deficit), MinInt(deficit, 300), Normal, 45, 0)
      else NoInstruction;
    var byLastDrink :=
      if byDeficit.advice.NoAdvice? && lastDrink.MinutesAgo? then
        if lastDrink.minutes > 120.0 then Instruction(OverTwoHours, 250, High, 15, 0)
        else if lastDrink.minutes > 90.0 then Instruction(OverNinetyMinutes, 200, Normal, 30, 0)
        else byDeficit
      else byDeficit;
    if byLastDrink.advice.NoAdvice? && currentMl == 0 && hoursPassed > 1.0 then
      Instruction(NothingYetToday, 250, High, 15, 0)
    else byLastDrink
  }

  /** The endpoint's decision: absent parameters take their defaults (nothing
      drunk, a 2500 ml goal), and "now" is the given UTC hour and minute. */
  function WaterInstruction(q: Query, hour: int, minute: int): (r: Instruction)
    requires 0 <= hour < 24 && 0 <= minute < 60
    ensures q.currentIntakeMl.None? && q.dailyGoalMl.None? ==>
              r == Decide(0, DefaultGoalMl, HoursPassed(hour, minute), q.lastDrink)
    ensures q.currentIntakeMl.Some? && q.dailyGoalMl.Some? ==>
              r == Decide(q.currentIntakeMl.value, q.dailyGoalMl.value, HoursPassed(hour, minute), q.lastDrink)
    ensures q.currentIntakeMl.None? && q.dailyGoalMl.Some? ==>
              r == Decide(0, q.dailyGoalMl.value, HoursPassed(hour, minute), q.lastDrink)
    ensures q.currentIntakeMl.Some? && q.dailyGoalMl.None? ==>
              r == Decide(q.currentIntakeMl.value, DefaultGoalMl, HoursPassed(hour, minute), q.lastDrink)
  {
    var current := match q.currentIntakeMl case Some(c) => c case None => 0;
    var goal := match q.dailyGoalMl case Some(g) => g case None => DefaultGoalMl;
    Decide(current, goal, HoursPassed(hour, minute), q.lastDrink)
  }

  /** Each parameter defaults on its own: leaving out the intake decides as
      an intake of 0 ml, and leaving out the goal as a goal of 2500 ml,
      whatever the other parameter is. */
  lemma AbsentParametersTakeDefaults(q: Query, hour: int, minute: int)
    requires 0 <= hour < 24 && 0 <= minute < 60
    ensures q.currentIntakeMl.None? ==>
              WaterInstruction(q, hour, minute) == WaterInstruction(q.(currentIntakeMl := Some(0)), hour, minute)
    ensures q.dailyGoalMl.None? ==>
              WaterInstruction(q, hour, minute) == WaterInstruction(q.(dailyGoalMl := Some(DefaultGoalMl)), hour, minute)
  {
  }

  /** A last-drink time that cannot be parsed is treated as if none were sent. */
  lemma UnparseableLastDrinkIgnored(currentMl: int, goalMl: int, hoursPassed: real)
    ensures Decide(currentMl, goalMl, hoursPassed, Unparseable) == Decide(currentMl, goalMl, hoursPassed, NotGiven)
  {
  }

  /** Once a deficit rule fires, the last-drink input no longer matters. */
  lemma DeficitOutranksLastDrink(currentMl: int, goalMl: int, hoursPassed: real, a: LastDrink, b: LastDrink)
    requires DeficitMl(currentMl, goalMl, hoursPassed) > 200
    ensures Decide(currentMl, goalMl, hoursPassed, a) == Decide(currentMl, goalMl, hoursPassed, b)
  {
  }

  /** Up to 01:00 UTC the default goal expects at most 156.25 ml, so the
      deficit rules cannot fire; neither can the "nothing today" rule, which
      waits for the first hour to pass. Only a last-drink rule can speak. */
  lemma EarlyMorningOnlyLastDrinkRules(currentMl: int, hoursPassed: real, lastDrink: LastDrink)
    requires currentMl >= 0
    requires 0.0 <= hoursPassed <= 1.0
    ensures var r := Decide(currentMl, DefaultGoalMl, hoursPassed, lastDrink);
            r.advice.NoAdvice? || r.advice.OverTwoHours? || r.advice.OverNinetyMinutes?
  {
    var e := ExpectedIntake(DefaultGoalMl, hoursPassed);
    assert e * WakingHours == 2500.0 * hoursPassed;
    assert e <= 156.25;
  }
}
