/**
 * The insight endpoints of the simplified and minimal backends: fixed
 * tables over a habit's stored streak and goal type.
 */
module DemoInsights {
  import opened Wrappers
  import opened Levels
  import opened HabitTable

  datatype StreakPrediction = StreakPrediction(prediction: Level, probability: int, recommendation: string)

  /** "high"/85 from a 7-day streak, "medium"/65 from 3 days, "low"/35 below. */
  function PredictFromStreak(streak: int): (p: StreakPrediction)
    ensures p.prediction == High <==> streak >= 7
    ensures p.prediction == Medium <==> 3 <= streak < 7
    ensures p.prediction == Low <==> streak < 3
    ensures p.prediction == High ==> p.probability == 85
    ensures p.prediction == Medium ==> p.probability == 65
    ensures p.prediction == Low ==> p.probability == 35
  {
    if streak >= 7 then
      StreakPrediction(High, 85, "Excellent! You've built a strong habit. Keep up the consistency!")
    else if streak >= 3 then
      StreakPrediction(Medium, 65, "Good progress! Focus on consistency to build momentum.")
    else
      StreakPrediction(Low, 35, "Early stage habit. Try to complete it daily for the next week.")
  }

  /** A longer streak never gives a lower tier or a lower probability. */
  lemma StreakPredictionMonotone(s1: int, s2: int)
    requires s1 <= s2
    ensures Rank(PredictFromStreak(s1).prediction) <= Rank(PredictFromStreak(s2).prediction)
    ensures PredictFromStreak(s1).probability <= PredictFromStreak(s2).probability
  {
  }

  datatype PredictionReply = PredictionReply(habitId: string, habitTitle: string,
                                             currentStreak: int, result: StreakPrediction)

  /** `predict_habit_success`: 404 for an unknown id, else the table entry for its streak. */
  function SuccessPrediction(habits: seq<Habit>, id: string): (r: Result<PredictionReply, ApiError>)
    ensures IndexOf(habits, id).None? ==> r == Failure(NotFound)
    ensures IndexOf(habits, id).Some? ==>
      var h := habits[IndexOf(habits, id).value];
      r.Success? && r.value.currentStreak == h.streak && r.value.habitTitle == h.title &&
      r.value.result == PredictFromStreak(h.streak)
  {
    match IndexOf(habits, id)
    case None => Failure(NotFound)
    case Some(i) =>
      Success(PredictionReply(id, habits[i].title, habits[i].streak, PredictFromStreak(habits[i].streak)))
  }

  /** The window every demo statistic assumes. */
  const DemoTotalDays: int := 30

  datatype DemoStats = DemoStats(currentStreak: int, longestStreak: int, completionRate: real,
                                 totalAttempts: int, successfulCompletions: int)

  /**
   * `get_completion_stats`: the longest streak is at least a week and never
   * below the current one; the rate is the streak over 30 days, capped at 100.
   */
  function StatsFromStreak(streak: int): (s: DemoStats)
    ensures s.currentStreak == streak && s.successfulCompletions == streak
    ensures s.totalAttempts == DemoTotalDays
    ensures s.longestStreak >= streak && s.longestStreak >= 7
    ensures s.longestStreak == streak || s.longestStreak == 7
    ensures s.completionRate <= 100.0
    ensures streak >= 0 ==> s.completionRate >= 0.0
    ensures s.completionRate == 100.0 <==> streak >= 30
  {
    var rate := (streak as real / DemoTotalDays as real) * 100.0;
    DemoStats(streak, if streak > 7 then streak else 7, if rate < 100.0 then rate else 100.0,
              DemoTotalDays, streak)
  }

  /** Below 30 days the reported rate is the streak as a share of 30 days. */
  lemma StatsRateBelowCap(streak: int)
    requires 0 <= streak < 30
    ensures StatsFromStreak(streak).completionRate * 30.0 == streak as real * 100.0
  {
  }

  function CompletionStats(habits: seq<Habit>, id: string): (r: Result<DemoStats, ApiError>)
    ensures IndexOf(habits, id).None? ==> r == Failure(NotFound)
    ensures IndexOf(habits, id).Some? ==>
      r == Success(StatsFromStreak(habits[IndexOf(habits, id).value].streak))
  {
    match IndexOf(habits, id)
    case None => Failure(NotFound)
    case Some(i) => Success(StatsFromStreak(habits[i].streak))
  }

  const CountTips := [
    "Break down your target into smaller, manageable chunks",
    "Set reminders at optimal times throughout the day",
    "Track your progress visually to stay motivated"]

  const DurationTips := [
    "Start with shorter sessions and gradually increase",
    "Find activities you genuinely enjoy",
    "Schedule it at the same time each day"]

  const CheckTips := [
    "Make it part of your daily routine",
    "Pair it with an existing habit",
    "Celebrate small wins to build momentum"]

  /** The tips for a goal type; anything but count or duration gets the check list. */
  function Recommendations(goalType: string): (tips: seq<string>)
    ensures |tips| == 3
    ensures goalType == "count" <==> tips == CountTips
    ensures goalType == "duration" <==> tips == DurationTips
    ensures goalType != "count" && goalType != "duration" <==> tips == CheckTips
  {
    TipListsDistinct();
    if goalType == "count" then CountTips
    else if goalType == "duration" then DurationTips
    else CheckTips
  }

  /** The three lists differ, already in the length of their first tip. */
  lemma TipListsDistinct()
    ensures CountTips != DurationTips && CountTips != CheckTips && DurationTips != CheckTips
  {
    assert |CountTips[0]| == 54 && |DurationTips[0]| == 50 && |CheckTips[0]| == 34;
  }

  function HabitRecommendations(habits: seq<Habit>, id: string): (r: Result<seq<string>, ApiError>)
    ensures IndexOf(habits, id).None? ==> r == Failure(NotFound)
    ensures IndexOf(habits, id).Some? ==>
      r == Success(Recommendations(habits[IndexOf(habits, id).value].goalType))
  {
    match IndexOf(habits, id)
    case None => Failure(NotFound)
    case Some(i) => Success(Recommendations(habits[i].goalType))
  }

  /** The default reminder hour the endpoint falls back to. */
  const DefaultReminderHour: int := 9

  /**
   * `habit.get("best_hour", 9)` as written: every stored record has a
   * best_hour key, so the default is never used and a stored None is
   * reported as the hour.
   */
  function OptimalReminderAsWritten(h: Habit): (hour: Option<int>)
    ensures hour == h.bestHour
  {
    h.bestHour
  }

  /** A freshly created habit is told to set a reminder at "None:00". */
  lemma NewHabitGetsNoReminderHour(id: string, req: HabitCreate, createdAt: string)
    ensures OptimalReminderAsWritten(NewHabit(id, req, createdAt)).None?
  {
  }

  /** The reminder hour as intended: the learned best hour, else 9. */
  function OptimalReminder(h: Habit): (hour: int)
    ensures h.bestHour.Some? ==> hour == h.bestHour.value
    ensures h.bestHour.None? ==> hour == DefaultReminderHour
  {
    h.bestHour.GetOr(DefaultReminderHour)
  }

  /** The intended hour agrees with the stored one whenever one is stored, and is 9 for new habits. */
  lemma OptimalReminderAgrees(h: Habit, id: string, req: HabitCreate, createdAt: string)
    ensures h.bestHour.Some? ==> OptimalReminderAsWritten(h) == Some(OptimalReminder(h))
    ensures OptimalReminder(NewHabit(id, req, createdAt)) == DefaultReminderHour
  {
  }

  function OptimalReminderTime(habits: seq<Habit>, id: string): (r: Result<int, ApiError>)
    ensures IndexOf(habits, id).None? ==> r == Failure(NotFound)
    ensures IndexOf(habits, id).Some? ==>
      r == Success(OptimalReminder(habits[IndexOf(habits, id).value]))
  {
    match IndexOf(habits, id)
    case None => Failure(NotFound)
    case Some(i) => Success(OptimalReminder(habits[i]))
  }
}
