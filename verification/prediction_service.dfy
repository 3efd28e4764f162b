/**
 * Success prediction for one habit: current streak, consistency, the
 * linear scorer with its tiers, the recommendation table and the trend
 * rule.  Completions are UTC instants of the last 30 days, already loaded;
 * "today" is a parameter.
 */
module PredictionService {
  import opened Wrappers
  import opened Calendar
  import opened Statistics
  import opened DayRuns
  import opened DailyTally
  import opened Levels
  import SchedulerService

  /** The analysis window, in days. */
  const WindowDays: nat := 30

  /** `[c.completed_at.date() for c in completions]`. */
  function Dates(stamps: seq<int>): (ds: seq<int>)
    ensures |ds| == |stamps| && forall i :: 0 <= i < |stamps| ==> ds[i] == DateOf(stamps[i])
  {
    seq(|stamps|, i requires 0 <= i < |stamps| => DateOf(stamps[i]))
  }

  /**
   * `calculate_current_streak`: 0 for no completions, otherwise the walk
   * over the distinct dates newest first.
   */
  method CalculateCurrentStreak(dates: seq<int>, today: int) returns (streak: nat)
    ensures streak == CurrentStreakOf(SortedUnique(dates), today)
  {
    if dates == [] {
      return 0;
    }
    var u := SortedUnique(dates);
    assert dates[0] in u;
    streak := WalkNewestFirst(u, today);
  }

  /**
   * The loop of `calculate_current_streak` over a non-empty list of dates
   * `u` read newest first: 0 unless the newest is today or yesterday,
   * otherwise one plus every directly preceding day, stopping at the first gap.
   */
  method WalkNewestFirst(u: seq<int>, today: int) returns (streak: nat)
    requires u != []
    ensures streak == CurrentStreakOf(u, today)
  {
    var n := |u|;
    var newestFirst := seq(n, k requires 0 <= k < n => u[n - 1 - k]);
    streak := 0;
    var mostRecent := newestFirst[0];
    if today - mostRecent <= 1 {
      streak := 1;
      var i := 1;
      while i < n
        invariant 1 <= i <= n
        invariant streak == i
        invariant RunEndingAt(u, n - 1) == streak - 1 + RunEndingAt(u, n - i)
      {
        assert newestFirst[i - 1] == u[n - i] && newestFirst[i] == u[n - i - 1];
        if newestFirst[i - 1] - newestFirst[i] == 1 {
          streak := streak + 1;
        } else {
          assert RunEndingAt(u, n - i) == 1;
          break;
        }
        i := i + 1;
      }
      assert streak == RunEndingAt(u, n - 1);
    }
  }

  /**
   * `calculate_consistency`: 0 for no completions, 1 for a single active
   * date, otherwise the regularity score of the completions per date.
   */
  function Consistency(dates: seq<int>): (c: real)
    ensures 0.0 <= c <= 1.0
    ensures dates == [] ==> c == 0.0
    ensures |SortedUnique(dates)| == 1 ==> c == 1.0
  {
    if dates == [] then 0.0
    else
      var daily := Reals(DailyCounts(dates));
      if |daily| < 2 then (if |daily| == 1 then 1.0 else 0.0)
      else RegularityScore(daily)
  }

  /** Consistency depends on the completions, not on the order they arrive in. */
  lemma ConsistencyIgnoresOrder(d1: seq<int>, d2: seq<int>)
    requires multiset(d1) == multiset(d2)
    ensures Consistency(d1) == Consistency(d2)
  {
    SameCompletionsSameDailyCounts(d1, d2);
    assert d1 == [] <==> d2 == [] by {
      assert |multiset(d1)| == |d1| && |multiset(d2)| == |d2|;
    }
  }

  /** The same number of completions on each of two or more dates gives consistency 1. */
  lemma UniformDaysFullyConsistent(dates: seq<int>, perDay: nat)
    requires |SortedUnique(dates)| >= 2
    requires forall d :: d in dates ==> multiset(dates)[d] == perDay
    ensures Consistency(dates) == 1.0
  {
    var u := SortedUnique(dates);
    var daily := Reals(DailyCounts(dates));
    assert dates != [] by {
      assert u[0] in u;
    }
    forall i | 0 <= i < |daily| ensures daily[i] == perDay as real {
      assert u[i] in u;
    }
    UniformDaysScoreOne(daily, perDay as real);
  }

  /**
   * The two services disagree on a single active date: prediction reports
   * full consistency, the statistics report none (pandas' NaN variance).
   */
  lemma SingleDateConsistencies(dates: seq<int>)
    requires |SortedUnique(dates)| == 1
    ensures Consistency(dates) == 1.0
    ensures SchedulerService.StatsConsistency(dates) == 0.0
  {
  }

  /** `min(20, streak * 2)`: two points per streak day, at most twenty. */
  function StreakBonus(streak: int): (b: int)
    ensures b <= 20
    ensures streak <= 10 ==> b == 2 * streak
    ensures streak >= 10 ==> b == 20
  {
    if 20 < streak * 2 then 20 else streak * 2
  }

  /** `min(95, rate * 100 + streak bonus + consistency * 15)`. */
  function Probability(completionRate: real, streak: int, consistency: real): (p: real)
    ensures p <= 95.0
  {
    var raw := completionRate * 100.0 + (StreakBonus(streak) as real) + consistency * 15.0;
    if 95.0 < raw then 95.0 else raw
  }

  /** For inputs that are not negative the probability lies in [0, 95]. */
  lemma ProbabilityRange(completionRate: real, streak: int, consistency: real)
    requires completionRate >= 0.0 && streak >= 0 && consistency >= 0.0
    ensures 0.0 <= Probability(completionRate, streak, consistency) <= 95.0
  {
  }

  /** A higher rate, streak or consistency never lowers the probability. */
  lemma ProbabilityMonotone(r1: real, s1: int, c1: real, r2: real, s2: int, c2: real)
    requires r1 <= r2 && s1 <= s2 && c1 <= c2
    ensures Probability(r1, s1, c1) <= Probability(r2, s2, c2)
  {
  }

  /** The prediction tier: "high" from 80, "medium" from 50, "low" below. */
  function TierOf(p: real): (t: Level)
    ensures t == High <==> p >= 80.0
    ensures t == Medium <==> 50.0 <= p < 80.0
    ensures t == Low <==> p < 50.0
  {
    if p >= 80.0 then High else if p >= 50.0 then Medium else Low
  }

  /** `_calculate_prediction`: the tier and the probability. */
  function CalculatePrediction(completionRate: real, streak: int, consistency: real): (r: (Level, real))
    ensures r.1 <= 95.0
    ensures r.0 == High <==> r.1 >= 80.0
    ensures r.0 == Low <==> r.1 < 50.0
  {
    var p := Probability(completionRate, streak, consistency);
    (TierOf(p), p)
  }

  /** Better inputs never give a lower tier. */
  lemma TierMonotone(r1: real, s1: int, c1: real, r2: real, s2: int, c2: real)
    requires r1 <= r2 && s1 <= s2 && c1 <= c2
    ensures Rank(CalculatePrediction(r1, s1, c1).0) <= Rank(CalculatePrediction(r2, s2, c2).0)
  {
    ProbabilityMonotone(r1, s1, c1, r2, s2, c2);
  }

  /** The branches of the recommendation table (plus the no-data message). */
  datatype Recommendation =
    | StartBuilding
    | ExcellentWork | GreatProgress
    | GoodStart | BuildingMomentum | SolidProgress
    | SmallerSteps | DontGiveUp | KeepWorking

  /** `generate_recommendation`: the branch picked by tier, rate and streak. */
  function GenerateRecommendation(tier: Level, completionRate: real, streak: int): (r: Recommendation)
    ensures r != StartBuilding
  {
    match tier
    case High => if completionRate >= 0.9 then ExcellentWork else GreatProgress
    case Medium =>
      if completionRate < 0.6 then GoodStart
      else if streak < 7 then BuildingMomentum
      else SolidProgress
    case Low =>
      if completionRate < 0.3 then SmallerSteps
      else if streak == 0 then DontGiveUp
      else KeepWorking
  }

  /** The decision table, one condition per branch; exactly one holds for any input. */
  lemma RecommendationTable(tier: Level, rate: real, streak: int)
    ensures var r := GenerateRecommendation(tier, rate, streak);
      && (r == ExcellentWork <==> tier == High && rate >= 0.9)
      && (r == GreatProgress <==> tier == High && rate < 0.9)
      && (r == GoodStart <==> tier == Medium && rate < 0.6)
      && (r == BuildingMomentum <==> tier == Medium && rate >= 0.6 && streak < 7)
      && (r == SolidProgress <==> tier == Medium && rate >= 0.6 && streak >= 7)
      && (r == SmallerSteps <==> tier == Low && rate < 0.3)
      && (r == DontGiveUp <==> tier == Low && rate >= 0.3 && streak == 0)
      && (r == KeepWorking <==> tier == Low && rate >= 0.3 && streak != 0)
  {
  }

  /** The text `t` mentions the title somewhere. */
  ghost predicate NamesHabit(t: string, title: string) {
    exists before, after :: t == before + title + after
  }

  /** The words before and after the habit's title in each message that names it. */
  function MessageAround(r: Recommendation): (string, string)
    requires r != StartBuilding
  {
    match r
    case ExcellentWork =>
      ("Excellent work with ", "! You're maintaining a strong habit. Consider adding a new habit to build momentum.")
    case GreatProgress =>
      ("Great progress with ", "! You're on track to success. Keep up the consistency.")
    case GoodStart =>
      ("Good start with ", ". Try setting a daily reminder to improve consistency. Consider reducing the target if it feels too difficult.")
    case BuildingMomentum =>
      ("You're building momentum with ", ". Focus on maintaining your current streak for a full week.")
    case SolidProgress =>
      ("Solid progress with ", ". You have a good foundation - try to increase your completion rate slightly.")
    case SmallerSteps =>
      ("Consider breaking ", " into smaller, more manageable steps. Start with just 2-3 times per week.")
    case DontGiveUp =>
      ("Don't give up on ", "! Try adjusting the timing or reducing the target value. Every small step counts.")
    case KeepWorking =>
      ("Keep working on ", ". Focus on consistency over perfection. Even small improvements matter.")
  }

  /**
   * The message of each branch for the habit titled `title`: every message
   * but the one for a habit without completions names the habit.
   */
  function RecommendationText(r: Recommendation, title: string): (t: string)
    ensures r != StartBuilding ==> NamesHabit(t, title)
  {
    if r == StartBuilding then
      "Start building your habit! Complete it a few times to get personalized insights."
    else
      var parts := MessageAround(r);
      parts.0 + title + parts.1
  }

  /** The inputs of a prediction, as reported back. */
  datatype Factors = Factors(completionRate: real, currentStreak: int, consistency: real)

  datatype SuccessPrediction = SuccessPrediction(
    prediction: Level,
    probability: real,
    factors: Factors,
    recommendation: Recommendation,
    analysisQuality: Option<Level>)

  datatype PredictionError = HabitNotFound

  /** The fixed answer for a window without completions. */
  const ZeroDataPrediction :=
    SuccessPrediction(Low, 10.0, Factors(0.0, 0, 0.0), StartBuilding, None)

  /** The no-data answer is its own case: the formula would give 0, not 10. */
  lemma ZeroDataIsNotTheFormula()
    ensures Probability(0.0, 0, 0.0) == 0.0 != ZeroDataPrediction.probability
    ensures TierOf(ZeroDataPrediction.probability) == ZeroDataPrediction.prediction
  {
  }

  /**
   * `predict_habit_success` for the habit titled `habit` (None when the
   * habit does not exist) over the completions of the last 30 days.
   */
  method PredictHabitSuccess(habit: Option<string>, stamps: seq<int>, today: int)
    returns (r: Result<SuccessPrediction, PredictionError>)
    ensures habit.None? ==> r == Failure(HabitNotFound)
    ensures habit.Some? && stamps == [] ==> r == Success(ZeroDataPrediction)
    ensures habit.Some? && stamps != [] ==>
      var dates := Dates(stamps);
      var rate := (|stamps| as real) / (WindowDays as real);
      var streak := CurrentStreakOf(SortedUnique(dates), today);
      var consistency := Consistency(dates);
      var p := Probability(rate, streak, consistency);
      && r.Success?
      && r.value.probability == p
      && 0.0 <= p <= 95.0
      && r.value.prediction == TierOf(p)
      && r.value.factors == Factors(rate * 100.0, streak, consistency)
      && r.value.recommendation == GenerateRecommendation(TierOf(p), rate, streak)
      && r.value.analysisQuality == Some(QualityOf(|stamps|))
  {
    if habit.None? {
      return Failure(HabitNotFound);
    }
    if stamps == [] {
      return Success(ZeroDataPrediction);
    }
    var dates := Dates(stamps);
    var completionRate := (|stamps| as real) / (WindowDays as real);
    var streakLength := CalculateCurrentStreak(dates, today);
    var consistencyScore := Consistency(dates);
    var (prediction, probability) := CalculatePrediction(completionRate, streakLength, consistencyScore);
    ProbabilityRange(completionRate, streakLength, consistencyScore);
    var recommendation := GenerateRecommendation(prediction, completionRate, streakLength);
    r := Success(SuccessPrediction(prediction, probability,
                                   Factors(completionRate * 100.0, streakLength, consistencyScore),
                                   recommendation, Some(QualityOf(|stamps|))));
  }

  /** The direction of a habit's completion rate. */
  datatype Trend = Improving | Declining | Stable

  /** "improving" above 110% of the monthly rate, "declining" below 90%, else "stable". */
  function TrendOf(weeklyRate: real, monthlyRate: real): (t: Trend)
    ensures monthlyRate >= 0.0 ==>
      && (t == Improving ==> weeklyRate > monthlyRate)
      && (t == Declining ==> weeklyRate < monthlyRate)
  {
    if weeklyRate > monthlyRate * 1.1 then Improving
    else if weeklyRate < monthlyRate * 0.9 then Declining
    else Stable
  }

  /**
   * The trend of `get_habit_insights` from the 7-day and 30-day completion
   * counts, stated on the counts themselves: improving when 30 times the
   * weekly count exceeds 7.7 times the monthly one, declining below 6.3
   * times, stable in between.
   */
  function HabitTrend(count7: nat, count30: nat): (t: Trend)
    ensures t == Improving <==> 30.0 * count7 as real > 7.7 * count30 as real
    ensures t == Declining <==> 30.0 * count7 as real < 6.3 * count30 as real
    ensures t == Stable <==>
      6.3 * count30 as real <= 30.0 * count7 as real <= 7.7 * count30 as real
  {
    TrendOf(count7 as real / 7.0, count30 as real / 30.0)
  }

  /**
   * For a rate that is not negative the three trends partition the weekly
   * rates: above 110%, below 90%, and the band in between.
   */
  lemma TrendRule(weeklyRate: real, monthlyRate: real)
    requires monthlyRate >= 0.0
    ensures TrendOf(weeklyRate, monthlyRate) == Improving <==> weeklyRate > 1.1 * monthlyRate
    ensures TrendOf(weeklyRate, monthlyRate) == Declining <==> weeklyRate < 0.9 * monthlyRate
    ensures TrendOf(weeklyRate, monthlyRate) == Stable <==>
      0.9 * monthlyRate <= weeklyRate <= 1.1 * monthlyRate
  {
  }

  /** Equal weekly and monthly rates are stable. */
  lemma EqualRatesAreStable(rate: real)
    requires rate >= 0.0
    ensures TrendOf(rate, rate) == Stable
  {
  }

  /** Rate 0.7, streak 8 and consistency 0.6 give 95, "high". */
  lemma FormulaScenario()
    ensures CalculatePrediction(0.7, 8, 0.6) == (High, 95.0)
  {
  }
}
