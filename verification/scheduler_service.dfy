/**
 * The smart-reminder analytics: when a habit is usually completed, which
 * reminder hour to suggest, completion statistics with streaks, and the
 * job that counts the reminders it would send.  Completions are instants
 * in UTC seconds (see `Calendar`); "today" is a parameter.
 */
module SchedulerService {
  import opened Wrappers
  import opened Calendar
  import opened Statistics
  import opened Tally
  import opened DayRuns
  import opened DailyTally
  import opened Levels

  /** One row of `completion_data`: the instant and the fields read off it. */
  datatype CompletionRow = CompletionRow(completedAt: int, hour: Hour, dayOfWeek: Weekday, date: int)

  function RowOf(ts: int): (r: CompletionRow)
    ensures r.completedAt == ts && r.date == DateOf(ts)
    ensures r.hour == HourOf(ts) && r.dayOfWeek == WeekdayOf(DateOf(ts))
  {
    CompletionRow(ts, HourOf(ts), WeekdayOf(DateOf(ts)), DateOf(ts))
  }

  /** The rows the analysis loops build, one per completion, in order. */
  function Rows(stamps: seq<int>): (rows: seq<CompletionRow>)
    ensures |rows| == |stamps|
    ensures forall i :: 0 <= i < |stamps| ==> rows[i] == RowOf(stamps[i])
  {
    seq(|stamps|, i requires 0 <= i < |stamps| => RowOf(stamps[i]))
  }

  /** The loop that appends one row per completion to `completion_data`. */
  method BuildCompletionData(stamps: seq<int>) returns (rows: seq<CompletionRow>)
    ensures rows == Rows(stamps)
  {
    rows := [];
    var i := 0;
    while i < |stamps|
      invariant 0 <= i <= |stamps|
      invariant rows == Rows(stamps[..i])
    {
      assert stamps[..i + 1] == stamps[..i] + [stamps[i]];
      rows := rows + [RowOf(stamps[i])];
      i := i + 1;
    }
    assert stamps[..i] == stamps;
  }

  /** The `hour` column. */
  function HourColumn(rows: seq<CompletionRow>): (hs: seq<Hour>)
    ensures |hs| == |rows| && forall i :: 0 <= i < |rows| ==> hs[i] == rows[i].hour
  {
    seq(|rows|, i requires 0 <= i < |rows| => rows[i].hour)
  }

  /** The `day_of_week` column. */
  function WeekdayColumn(rows: seq<CompletionRow>): (ws: seq<Weekday>)
    ensures |ws| == |rows| && forall i :: 0 <= i < |rows| ==> ws[i] == rows[i].dayOfWeek
  {
    seq(|rows|, i requires 0 <= i < |rows| => rows[i].dayOfWeek)
  }

  /** The `date` column. */
  function DateColumn(rows: seq<CompletionRow>): (ds: seq<int>)
    ensures |ds| == |rows| && forall i :: 0 <= i < |rows| ==> ds[i] == rows[i].date
  {
    seq(|rows|, i requires 0 <= i < |rows| => rows[i].date)
  }

  /** How many completions fall in hour `h`. */
  function HourCount(hours: seq<Hour>, h: int): nat {
    var ms: multiset<int> := multiset(hours);
    ms[h]
  }

  /** Scans hours `h` .. 23 for a strictly larger count than that of `best`. */
  function PeakFrom(hours: seq<Hour>, h: int, best: Hour): (r: Hour)
    requires best < h <= 24
    requires forall k :: 0 <= k < h ==> HourCount(hours, k) <= HourCount(hours, best)
    requires forall k :: 0 <= k < best ==> HourCount(hours, k) < HourCount(hours, best)
    ensures forall k :: 0 <= k < 24 ==> HourCount(hours, k) <= HourCount(hours, r)
    ensures forall k :: 0 <= k < r ==> HourCount(hours, k) < HourCount(hours, r)
    decreases 24 - h
  {
    if h == 24 then best
    else if HourCount(hours, h) > HourCount(hours, best) then PeakFrom(hours, h + 1, h)
    else PeakFrom(hours, h + 1, best)
  }

  /**
   * `idxmax` over the hour groups, which are sorted by hour: the hour with
   * the most completions, the earliest one on a tie.
   */
  function PeakHour(hours: seq<Hour>): (r: Hour)
    ensures forall k :: 0 <= k < 24 ==> HourCount(hours, k) <= HourCount(hours, r)
    ensures forall k :: 0 <= k < r ==> HourCount(hours, k) < HourCount(hours, r)
  {
    PeakFrom(hours, 1, 0)
  }

  /** The hour counts add up to the number of completions. */
  lemma HourCountsTotal(hours: seq<Hour>)
    ensures CountSum(Range(0, 24), multiset(hours)) == |hours|
  {
    var hs: seq<int> := hours;
    assert multiset(hs) == multiset(hours);
    CountSumTotal(Range(0, 24), hs);
  }

  /** With at least one completion, the peak hour is an hour somebody completed in. */
  lemma PeakHourOccurs(hours: seq<Hour>)
    requires hours != []
    ensures PeakHour(hours) in hours
  {
    HourCountsTotal(hours);
    var keys := Range(0, 24);
    SomeKeyCounted(keys, multiset(hours));
    var i :| 0 <= i < |keys| && multiset(hours)[keys[i]] > 0;
    assert HourCount(hours, PeakHour(hours)) >= HourCount(hours, keys[i]) > 0;
  }

  /** `hour_distribution`: completion count per hour that has completions. */
  function HourDistribution(hours: seq<Hour>): (m: map<int, nat>)
    ensures forall h :: h in m <==> h in hours
    ensures forall h :: h in m ==> m[h] == HourCount(hours, h)
  {
    map h | 0 <= h < 24 && HourCount(hours, h) > 0 :: HourCount(hours, h)
  }

  /** The hours as real samples, for the variance. */
  function HourSamples(hours: seq<Hour>): (xs: seq<real>)
    ensures |xs| == |hours| && forall i :: 0 <= i < |hours| ==> xs[i] == hours[i] as real
  {
    seq(|hours|, i requires 0 <= i < |hours| => hours[i] as real)
  }

  /**
   * `min(95, total * 10 + (50 - variance(hours)))`: more data and a tighter
   * spread of hours raise it.  It is capped at 95 and not bounded below.
   */
  function Confidence(hours: seq<Hour>): (c: real)
    requires |hours| >= 2
    ensures c <= 95.0
    ensures c <= (|hours| as real) * 10.0 + 50.0
  {
    var raw := (|hours| as real) * 10.0 + (50.0 - SampleVariance(HourSamples(hours)));
    if raw < 95.0 then raw else 95.0
  }

  /** `max(6, peak - 1)`: an hour before the peak, never before 6 AM. */
  function SuggestedHour(peak: Hour): (s: int)
    ensures 6 <= s <= 22
    ensures peak >= 7 ==> s == peak - 1
    ensures peak <= 7 ==> s == 6
  {
    if 6 >= peak - 1 then 6 else peak - 1
  }

  /** Weekday counts under the weekday names, for the weekdays `w` .. 6 that occur. */
  function NamedCounts(weekdays: seq<Weekday>, w: int): (m: map<string, nat>)
    requires 0 <= w <= 7
    ensures forall k :: w <= k < 7 ==> (DayNames[k] in m <==> k in weekdays)
    ensures forall k :: w <= k < 7 && k in weekdays ==> m[DayNames[k]] == multiset(weekdays)[k]
    ensures forall name :: name in m ==> exists k :: w <= k < 7 && DayNames[k] == name
    decreases 7 - w
  {
    if w == 7 then map[]
    else
      var rest := NamedCounts(weekdays, w + 1);
      DayNamesDistinct();
      if w in weekdays then rest[DayNames[w] := multiset(weekdays)[w]] else rest
  }

  /** `day_pattern`: completions per weekday name, for the weekdays that occur. */
  function DayPattern(weekdays: seq<Weekday>): (m: map<string, nat>)
    ensures forall name :: name in m ==> name in DayNames
  {
    NamedCounts(weekdays, 0)
  }

  /** The weekday counts add up to the number of completions. */
  lemma WeekdayCountsTotal(weekdays: seq<Weekday>)
    ensures CountSum(Range(0, 7), multiset(weekdays)) == |weekdays|
  {
    var ws: seq<int> := weekdays;
    assert multiset(ws) == multiset(weekdays);
    CountSumTotal(Range(0, 7), ws);
  }

  datatype ReminderAnalysis = ReminderAnalysis(
    suggestedReminderHour: int,
    peakCompletionHour: Hour,
    confidence: real,
    totalCompletions: nat,
    hourDistribution: map<int, nat>,
    dayPattern: map<string, nat>,
    analysisQuality: Level)

  /** The minimum number of completions the analysis needs. */
  const MinCompletions: nat := 3

  /**
   * The reminder analysis of a completion history: none below three
   * completions, otherwise the peak, the suggested hour, the confidence,
   * the two histograms and the quality grade.
   */
  function ReminderAnalysisOf(stamps: seq<int>): (r: Option<ReminderAnalysis>)
    ensures r.None? <==> |stamps| < MinCompletions
    ensures r.Some? ==>
      && 6 <= r.value.suggestedReminderHour <= 22
      && r.value.suggestedReminderHour == SuggestedHour(r.value.peakCompletionHour)
      && r.value.confidence <= 95.0
      && r.value.totalCompletions == |stamps|
      && r.value.analysisQuality == QualityOf(|stamps|)
  {
    if |stamps| < MinCompletions then None
    else
      var rows := Rows(stamps);
      var hours := HourColumn(rows);
      var peak := PeakHour(hours);
      Some(ReminderAnalysis(
        SuggestedHour(peak),
        peak,
        Confidence(hours),
        |rows|,
        HourDistribution(hours),
        DayPattern(WeekdayColumn(rows)),
        QualityOf(|rows|)))
  }

  /** `analyze_optimal_reminder_time` over the completions of one habit. */
  method AnalyzeOptimalReminderTime(stamps: seq<int>) returns (r: Option<ReminderAnalysis>)
    ensures r == ReminderAnalysisOf(stamps)
  {
    if |stamps| < MinCompletions {
      return None;
    }
    var rows := BuildCompletionData(stamps);
    var hours := HourColumn(rows);
    var peak := PeakHour(hours);
    var confidence := Confidence(hours);
    var suggested := SuggestedHour(peak);
    var dayPattern := DayPattern(WeekdayColumn(rows));
    r := Some(ReminderAnalysis(suggested, peak, confidence, |rows|,
                               HourDistribution(hours), dayPattern, QualityOf(|rows|)));
  }

  /**
   * The histograms of an analysis: the peak is the earliest hour with the
   * most completions and one that occurs; the hour counts and the weekday
   * counts each add up to the number of completions; the day pattern holds
   * exactly the names of the weekdays that occur, with their counts.
   */
  lemma AnalysisHistograms(stamps: seq<int>)
    requires |stamps| >= MinCompletions
    ensures var a := ReminderAnalysisOf(stamps).value;
      var rows := Rows(stamps);
      var hours := HourColumn(rows);
      var weekdays := WeekdayColumn(rows);
      && a.peakCompletionHour in hours
      && (forall h :: 0 <= h < 24 ==> HourCount(hours, h) <= HourCount(hours, a.peakCompletionHour))
      && (forall h :: 0 <= h < a.peakCompletionHour ==> HourCount(hours, h) < HourCount(hours, a.peakCompletionHour))
      && (forall h :: h in a.hourDistribution <==> h in hours)
      && CountSum(Range(0, 24), multiset(hours)) == a.totalCompletions
      && CountSum(Range(0, 7), multiset(weekdays)) == a.totalCompletions
      && (forall k :: 0 <= k < 7 ==> (DayNames[k] in a.dayPattern <==> k in weekdays))
      && (forall k :: 0 <= k < 7 && k in weekdays ==> a.dayPattern[DayNames[k]] == multiset(weekdays)[k])
  {
    var rows := Rows(stamps);
    PeakHourOccurs(HourColumn(rows));
    HourCountsTotal(HourColumn(rows));
    WeekdayCountsTotal(WeekdayColumn(rows));
  }

  /**
   * `run_reminders` sends a reminder for a completion history whose analysis
   * exists and has a confidence above 70: never for fewer than three
   * completions.
   */
  function SendsReminder(stamps: seq<int>): (b: bool)
    ensures b ==> |stamps| >= MinCompletions
    ensures b ==> 70.0 < ReminderAnalysisOf(stamps).value.confidence <= 95.0
  {
    var a := ReminderAnalysisOf(stamps);
    a.Some? && a.value.confidence > 70.0
  }

  /** How many of the habits' histories earn a reminder. */
  function CountReminders(histories: seq<seq<int>>): (n: nat)
    ensures n <= |histories|
  {
    if histories == [] then 0
    else
      var last := histories[|histories| - 1];
      CountReminders(histories[..|histories| - 1]) + (if SendsReminder(last) then 1 else 0)
  }

  /** The reminder job over the completion histories of the active habits. */
  method RunReminders(histories: seq<seq<int>>) returns (remindersSent: nat, habitsAnalyzed: nat)
    ensures habitsAnalyzed == |histories|
    ensures remindersSent == CountReminders(histories)
    ensures remindersSent <= habitsAnalyzed
  {
    remindersSent := 0;
    var i := 0;
    while i < |histories|
      invariant 0 <= i <= |histories|
      invariant remindersSent == CountReminders(histories[..i])
    {
      assert histories[..i + 1][..i] == histories[..i];
      var analysis := AnalyzeOptimalReminderTime(histories[i]);
      if analysis.Some? && analysis.value.confidence > 70.0 {
        remindersSent := remindersSent + 1;
      }
      i := i + 1;
    }
    assert histories[..i] == histories;
    habitsAnalyzed := |histories|;
  }

  /**
   * A habit always completed in the same hour, at least three times, has
   * zero hour variance and so a confidence of at least 80: it earns a
   * reminder.
   */
  lemma SameHourHistoryIsReminded(stamps: seq<int>, h: Hour)
    requires |stamps| >= MinCompletions
    requires forall i :: 0 <= i < |stamps| ==> HourOf(stamps[i]) == h
    ensures SendsReminder(stamps)
  {
    var hours := HourColumn(Rows(stamps));
    var xs := HourSamples(hours);
    ConstantSample(xs, h as real);
    assert Confidence(hours) >= 80.0;
  }

  /**
   * The confidence heuristic can be negative: three completions at 00:xx,
   * 00:xx and 23:xx have a sample variance of about 176.3 hours squared.
   */
  lemma ConfidenceCanBeNegative()
    ensures Confidence([0, 0, 23]) < 0.0
  {
    var xs := HourSamples([0, 0, 23]);
    assert xs == [0.0, 0.0, 23.0];
    assert xs[..2] == [0.0, 0.0] && xs[..2][..1] == [0.0] && xs[..2][..1][..0] == [];
    assert Sum([0.0]) == 0.0;
    assert Sum([0.0, 0.0]) == 0.0;
    assert Sum(xs) == 23.0;
    var m := Mean(xs);
    assert m == 23.0 / 3.0;
    assert SquaredDeviations([0.0], m) == m * m;
    assert SquaredDeviations([0.0, 0.0], m) == 2.0 * m * m;
    assert SquaredDeviations(xs, m) == 2.0 * m * m + (23.0 - m) * (23.0 - m);
  }

  datatype CompletionStats = CompletionStats(
    totalCompletions: nat,
    completionRate: real,
    averageDaily: real,
    bestHour: Option<Hour>,
    consistencyScore: real,
    hourDistribution: map<int, nat>,
    currentStreak: nat,
    longestStreak: nat)

  /** The error a statistics request reports instead of a result. */
  datatype StatsError = DivisionByZero

  /** The statistics of a window without completions. */
  const EmptyStats := CompletionStats(0, 0.0, 0.0, None, 0.0, map[], 0, 0)

  /**
   * The consistency of `get_completion_stats`: the regularity score over at
   * least two dates.  For a single date pandas' sample variance is NaN and
   * `max(0, NaN)` keeps its first argument, so the score is 0.
   */
  function StatsConsistency(dates: seq<int>): (c: real)
    ensures 0.0 <= c <= 1.0
    ensures |SortedUnique(dates)| < 2 ==> c == 0.0
  {
    var daily := Reals(DailyCounts(dates));
    if |daily| < 2 then 0.0 else RegularityScore(daily)
  }

  /** `_calculate_streaks`: collapses the dates to the sorted distinct dates and walks them. */
  method CalculateStreaks(dates: seq<int>, today: int) returns (current: nat, longest: nat)
    ensures current == CurrentStreakOf(SortedUnique(dates), today)
    ensures longest == LongestStreakOf(SortedUnique(dates))
  {
    if dates == [] {
      return 0, 0;
    }
    var u := SortedUnique(dates);
    assert dates[0] in u;
    current, longest := StreakLoops(u, today);
  }

  /**
   * The two index loops of `_calculate_streaks` over a non-empty list of
   * dates `u`: the current streak walking back from the latest date, the
   * longest streak in one pass forwards.
   */
  method StreakLoops(u: seq<int>, today: int) returns (current: nat, longest: nat)
    requires u != []
    ensures current == CurrentStreakOf(u, today)
    ensures longest == LongestStreakOf(u)
  {
    var n := |u|;
    current, longest := 0, 0;
    var temp: nat := 1;

    // current streak, walking back from the latest date
    var i := n - 1;
    while i >= 0
      invariant -1 <= i <= n - 1
      invariant current == n - 1 - i
      invariant i < n - 1 ==>
        today - u[n - 1] <= 1 && RunEndingAt(u, n - 1) == current - 1 + RunEndingAt(u, i + 1)
      decreases i
    {
      if i == n - 1 {
        if today - u[i] <= 1 {
          current := 1;
        } else {
          assert current == CurrentStreakOf(u, today);
          break;
        }
      } else {
        if u[i + 1] - u[i] == 1 {
          current := current + 1;
        } else {
          assert RunEndingAt(u, i + 1) == 1;
          assert current == CurrentStreakOf(u, today);
          break;
        }
      }
      i := i - 1;
    }
    assert current == CurrentStreakOf(u, today);

    // longest streak, one pass forwards
    var j := 1;
    while j < n
      invariant 1 <= j <= n
      invariant temp == RunEndingAt(u, j - 1)
      invariant (if longest < temp then temp else longest) == MaxRun(u, j)
    {
      if u[j] - u[j - 1] == 1 {
        temp := temp + 1;
      } else {
        longest := if longest < temp then temp else longest;
        temp := 1;
      }
      j := j + 1;
    }
    longest := if longest < temp then temp else longest;
  }

  /**
   * `get_completion_stats` over a window of `days` days: fixed zeros for an
   * empty window, a division-by-zero error for a zero-day window, and
   * otherwise the totals, rate, best hour, consistency and streaks.
   */
  method GetCompletionStats(stamps: seq<int>, days: int, today: int)
    returns (r: Result<CompletionStats, StatsError>)
    ensures stamps == [] ==> r == Success(EmptyStats)
    ensures stamps != [] && days == 0 ==> r == Failure(DivisionByZero)
    ensures stamps != [] && days != 0 ==>
      var rows := Rows(stamps);
      var dates := DateColumn(rows);
      && r.Success?
      && r.value.totalCompletions == |stamps|
      && r.value.completionRate == (|stamps| as real) / (days as real)
      && r.value.averageDaily == r.value.completionRate
      && r.value.bestHour == Some(PeakHour(HourColumn(rows)))
      && r.value.hourDistribution == HourDistribution(HourColumn(rows))
      && r.value.consistencyScore == StatsConsistency(dates)
      && 0.0 <= r.value.consistencyScore <= 1.0
      && r.value.currentStreak == CurrentStreakOf(SortedUnique(dates), today)
      && r.value.longestStreak == LongestStreakOf(SortedUnique(dates))
      && r.value.currentStreak <= r.value.longestStreak
  {
    if stamps == [] {
      return Success(EmptyStats);
    }
    var rows := BuildCompletionData(stamps);
    if days == 0 {
      return Failure(DivisionByZero);
    }
    var total := |stamps|;
    var rate := (total as real) / (days as real);
    var hours := HourColumn(rows);
    var dates := DateColumn(rows);
    var current, longest := CalculateStreaks(dates, today);
    StreakBounds(dates, today);
    r := Success(CompletionStats(total, rate, (total as real) / (days as real), Some(PeakHour(hours)),
                                 StatsConsistency(dates), HourDistribution(hours), current, longest));
  }
}
