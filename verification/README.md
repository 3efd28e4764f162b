# Habit Loop analytics and habit table, in Dafny

This project models the analytics core of the Habit Loop habit tracker and
the in-memory habit table of its demo backends. It proves the properties
those parts promise.

- **Smart reminders and completion statistics** (`backend/app/services/scheduler_service.py`):
  - the per-completion rows, and the hour and weekday histograms;
  - the peak hour, the suggested reminder hour `max(6, peak - 1)`, the confidence heuristic and the analysis quality;
  - the completion rate, the daily-count consistency and the current and longest streaks;
  - the `confidence > 70` gate of the reminder job.
- **Success prediction** (`backend/app/services/prediction_service.py`):
  - the current-streak walk and the consistency score;
  - the linear scorer with its 80/50 tiers, the zero-data answer, the recommendation table and the trend rule.
- **Rule-based predictor** (`backend/app/ml/predictor.py`):
  - the fallback formula, `will_succeed` and the fixed confidence;
  - the category thresholds of the classifier branch;
  - the fallback when no classifier is loaded, or when it raises.
- **Habit table** (`simple_backend.py`, `minimal_backend.py`, `backend/app/main.py`):
  - one `HabitStore` class whose `habits` sequence the endpoints update in place;
  - a named constructor for each backend's seed rows;
  - creation with goal-type validation (simplified backend, main application) and without it (minimal backend);
  - check-in and miss on the first record with the given id;
  - the demo insight endpoints, which are fixed tables over the stored streak.

Modules follow the program:

| module | contents |
|---|---|
| `Calendar` | dates, hours and weekdays of a UTC instant, given in seconds |
| `Statistics` | sum, mean and sample variance (divisor n - 1, as in pandas' `var()`) |
| `Tally` | count sums over distinct keys |
| `DayRuns` | streaks as runs of consecutive dates |
| `DailyTally` | completions per date and the regularity score |
| `Levels` | the low/medium/high scale |
| `SchedulerService` | smart reminders, completion statistics and the reminder gate |
| `PredictionService` | success prediction |
| `HabitPredictor` | the rule-based predictor |
| `HabitTable` | habit records and their updates |
| `HabitStore` | the table class |
| `DemoInsights` | the demo insight endpoints |

Time is explicit throughout:
- A completion is an integer count of UTC seconds since 1970-01-01.
- A date is the number of whole days since then.
- "today" is a parameter.
- The generated UUID and the creation time of a new habit are parameters too.

Where the code loops (building the completion rows, the two streak walks, the first-match search, the reminder job), the model is a method with a loop. Each such method is proved against a specification function, and the properties are proved about those functions.

The confidence has no lower bound: `scheduler_service.py:62` only caps it at 95, and `SchedulerService.ConfidenceCanBeNegative` gives three completions whose confidence is below 0.

## Model

| member | source | states |
|---|---|---|
| `Calendar.DateOf` | backend/app/services/scheduler_service.py:46 | the date of an instant is the day that contains it |
| `Calendar.HourOf` | backend/app/services/scheduler_service.py:44 | the hour is the hour of that day that contains the instant, 0 to 23 |
| `Calendar.WeekdayOf` | backend/app/services/scheduler_service.py:45 | Monday-based weekday 0 to 6; 1970-01-01 is a Thursday |
| `Calendar.NextDayWeekday` | backend/app/services/scheduler_service.py:45 | consecutive dates fall on consecutive weekdays, Sunday wrapping to Monday |
| `Calendar.DayNamesDistinct` | backend/app/services/scheduler_service.py:69 | the seven day names are pairwise distinct, so naming the weekday keys merges no counts |
| `Statistics.SampleVariance` | backend/app/services/scheduler_service.py:61 | the sample variance of two or more values is never negative |
| `Statistics.ConstantSample` | backend/app/services/prediction_service.py:88-89 | a sample of equal values has that value as its mean and variance 0 |
| `Tally.CountSumTotal` | backend/app/services/scheduler_service.py:52 | the group sizes over distinct keys that cover every value add up to the number of values |
| `DayRuns.SortedUnique` | backend/app/services/scheduler_service.py:158 | `sorted(set(dates))` is strictly increasing and holds exactly the input dates |
| `DayRuns.IncreasingListIsUnique` | backend/app/services/scheduler_service.py:158 | two strictly increasing lists with the same elements are equal |
| `DayRuns.RunEndingAt` | backend/app/services/scheduler_service.py:183-189 | the run of consecutive dates ending at position i has length between 1 and i + 1 |
| `DayRuns.MaxRunIsMaximum` | backend/app/services/scheduler_service.py:183-191 | the longest-streak fold is at least every run it passes, equals one of them and is between 1 and their number |
| `DayRuns.MaxRun` | backend/app/services/scheduler_service.py:182-191 | the longest-streak fold over the first k positions is 0 for none and between 1 and k otherwise; MaxRunIsMaximum makes it the largest run |
| `DayRuns.CurrentStreakOf` | backend/app/services/scheduler_service.py:166-180 | the current streak is at most the number of distinct dates and positive only when the latest date is today or yesterday; CurrentStreakMeaning characterises it (also prediction_service.py:48-65) |
| `DayRuns.LongestStreakOf` | backend/app/services/scheduler_service.py:182-191 | the longest streak is at most the number of distinct dates and at least 1 when there is one; LongestStreakIsUpperBound and LongestStreakIsAttained characterise it |
| `DayRuns.RunIsMaximalBlock` | backend/app/services/scheduler_service.py:176-180 | the run ending at a date is the whole block of consecutive completed dates ending there: all present, the day before absent |
| `DayRuns.NoDatesNoStreak` | backend/app/services/scheduler_service.py:154-155 | no dates give current and longest streak 0 |
| `DayRuns.StreakBounds` | backend/app/services/scheduler_service.py:160-191 | current streak <= longest streak <= number of distinct dates, and longest >= 1 when there are dates |
| `DayRuns.SameDaysSameStreaks` | backend/app/services/scheduler_service.py:158 | lists with the same set of dates give the same sorted dates and streaks, whatever the order and duplicates |
| `DayRuns.CurrentStreakMeaning` | backend/app/services/scheduler_service.py:167-180 | for the sorted distinct dates: 0 if the latest date is over a day before today; otherwise c >= 1 consecutive completed dates end at the latest date and the day before them has none |
| `DayRuns.LongestStreakIsUpperBound` | backend/app/services/scheduler_service.py:182-191 | for the sorted distinct dates: no block of consecutive completed dates is longer than the longest streak |
| `DayRuns.LongestStreakIsAttained` | backend/app/services/scheduler_service.py:182-191 | for the sorted distinct dates: some block of consecutive completed dates is exactly as long as the longest streak |
| `DailyTally.DailyCounts` | backend/app/services/scheduler_service.py:128 | one count per distinct date in date order, each the number of completions on that date and at least 1 |
| `DailyTally.DailyCountsTotal` | backend/app/services/scheduler_service.py:128 | the daily counts add up to the number of completions |
| `DailyTally.SameCompletionsSameDailyCounts` | backend/app/services/prediction_service.py:80-82 | reordering the completions leaves the daily counts unchanged |
| `DailyTally.RegularityScore` | backend/app/services/scheduler_service.py:129 | `max(0, 1 - var/(mean + 1))` over two or more non-negative counts lies in [0, 1] |
| `DailyTally.UniformDaysScoreOne` | backend/app/services/prediction_service.py:88-93 | equal counts on every day give the score 1 |
| `Levels.QualityOf` | backend/app/services/scheduler_service.py:81 | quality is high iff >= 10 completions, medium iff 5 to 9, low iff < 5 |
| `Levels.QualityMonotone` | backend/app/services/prediction_service.py:152 | more completions never lower the quality |
| `SchedulerService.RowOf` | backend/app/services/scheduler_service.py:42-47 | a row carries the instant and its hour, weekday and date |
| `SchedulerService.BuildCompletionData` | backend/app/services/scheduler_service.py:40-47 | the append loop yields one row per completion, in input order |
| `SchedulerService.PeakHour` | backend/app/services/scheduler_service.py:52-57 | the peak hour has the largest count of all 24 hours, and every earlier hour has a strictly smaller count |
| `SchedulerService.PeakHourOccurs` | backend/app/services/scheduler_service.py:56 | with completions, the peak hour is an hour some completion falls in |
| `SchedulerService.HourCountsTotal` | backend/app/services/scheduler_service.py:52 | the 24 hour counts add up to the number of completions |
| `SchedulerService.HourDistribution` | backend/app/services/scheduler_service.py:79 | the keys are exactly the hours that occur, each mapped to its count |
| `SchedulerService.Confidence` | backend/app/services/scheduler_service.py:62 | confidence is at most 95 and at most 10 per completion plus 50 |
| `SchedulerService.ConfidenceCanBeNegative` | backend/app/services/scheduler_service.py:62 | completions at hours 0, 0 and 23 have confidence below 0: there is no lower clamp |
| `SchedulerService.SuggestedHour` | backend/app/services/scheduler_service.py:65 | the suggestion is between 6 and 22; it is peak - 1 when peak >= 7 and 6 when peak <= 7 |
| `SchedulerService.NamedCounts` | backend/app/services/scheduler_service.py:68-70 | a weekday's name is a key iff the weekday occurs, mapped to its count, and every key is such a name |
| `SchedulerService.DayPattern` | backend/app/services/scheduler_service.py:70 | every key of the day pattern is one of the seven day names |
| `SchedulerService.WeekdayCountsTotal` | backend/app/services/scheduler_service.py:68 | the weekday counts add up to the number of completions |
| `SchedulerService.ReminderAnalysisOf` | backend/app/services/scheduler_service.py:36-82 | none iff fewer than 3 completions; otherwise the suggestion is in 6 to 22 and derived from the peak, confidence <= 95, the total is the completion count and the quality is its grade |
| `SchedulerService.AnalyzeOptimalReminderTime` | backend/app/services/scheduler_service.py:22-82 | the analysis method computes the reminder analysis of its completions |
| `SchedulerService.AnalysisHistograms` | backend/app/services/scheduler_service.py:52-80 | in an analysis the peak is the earliest most frequent hour and occurs; both histograms sum to the total; the day pattern has exactly the occurring weekdays with their counts |
| `SchedulerService.CountReminders` | backend/app/services/scheduler_service.py:211-221 | no more reminders than habits |
| `SchedulerService.SendsReminder` | backend/app/services/scheduler_service.py:218 | a reminder goes out only for a history of at least three completions whose analysis has a confidence above 70 (and at most 95) |
| `SchedulerService.RunReminders` | backend/app/services/scheduler_service.py:203-228 | the job counts the habits whose analysis exists and has confidence above 70, and analyses every habit |
| `SchedulerService.SameHourHistoryIsReminded` | backend/app/services/scheduler_service.py:218 | three or more completions all in one hour always pass the reminder gate |
| `SchedulerService.StatsConsistency` | backend/app/services/scheduler_service.py:127-129 | the statistics' consistency lies in [0, 1] and is 0 with fewer than two active dates |
| `SchedulerService.CalculateStreaks` | backend/app/services/scheduler_service.py:152-158 | (0, 0) for no dates; otherwise the current and the longest streak of the sorted distinct dates |
| `SchedulerService.StreakLoops` | backend/app/services/scheduler_service.py:160-193 | the backward loop returns the run ending at the latest date when that is today or yesterday (else 0), and the forward loop returns the longest run |
| `SchedulerService.GetCompletionStats` | backend/app/services/scheduler_service.py:88-146 | zeros for no completions; division-by-zero error for a zero-day window; otherwise total, rate = total/days, best hour, consistency in [0, 1] and streaks with current <= longest |
| `PredictionService.Dates` | backend/app/services/prediction_service.py:41 | one date per completion, in order |
| `PredictionService.CalculateCurrentStreak` | backend/app/services/prediction_service.py:34-46 | 0 for no completions; otherwise the current streak of the distinct dates, the same streak as the statistics |
| `PredictionService.WalkNewestFirst` | backend/app/services/prediction_service.py:48-67 | the newest-first walk returns the run ending at the latest date when that is today or yesterday, and 0 otherwise |
| `PredictionService.Consistency` | backend/app/services/prediction_service.py:73-95 | consistency is in [0, 1]; 0 without completions; 1 with exactly one active date |
| `PredictionService.ConsistencyIgnoresOrder` | backend/app/services/prediction_service.py:80-82 | the same completions in another order give the same consistency |
| `PredictionService.UniformDaysFullyConsistent` | backend/app/services/prediction_service.py:84-93 | two or more dates with the same number of completions each give consistency 1 |
| `PredictionService.SingleDateConsistencies` | backend/app/services/prediction_service.py:84-85 | on a single active date prediction reports consistency 1 while the statistics report 0 |
| `PredictionService.StreakBonus` | backend/app/services/prediction_service.py:166 | the streak bonus is at most 20; it is twice the streak up to 10 days and 20 from 10 on |
| `PredictionService.Probability` | backend/app/services/prediction_service.py:172 | the probability never exceeds 95 |
| `PredictionService.ProbabilityRange` | backend/app/services/prediction_service.py:163-172 | for non-negative inputs the probability lies in [0, 95] |
| `PredictionService.ProbabilityMonotone` | backend/app/services/prediction_service.py:163-172 | raising rate, streak or consistency never lowers the probability |
| `PredictionService.TierOf` | backend/app/services/prediction_service.py:175-180 | high iff p >= 80, medium iff 50 <= p < 80, low iff p < 50 |
| `PredictionService.CalculatePrediction` | backend/app/services/prediction_service.py:159-182 | the probability is at most 95; the tier is high iff it is >= 80 and low iff it is < 50 |
| `PredictionService.TierMonotone` | backend/app/services/prediction_service.py:159-182 | better inputs never give a lower tier |
| `PredictionService.GenerateRecommendation` | backend/app/services/prediction_service.py:184-207 | the table never picks the no-data message |
| `PredictionService.RecommendationTable` | backend/app/services/prediction_service.py:187-207 | each of the eight messages is picked iff its row's tier, rate and streak conditions hold |
| `PredictionService.RecommendationText` | backend/app/services/prediction_service.py:187-207 | every branch's message names the habit's title; the no-data message (line 125) does not |
| `PredictionService.ZeroDataIsNotTheFormula` | backend/app/services/prediction_service.py:116-126 | the no-data answer is low with 10.0, not the formula's 0 at zero inputs |
| `PredictionService.PredictHabitSuccess` | backend/app/services/prediction_service.py:101-153 | not found for a missing habit; the fixed answer for no completions; otherwise probability in [0, 95] from rate = n/30, the current streak and consistency, with tier, factors, recommendation and quality |
| `PredictionService.TrendOf` | backend/app/services/prediction_service.py:225-230 | for a non-negative monthly rate an improving trend has a higher weekly rate and a declining one a lower; TrendRule gives the exact thresholds |
| `PredictionService.HabitTrend` | backend/app/services/prediction_service.py:221-230 | from the counts: improving iff 30·c7 > 7.7·c30, declining iff 30·c7 < 6.3·c30, stable in between |
| `PredictionService.TrendRule` | backend/app/services/prediction_service.py:225-230 | for rates >= 0, improving iff weekly > 1.1·monthly, declining iff weekly < 0.9·monthly, stable iff in between; exactly one holds |
| `PredictionService.EqualRatesAreStable` | backend/app/services/prediction_service.py:225-230 | equal weekly and monthly rates are stable |
| `PredictionService.FormulaScenario` | backend/app/services/prediction_service.py:163-180 | rate 0.7, streak 8 and consistency 0.6 give 95 and high |
| `HabitPredictor.ExtractFeatures` | backend/app/ml/predictor.py:65-97 | the row has six features: the three inputs, then hour 12, 30 days and grace ratio 0.5 unless given |
| `HabitPredictor.RuleBasedPrediction` | backend/app/ml/predictor.py:175-209 | probability <= 95; high iff >= 80; low iff < 50; will succeed iff >= 50; confidence 70; rule-based; factors echo the inputs with the rate times 100 |
| `HabitPredictor.RuleBasedAgreesWithService` | backend/app/ml/predictor.py:185-196 | the fallback's tier and probability equal the prediction service's scorer on every input |
| `HabitPredictor.RuleBasedSucceedsUnlessLow` | backend/app/ml/predictor.py:202 | under the rule, success is predicted iff the tier is not low |
| `HabitPredictor.Category` | backend/app/ml/predictor.py:143-149 | the classifier category is high iff p >= 0.8, medium iff 0.5 <= p < 0.8, low iff p < 0.5 |
| `HabitPredictor.Predict` | backend/app/ml/predictor.py:99-173 | no classifier, or one that raises, gives the rule-based result; otherwise probability = 100·p_success with the 80/50 tiers, confidence = 100·max(p), success from the predicted class |
| `HabitPredictor.MlConfidenceRange` | backend/app/ml/predictor.py:151-154 | for a two-class probability vector the confidence is in [50, 100] and the probability in [0, 100] |
| `HabitPredictor.MlFlagIndependentOfTier` | backend/app/ml/predictor.py:155 | the classifier can predict success with a low tier, because the flag comes from the predicted class |
| `HabitPredictor.RuleBasedScenarios` | backend/app/ml/predictor.py:185-196 | (0.85, 20, 0.8) gives 95 high; (0.60, 10, 0.55) gives 88.25 high; (0.30, 2, 0.25) gives 37.75 low |
| `HabitTable.StatusCode` | simple_backend.py:109-110 | not found is 404 and a bad request is 400 |
| `HabitTable.NewHabit` | simple_backend.py:113-124 | a new record copies the request, has streak 0, is due today and has no best hour |
| `HabitTable.IndexOf` | backend/app/main.py:137 | a found position holds a record with the id |
| `HabitTable.IndexOfIsFirstMatch` | backend/app/main.py:152 | the lookup fails iff no record has the id, and otherwise finds the first such record |
| `HabitTable.FindFirst` | simple_backend.py:135 | the record-by-record search returns the first match |
| `HabitTable.Checkin` | simple_backend.py:140-141 | a check-in raises the streak by 1, clears the due flag and changes no other field |
| `HabitTable.Miss` | simple_backend.py:155-158 | a miss sets a non-negative streak to 0, clears the due flag and changes no other field |
| `HabitTable.CheckinTable` | backend/app/main.py:137-143 | the table after a check-in has the same length; CheckinTableEffect says which record changes and how |
| `HabitTable.MissTable` | backend/app/main.py:152-160 | the table after a miss has the same length; MissTableEffect says which record changes and how |
| `HabitTable.CheckinTableEffect` | backend/app/main.py:137-143 | a check-in on an id changes only the first matching record (streak + 1, not due); an unknown id changes nothing |
| `HabitTable.MissTableEffect` | minimal_backend.py:121-128 | a miss changes only the first matching record (streak 0, not due); an unknown id changes nothing |
| `HabitTable.UpdatesKeepLookups` | backend/app/main.py:148-160 | check-ins and misses move no record, so every later lookup finds the same position |
| `HabitTable.UpdatesKeepStreaksNonNegative` | minimal_backend.py:98-128 | creating, checking in and missing keep every streak non-negative |
| `HabitTable.RepeatedCheckinsKeepIndex` | backend/app/main.py:137 | any number of check-ins leave the record where it was found |
| `HabitTable.RepeatedCheckins` | backend/app/main.py:142 | n check-ins take a streak of s to s + n |
| `HabitTable.RepeatedCheckinsTouchNoOther` | backend/app/main.py:137-143 | repeated check-ins leave every other record unchanged |
| `HabitTable.MissThenCheckin` | backend/app/main.py:142-158 | a miss followed by a check-in leaves a streak of exactly 1 |
| `HabitTable.Lookup` | minimal_backend.py:109-111 | not found iff no record has the id; otherwise a stored record with that id |
| `HabitStore.HabitStore.SimpleDemo` | simple_backend.py:50-87 | the simplified backend starts with its three seed habits |
| `HabitStore.HabitStore.MinimalDemo` | minimal_backend.py:45-70 | the minimal backend starts with its two seed habits |
| `HabitStore.HabitStore.MainDemo` | backend/app/main.py:67-94 | the main application starts with its two seed habits, in UTC |
| `HabitStore.HabitStore.CreateHabit` | simple_backend.py:105-129 | an invalid goal type gives a 400 with the table unchanged; otherwise the new habit is appended and returned |
| `HabitStore.MainCreateDefaults` | backend/app/main.py:44-51 | a main request with only title and goal type stores timezone UTC, no target and one grace day |
| `HabitStore.DemoCreateDefaults` | simple_backend.py:30-35 | a title-only request stores a check habit with target 1 and one grace day |
| `HabitStore.HabitStore.CreateHabitUnchecked` | minimal_backend.py:87-104 | any goal type is stored; the new habit is appended and returned |
| `HabitStore.HabitStore.CheckinHabit` | backend/app/main.py:133-146 | 404 and no change for an unknown id; otherwise the table after the check-in and a reply with the old streak + 1 |
| `HabitStore.HabitStore.MissHabit` | backend/app/main.py:148-163 | 404 and no change for an unknown id; otherwise the table after the miss and a reply with streak 0 |
| `HabitStore.SeedLookups` | simple_backend.py:50-87 | the seed ids are distinct and found at their own positions; the minimal seed has no demo-3 |
| `DemoInsights.PredictFromStreak` | simple_backend.py:173-185 | high/85 iff streak >= 7, medium/65 iff 3 to 6, low/35 iff < 3 |
| `DemoInsights.StreakPredictionMonotone` | minimal_backend.py:140-152 | a longer streak never gives a lower tier or probability |
| `DemoInsights.SuccessPrediction` | simple_backend.py:164-195 | 404 for an unknown id; otherwise the table entry for the first matching habit's streak |
| `DemoInsights.StatsFromStreak` | simple_backend.py:226-238 | longest = max(streak, 7) >= streak; rate in [0, 100] for streaks >= 0 and 100 iff the streak is >= 30; 30 attempts |
| `DemoInsights.StatsRateBelowCap` | minimal_backend.py:195 | below 30 days the rate is the streak as a percentage of 30 days |
| `DemoInsights.CompletionStats` | minimal_backend.py:180-198 | 404 for an unknown id; otherwise the stats of the matching habit's streak |
| `DemoInsights.Recommendations` | simple_backend.py:252-269 | three tips; the count list iff count, the duration list iff duration, the check list iff anything else |
| `DemoInsights.TipListsDistinct` | minimal_backend.py:210-227 | the three tip lists differ |
| `DemoInsights.HabitRecommendations` | simple_backend.py:240-277 | 404 for an unknown id; otherwise the tips for the matching habit's goal type |
| `DemoInsights.OptimalReminderAsWritten` | simple_backend.py:206 | as written, the reported hour is the stored best hour, None included |
| `DemoInsights.NewHabitGetsNoReminderHour` | simple_backend.py:123 | a habit created through the API reports no reminder hour |
| `DemoInsights.OptimalReminder` | minimal_backend.py:170 | the intended hour is the stored best hour, else 9 |
| `DemoInsights.OptimalReminderAgrees` | simple_backend.py:197-215 | the intended hour equals the stored one when one is stored, and is 9 for a new habit |
| `DemoInsights.OptimalReminderTime` | minimal_backend.py:163-178 | 404 for an unknown id; otherwise the intended hour of the matching habit |

## Left out

- Database queries are left out. Each operation receives the completions (or the habit) it would have queried. The window filter `completed_at >= since_date` is the caller's job.
- Wall-clock time, UUID generation and the creation timestamp are left out. They are the parameters `today`, `newId` and `createdAt`.
- Time zones are left out. `completed_at` is a time-zone-aware column (`backend/app/models/habit_completion.py:20`), and the code reads `.hour` and `.date()` in whatever offset the returned datetime carries. `Calendar.DateOf` and `Calendar.HourOf` read them in UTC, so the model assumes the instants come back in UTC.
- The missing `import pandas as pd` in `scheduler_service.py` is left out. As written, `analyze_optimal_reminder_time` (3 or more completions) and `get_completion_stats` (any completions) reach their `except` branches. The model computes what those methods evidently intend.
- `round(...)` on confidences, rates, probabilities and consistency is left out, and reals stand for floats.
- SchedulerService.RunReminders: compares the unrounded confidence with 70. The source compares the value rounded to one decimal, so a confidence in (70, 70.05) counts here but not there.
- SchedulerService.GetCompletionStats: reports the earliest most frequent hour as `best_hour`. The source takes the first entry of pandas' `value_counts()`, whose order among tied hours pandas does not pin down; the model fixes it to the earliest hour.
- SchedulerService.GetCompletionStats: the reply for no completions (`EmptyStats`) carries an empty hour distribution, while the source's early return (`scheduler_service.py:99-106`) has no `hour_distribution` key at all.
- The generic `except` branches of the services are left out, apart from the division by zero of a zero-day window and "habit not found". They return an error dictionary on unexpected exceptions.
- `get_habit_insights` is modelled through its trend rule only. Its streak and consistency reuse the modelled functions; the most-common-hour lookup and the dictionary assembly are left out.
- PredictionService.PredictHabitSuccess: returns the recommendation as its table branch. The text with the habit title is `RecommendationText`.
- The trained classifier is left out: `joblib` loading, `load_model`, the feature metadata file and the `get_predictor` singleton. Its answer for the feature row, or the fact that it raised, is a parameter of `HabitPredictor.Predict`.
- HTTP plumbing is left out: the root and health endpoints, `get_habits` (it returns the list unchanged), CORS, logging and printing.
- The free-text fields of the demo endpoints are left out: "analysis", "motivation", "reasoning", "suggestion" and the "optimal_time" string.
- The main application's required `schedule_json` request field is left out. It is accepted but never stored.
- One `HabitStore` class stands for the three demo backends. The model does not tie a store to its backend: a store built by `MinimalDemo` can call the validated `CreateHabit`, and a request can carry a `timezone` although `simple_backend.py:30-35` has no such field.
- Ids of new habits are not checked for uniqueness, as in the source, which relies on UUIDs. The model therefore allows duplicate ids and updates the first match.

## Findings

| source | as written | input that shows it | evidently intended | confidence | as-written member | corrected member |
|---|---|---|---|---|---|---|
| simple_backend.py:206 | `habit.get("best_hour", 9)` returns the stored `None`, because every record has a `best_hour` key; `minimal_backend.py:170` does the same | create a habit via `POST /habits`, then request its optimal reminder: the hour is `None` and the time reads "None:00" | fall back to 9 o'clock when no best hour is known | high that the default is never used; not executed | `DemoInsights.OptimalReminderAsWritten` | `DemoInsights.OptimalReminder` |
