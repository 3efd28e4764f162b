/**
 * The success predictor: a trained classifier when one is loaded, else the
 * same linear rule as the prediction service.  The classifier itself is a
 * foreign call; its answer for the feature row is a parameter.
 */
module HabitPredictor {
  import opened Wrappers
  import opened Levels
  import PredictionService

  /** What the classifier returned for one feature row, or that it raised. */
  datatype ModelAnswer =
    | Answer(predicted: int, probFailure: real, probSuccess: real)
    | Raised

  datatype ModelKind = RuleBased | Ml

  datatype PredictorFactors = PredictorFactors(completionRate: real, currentStreak: int, consistency: real)

  datatype PredictorResult = PredictorResult(
    prediction: Level,
    probability: real,
    confidence: real,
    willSucceed: bool,
    modelUsed: ModelKind,
    factors: PredictorFactors)

  /**
   * `extract_features`: the six-column row, with the optional columns
   * defaulting to hour 12, 30 days since start and a grace ratio of 0.5.
   */
  function ExtractFeatures(completionRate: real, currentStreak: int, consistencyScore: real,
                           avgCheckinHour: Option<int>, daysSinceStart: Option<int>,
                           graceUsedRatio: Option<real>): (row: seq<real>)
    ensures |row| == 6
    ensures row[0] == completionRate && row[1] == currentStreak as real && row[2] == consistencyScore
    ensures avgCheckinHour.None? ==> row[3] == 12.0
    ensures daysSinceStart.None? ==> row[4] == 30.0
    ensures graceUsedRatio.None? ==> row[5] == 0.5
    ensures avgCheckinHour.Some? ==> row[3] == avgCheckinHour.value as real
    ensures daysSinceStart.Some? ==> row[4] == daysSinceStart.value as real
    ensures graceUsedRatio.Some? ==> row[5] == graceUsedRatio.value
  {
    [completionRate, currentStreak as real, consistencyScore,
     avgCheckinHour.GetOr(12) as real, daysSinceStart.GetOr(30) as real, graceUsedRatio.GetOr(0.5)]
  }

  /** `_rule_based_prediction`. */
  function RuleBasedPrediction(completionRate: real, currentStreak: int, consistencyScore: real): (r: PredictorResult)
    ensures r.probability <= 95.0
    ensures r.prediction == High <==> r.probability >= 80.0
    ensures r.prediction == Low <==> r.probability < 50.0
    ensures r.willSucceed <==> r.probability >= 50.0
    ensures r.confidence == 70.0 && r.modelUsed == RuleBased
    ensures r.factors == PredictorFactors(completionRate * 100.0, currentStreak, consistencyScore)
  {
    var baseProb := completionRate * 100.0;
    var streakBonus := if 20 < currentStreak * 2 then 20 else currentStreak * 2;
    var consistencyBonus := consistencyScore * 15.0;
    var raw := baseProb + streakBonus as real + consistencyBonus;
    var probability := if 95.0 < raw then 95.0 else raw;
    var category := if probability >= 80.0 then High else if probability >= 50.0 then Medium else Low;
    PredictorResult(category, probability, 70.0, probability >= 50.0, RuleBased,
                    PredictorFactors(completionRate * 100.0, currentStreak, consistencyScore))
  }

  /** The fallback rule and the prediction service's scorer are the same rule. */
  lemma RuleBasedAgreesWithService(completionRate: real, currentStreak: int, consistencyScore: real)
    ensures var r := RuleBasedPrediction(completionRate, currentStreak, consistencyScore);
      (r.prediction, r.probability) ==
        PredictionService.CalculatePrediction(completionRate, currentStreak, consistencyScore)
  {
  }

  /** Under the rule, a habit is predicted to succeed exactly when its tier is not "low". */
  lemma RuleBasedSucceedsUnlessLow(completionRate: real, currentStreak: int, consistencyScore: real)
    ensures var r := RuleBasedPrediction(completionRate, currentStreak, consistencyScore);
      r.willSucceed <==> r.prediction != Low
  {
  }

  /** The category of a success probability given as a fraction. */
  function Category(probSuccess: real): (t: Level)
    ensures t == High <==> probSuccess >= 0.8
    ensures t == Medium <==> 0.5 <= probSuccess < 0.8
    ensures t == Low <==> probSuccess < 0.5
  {
    if probSuccess >= 0.8 then High else if probSuccess >= 0.5 then Medium else Low
  }

  /**
   * `predict`: `model` is None when no classifier is loaded, otherwise its
   * answer for the feature row `ExtractFeatures(completionRate,
   * currentStreak, consistencyScore, ...)` of these inputs and the optional
   * features (the defaults when none are given); a classifier that raises
   * falls back to the rule.
   */
  function Predict(model: Option<ModelAnswer>, completionRate: real, currentStreak: int,
                   consistencyScore: real): (r: PredictorResult)
    ensures (model.None? || model.value.Raised?) ==>
      r == RuleBasedPrediction(completionRate, currentStreak, consistencyScore)
    ensures model.Some? && model.value.Answer? ==>
      var a := model.value;
      && r.modelUsed == Ml
      && r.probability == a.probSuccess * 100.0
      && r.prediction == PredictionService.TierOf(r.probability)
      && r.confidence == (if a.probSuccess >= a.probFailure then a.probSuccess else a.probFailure) * 100.0
      && (r.willSucceed <==> a.predicted == 1)
      && r.factors == PredictorFactors(completionRate * 100.0, currentStreak, consistencyScore)
  {
    match model
    case None => RuleBasedPrediction(completionRate, currentStreak, consistencyScore)
    case Some(Raised) => RuleBasedPrediction(completionRate, currentStreak, consistencyScore)
    case Some(Answer(predicted, probFailure, probSuccess)) =>
      var top := if probSuccess >= probFailure then probSuccess else probFailure;
      PredictorResult(Category(probSuccess), probSuccess * 100.0, top * 100.0, predicted == 1, Ml,
                      PredictorFactors(completionRate * 100.0, currentStreak, consistencyScore))
  }

  /**
   * For a two-class probability vector the classifier's confidence is at
   * least 50 and at most 100, and its probability lies in [0, 100].
   */
  lemma MlConfidenceRange(predicted: int, probFailure: real, probSuccess: real,
                          completionRate: real, currentStreak: int, consistencyScore: real)
    requires 0.0 <= probSuccess <= 1.0 && probFailure == 1.0 - probSuccess
    ensures var r := Predict(Some(Answer(predicted, probFailure, probSuccess)),
                             completionRate, currentStreak, consistencyScore);
      50.0 <= r.confidence <= 100.0 && 0.0 <= r.probability <= 100.0
  {
  }

  /**
   * The classifier's success flag comes from its predicted class, not from its
   * probability: a "low" prediction can still say it will succeed.
   */
  lemma MlFlagIndependentOfTier()
    ensures var r := Predict(Some(Answer(1, 0.6, 0.4)), 0.5, 3, 0.5);
      r.prediction == Low && r.willSucceed
  {
  }

  /** The worked examples: strong, moderate and weak habits under the rule. */
  lemma RuleBasedScenarios()
    ensures RuleBasedPrediction(0.85, 20, 0.8).probability == 95.0
    ensures RuleBasedPrediction(0.85, 20, 0.8).prediction == High
    ensures RuleBasedPrediction(0.60, 10, 0.55).probability == 88.25
    ensures RuleBasedPrediction(0.60, 10, 0.55).prediction == High
    ensures RuleBasedPrediction(0.30, 2, 0.25).probability == 37.75
    ensures RuleBasedPrediction(0.30, 2, 0.25).prediction == Low
  {
  }
}
