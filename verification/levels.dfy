/** The three-level scale shared by prediction tiers and analysis quality. */
module Levels {

  datatype Level = Low | Medium | High

  /** The position of a level on the scale, for comparing levels. */
  function Rank(l: Level): nat {
    match l
    case Low => 0
    case Medium => 1
    case High => 2
  }

  /**
   * `analysis_quality`: "high" from 10 completions on, "medium" from 5,
   * "low" below that.
   */
  function QualityOf(total: int): (q: Level)
    ensures q == High <==> total >= 10
    ensures q == Medium <==> 5 <= total < 10
    ensures q == Low <==> total < 5
  {
    if total >= 10 then High else if total >= 5 then Medium else Low
  }

  /** More completions never lower the analysis quality. */
  lemma QualityMonotone(n1: int, n2: int)
    requires n1 <= n2
    ensures Rank(QualityOf(n1)) <= Rank(QualityOf(n2))
  {
  }
}
