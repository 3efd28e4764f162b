/**
 * Completions per calendar date (`groupby('date').size()`) and the
 * regularity score both services derive from those counts.
 */
module DailyTally {
  import opened DayRuns
  import opened Tally
  import opened Statistics

  /** Completions per distinct date, in ascending date order. */
  function DailyCounts(dates: seq<int>): (counts: seq<nat>)
    ensures |counts| == |SortedUnique(dates)|
    ensures forall i :: 0 <= i < |counts| ==>
      counts[i] == multiset(dates)[SortedUnique(dates)[i]] && counts[i] >= 1
  {
    var u := SortedUnique(dates);
    forall i | 0 <= i < |u| ensures u[i] in multiset(dates) {
      assert u[i] in u;
      assert u[i] in dates;
    }
    seq(|u|, i requires 0 <= i < |u| => multiset(dates)[u[i]])
  }

  /** The daily counts add up to the number of completions. */
  lemma DailyCountsTotal(dates: seq<int>)
    ensures CountSum(SortedUnique(dates), multiset(dates)) == |dates|
  {
    var u := SortedUnique(dates);
    assert Distinct(u);
    CountSumTotal(u, dates);
  }

  /** Reordering the completions does not change the daily counts. */
  lemma SameCompletionsSameDailyCounts(d1: seq<int>, d2: seq<int>)
    requires multiset(d1) == multiset(d2)
    ensures DailyCounts(d1) == DailyCounts(d2)
  {
    forall x ensures x in d1 <==> x in d2 {
      assert x in d1 <==> x in multiset(d1);
      assert x in d2 <==> x in multiset(d2);
    }
    SameDaysSameStreaks(d1, d2, 0);
  }

  /**
   * `max(0, 1 - variance / (mean + 1))` over at least two daily counts: the
   * regularity of the number of completions per active day.
   */
  function RegularityScore(daily: seq<real>): (c: real)
    requires |daily| >= 2
    requires forall i :: 0 <= i < |daily| ==> daily[i] >= 0.0
    ensures 0.0 <= c <= 1.0
  {
    var q := SampleVariance(daily) / (Mean(daily) + 1.0);
    assert q >= 0.0;
    if 1.0 - q > 0.0 then 1.0 - q else 0.0
  }

  /** Days with the same number of completions each are perfectly regular. */
  lemma UniformDaysScoreOne(daily: seq<real>, c: real)
    requires |daily| >= 2 && c >= 0.0
    requires forall i :: 0 <= i < |daily| ==> daily[i] == c
    ensures RegularityScore(daily) == 1.0
  {
    ConstantSample(daily, c);
  }
}
