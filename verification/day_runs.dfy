/**
 * Streaks as runs of consecutive calendar dates.  Both the scheduler's and
 * the prediction service's streak code first collapse the completion dates
 * to the sorted list of distinct dates; the functions here define current
 * and longest streak over that list, and the lemmas say what they mean for
 * the set of dates on which the habit was completed.
 */
module DayRuns {

  predicate StrictlyIncreasing(u: seq<int>) {
    forall i, j :: 0 <= i < j < |u| ==> u[i] < u[j]
  }

  /** Every date from `lo` to `hi` inclusive has a completion. */
  ghost predicate DaysCovered(dates: seq<int>, lo: int, hi: int) {
    forall x :: lo <= x <= hi ==> x in dates
  }

  /** Putting a smaller element in front keeps a list strictly increasing. */
  lemma ConsIncreasing(a: int, s: seq<int>)
    requires StrictlyIncreasing(s)
    requires forall y :: y in s ==> a < y
    ensures StrictlyIncreasing([a] + s)
  {
    var r := [a] + s;
    forall i, j | 0 <= i < j < |r| ensures r[i] < r[j] {
      assert r[j] == s[j - 1] && s[j - 1] in s;
      if i > 0 {
        assert r[i] == s[i - 1];
      }
    }
  }

  /** Inserts `x` into a strictly increasing list, keeping it so (a duplicate is dropped). */
  function Insert(u: seq<int>, x: int): (r: seq<int>)
    requires StrictlyIncreasing(u)
    ensures StrictlyIncreasing(r)
    ensures forall y :: y in r <==> y in u || y == x
  {
    if u == [] then [x]
    else if x < u[0] then
      assert forall y :: y in u ==> x < y by {
        forall y | y in u ensures x < y {
          var k :| 0 <= k < |u| && u[k] == y;
          assert k == 0 || u[0] < u[k];
        }
      }
      ConsIncreasing(x, u);
      [x] + u
    else if x == u[0] then u
    else
      assert StrictlyIncreasing(u[1..]);
      var rest := Insert(u[1..], x);
      assert forall y :: y in u[1..] ==> u[0] < y by {
        forall y | y in u[1..] ensures u[0] < y {
          var k :| 0 <= k < |u[1..]| && u[1..][k] == y;
          assert u[1..][k] == u[k + 1];
        }
      }
      assert forall y :: y in rest ==> u[0] < y;
      ConsIncreasing(u[0], rest);
      assert forall y :: y in u <==> y == u[0] || y in u[1..] by {
        assert u == [u[0]] + u[1..];
      }
      [u[0]] + rest
  }

  /** `sorted(set(dates))`: the distinct dates in ascending order. */
  function SortedUnique(dates: seq<int>): (u: seq<int>)
    ensures StrictlyIncreasing(u)
    ensures forall y :: y in u <==> y in dates
  {
    if dates == [] then []
    else
      var init := SortedUnique(dates[..|dates| - 1]);
      assert forall y :: y in dates <==> y in dates[..|dates| - 1] || y == dates[|dates| - 1];
      Insert(init, dates[|dates| - 1])
  }

  /**
   * Two strictly increasing lists with the same elements are the same list,
   * so `SortedUnique` depends on the set of dates alone.
   */
  lemma {:induction false} IncreasingListIsUnique(u: seq<int>, v: seq<int>)
    requires StrictlyIncreasing(u) && StrictlyIncreasing(v)
    requires forall y :: y in u <==> y in v
    ensures u == v
  {
    assert u != [] ==> u[0] in u && u[0] in v;
    assert v != [] ==> v[0] in v && v[0] in u;
    if u != [] && v != [] {
      assert u[0] == v[0] by {
        assert u[0] in v;
        assert v[0] in u;
      }
      forall y ensures y in u[1..] <==> y in v[1..] {
        assert y in u[1..] <==> y in u && y != u[0];
        assert y in v[1..] <==> y in v && y != v[0];
      }
      IncreasingListIsUnique(u[1..], v[1..]);
      assert u == [u[0]] + u[1..] && v == [v[0]] + v[1..];
    }
  }

  /** The length of the run of consecutive dates that ends at `u[i]`. */
  function RunEndingAt(u: seq<int>, i: nat): (r: nat)
    requires i < |u|
    ensures 1 <= r <= i + 1
  {
    if i == 0 then 1
    else if u[i] - u[i - 1] == 1 then RunEndingAt(u, i - 1) + 1
    else 1
  }

  /** The longest of the runs ending at `u[0]`, ..., `u[k - 1]`. */
  function MaxRun(u: seq<int>, k: nat): (m: nat)
    requires k <= |u|
    ensures k == 0 ==> m == 0
    ensures k > 0 ==> 1 <= m <= k
  {
    if k == 0 then 0
    else
      var prev := MaxRun(u, k - 1);
      var last := RunEndingAt(u, k - 1);
      if prev < last then last else prev
  }

  /** `MaxRun` is the maximum of the runs it ranges over, and one of them. */
  lemma {:induction false} MaxRunIsMaximum(u: seq<int>, k: nat)
    requires k <= |u|
    ensures k == 0 ==> MaxRun(u, k) == 0
    ensures k > 0 ==> 1 <= MaxRun(u, k) <= k
    ensures forall j :: 0 <= j < k ==> RunEndingAt(u, j) <= MaxRun(u, k)
    ensures k > 0 ==> exists j :: 0 <= j < k && RunEndingAt(u, j) == MaxRun(u, k)
  {
    if k > 0 {
      MaxRunIsMaximum(u, k - 1);
      if k - 1 > 0 {
        var j :| 0 <= j < k - 1 && RunEndingAt(u, j) == MaxRun(u, k - 1);
      }
    }
  }

  /**
   * The current streak over the sorted distinct dates `u`: zero when the
   * latest date is more than one day before `today`, otherwise the run
   * ending at the latest date.
   */
  function CurrentStreakOf(u: seq<int>, today: int): (c: nat)
    ensures c <= |u|
    ensures c > 0 ==> u != [] && today - u[|u| - 1] <= 1
  {
    if u == [] then 0
    else if today - u[|u| - 1] <= 1 then RunEndingAt(u, |u| - 1)
    else 0
  }

  /** The longest streak over the sorted distinct dates `u`. */
  function LongestStreakOf(u: seq<int>): (l: nat)
    ensures l <= |u|
    ensures u != [] ==> l >= 1
  {
    MaxRun(u, |u|)
  }

  /**
   * The run ending at `u[i]` is the whole block of consecutive dates ending
   * there: every date in it is present and the date just before it is not.
   */
  lemma {:induction false} RunIsMaximalBlock(u: seq<int>, i: nat)
    requires StrictlyIncreasing(u)
    requires i < |u|
    ensures DaysCovered(u, u[i] - RunEndingAt(u, i) + 1, u[i])
    ensures u[i] - RunEndingAt(u, i) !in u
  {
    var r := RunEndingAt(u, i);
    if i > 0 && u[i] - u[i - 1] == 1 {
      RunIsMaximalBlock(u, i - 1);
      forall x | u[i] - r + 1 <= x <= u[i] ensures x in u {
        if x == u[i] {
        } else {
          assert u[i - 1] - RunEndingAt(u, i - 1) + 1 <= x <= u[i - 1];
        }
      }
    } else {
      assert r == 1;
      forall j | 0 <= j < |u| ensures u[j] != u[i] - 1 {
        if j < i {
          assert u[j] <= u[i - 1] < u[i] - 1;
        } else if j > i {
          assert u[j] > u[i];
        }
      }
    }
  }

  /** A block of dates covered in one list is covered in any list with the same elements. */
  lemma CoveredInSameDays(u: seq<int>, dates: seq<int>, lo: int, hi: int)
    requires forall y :: y in u <==> y in dates
    requires DaysCovered(u, lo, hi)
    ensures DaysCovered(dates, lo, hi)
  {
  }

  /** The last element of a strictly increasing list is its maximum. */
  lemma LastIsLatest(u: seq<int>, latest: int)
    requires StrictlyIncreasing(u)
    requires latest in u
    ensures u[|u| - 1] == latest || exists x :: x in u && x > latest
  {
    var k :| 0 <= k < |u| && u[k] == latest;
    if k < |u| - 1 {
      assert u[|u| - 1] in u && u[|u| - 1] > latest;
    }
  }

  /** An empty history has neither a current nor a longest streak. */
  lemma NoDatesNoStreak(today: int)
    ensures CurrentStreakOf(SortedUnique([]), today) == 0
    ensures LongestStreakOf(SortedUnique([])) == 0
  {
  }

  /**
   * With at least one date the longest streak is at least 1, the current
   * streak never exceeds it, and neither exceeds the number of distinct dates.
   */
  lemma StreakBounds(dates: seq<int>, today: int)
    ensures var u := SortedUnique(dates);
      CurrentStreakOf(u, today) <= LongestStreakOf(u) <= |u|
    ensures dates != [] ==> LongestStreakOf(SortedUnique(dates)) >= 1
  {
    var u := SortedUnique(dates);
    MaxRunIsMaximum(u, |u|);
    if dates != [] {
      assert dates[0] in u;
    }
  }

  /** Streaks depend only on the set of dates: not on their order nor on duplicates. */
  lemma SameDaysSameStreaks(d1: seq<int>, d2: seq<int>, today: int)
    requires forall x :: x in d1 <==> x in d2
    ensures SortedUnique(d1) == SortedUnique(d2)
    ensures CurrentStreakOf(SortedUnique(d1), today) == CurrentStreakOf(SortedUnique(d2), today)
    ensures LongestStreakOf(SortedUnique(d1)) == LongestStreakOf(SortedUnique(d2))
  {
    IncreasingListIsUnique(SortedUnique(d1), SortedUnique(d2));
  }

  /**
   * What the current streak means, stated on the dates themselves, for any
   * strictly increasing list `u` of the distinct dates (`SortedUnique(dates)`
   * is one, and by `IncreasingListIsUnique` the only one).  Let `latest` be
   * the latest completion date.  If it is more than one day before `today`
   * the streak is 0; otherwise the streak `c` is at least 1, the `c` dates
   * ending at `latest` all have a completion and the date before them has none.
   */
  lemma CurrentStreakMeaning(u: seq<int>, dates: seq<int>, today: int, latest: int)
    requires StrictlyIncreasing(u)
    requires forall y :: y in u <==> y in dates
    requires latest in dates
    requires forall x :: x in dates ==> x <= latest
    ensures var c := CurrentStreakOf(u, today);
      && (today - latest > 1 ==> c == 0)
      && (today - latest <= 1 ==>
            c >= 1 && DaysCovered(dates, latest - c + 1, latest) && latest - c !in dates)
  {
    var n := |u|;
    assert latest in u;
    LastIsLatest(u, latest);
    assert u[n - 1] == latest;
    if today - latest <= 1 {
      var c := RunEndingAt(u, n - 1);
      RunIsMaximalBlock(u, n - 1);
      CoveredInSameDays(u, dates, latest - c + 1, latest);
    }
  }

  /**
   * No block of consecutive completed dates is longer than the longest
   * streak of a strictly increasing list `u` of the distinct dates.
   */
  lemma LongestStreakIsUpperBound(u: seq<int>, dates: seq<int>, lo: int, hi: int)
    requires StrictlyIncreasing(u)
    requires forall y :: y in u <==> y in dates
    requires DaysCovered(dates, lo, hi)
    ensures hi - lo + 1 <= LongestStreakOf(u)
  {
    if lo <= hi {
      assert hi in u;
      var i :| 0 <= i < |u| && u[i] == hi;
      RunIsMaximalBlock(u, i);
      MaxRunIsMaximum(u, |u|);
      var r := RunEndingAt(u, i);
      assert hi - r !in dates;
    }
  }

  /**
   * Some block of consecutive completed dates is as long as the longest
   * streak of a strictly increasing list `u` of the distinct dates.
   */
  lemma LongestStreakIsAttained(u: seq<int>, dates: seq<int>)
    requires StrictlyIncreasing(u)
    requires forall y :: y in u <==> y in dates
    requires dates != []
    ensures var l := LongestStreakOf(u);
      exists d :: d in dates && DaysCovered(dates, d - l + 1, d)
  {
    var l := LongestStreakOf(u);
    var d0 := dates[0];
    assert d0 in dates;
    assert d0 in u;
    MaxRunIsMaximum(u, |u|);
    var j :| 0 <= j < |u| && RunEndingAt(u, j) == l;
    RunIsMaximalBlock(u, j);
    CoveredInSameDays(u, dates, u[j] - l + 1, u[j]);
    assert u[j] in dates;
  }
}
