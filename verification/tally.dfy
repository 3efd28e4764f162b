/**
 * Counting by key: the histograms of the analytics (completions per hour,
 * per weekday, per date) are the multiplicities of a multiset read at a
 * list of distinct keys.
 */
module Tally {

  predicate Distinct(keys: seq<int>) {
    forall i, j :: 0 <= i < j < |keys| ==> keys[i] != keys[j]
  }

  /** The keys `lo, lo + 1, ..., hi - 1`. */
  function Range(lo: int, hi: int): (r: seq<int>)
    requires lo <= hi
    ensures |r| == hi - lo
    ensures forall i :: 0 <= i < |r| ==> r[i] == lo + i
    ensures Distinct(r)
    ensures forall x :: x in r <==> lo <= x < hi
    decreases hi - lo
  {
    if lo == hi then [] else [lo] + Range(lo + 1, hi)
  }

  /** The total count of the keys in `keys` according to `ms`. */
  function CountSum(keys: seq<int>, ms: multiset<int>): nat {
    if keys == [] then 0 else ms[keys[0]] + CountSum(keys[1..], ms)
  }

  lemma {:induction false} CountSumEmpty(keys: seq<int>)
    ensures CountSum(keys, multiset{}) == 0
  {
    if keys != [] {
      CountSumEmpty(keys[1..]);
    }
  }

  /** One more occurrence of `y` adds one to the total exactly when `y` is a key. */
  lemma {:induction false} CountSumAddOne(keys: seq<int>, ms: multiset<int>, y: int)
    requires Distinct(keys)
    ensures CountSum(keys, ms + multiset{y}) == CountSum(keys, ms) + (if y in keys then 1 else 0)
  {
    if keys != [] {
      assert Distinct(keys[1..]) by {
        forall i, j | 0 <= i < j < |keys[1..]| ensures keys[1..][i] != keys[1..][j] {
          assert keys[1..][i] == keys[i + 1] && keys[1..][j] == keys[j + 1];
        }
      }
      CountSumAddOne(keys[1..], ms, y);
      assert y in keys <==> y == keys[0] || y in keys[1..];
      if y == keys[0] {
        assert y !in keys[1..] by {
          forall j | 0 <= j < |keys[1..]| ensures keys[1..][j] != y {
            assert keys[1..][j] == keys[j + 1];
          }
        }
      }
    }
  }

  /**
   * When every sample is one of the distinct keys, the counts at the keys add
   * up to the number of samples: no sample is lost and none is counted twice.
   */
  lemma {:induction false} CountSumTotal(keys: seq<int>, xs: seq<int>)
    requires Distinct(keys)
    requires forall x :: x in xs ==> x in keys
    ensures CountSum(keys, multiset(xs)) == |xs|
  {
    if xs == [] {
      CountSumEmpty(keys);
    } else {
      var init, last := xs[..|xs| - 1], xs[|xs| - 1];
      assert xs == init + [last];
      assert multiset(xs) == multiset(init) + multiset{last};
      assert forall x :: x in init ==> x in xs;
      CountSumTotal(keys, init);
      CountSumAddOne(keys, multiset(init), last);
    }
  }

  /** A positive total has a key with a positive count. */
  lemma {:induction false} SomeKeyCounted(keys: seq<int>, ms: multiset<int>)
    requires CountSum(keys, ms) > 0
    ensures exists i :: 0 <= i < |keys| && ms[keys[i]] > 0
  {
    if ms[keys[0]] == 0 {
      SomeKeyCounted(keys[1..], ms);
      var i :| 0 <= i < |keys[1..]| && ms[keys[1..][i]] > 0;
      assert ms[keys[i + 1]] > 0;
    }
  }
}
