/**
 * Sums, means and the sample variance (the divisor n - 1, as pandas'
 * `Series.var()` uses by default) over real-valued samples.
 */
module Statistics {

  function Sum(xs: seq<real>): (s: real)
    ensures (forall i :: 0 <= i < |xs| ==> xs[i] >= 0.0) ==> s >= 0.0
  {
    if xs == [] then 0.0 else Sum(xs[..|xs| - 1]) + xs[|xs| - 1]
  }

  function Mean(xs: seq<real>): (m: real)
    requires |xs| > 0
    ensures (forall i :: 0 <= i < |xs| ==> xs[i] >= 0.0) ==> m >= 0.0
  {
    Sum(xs) / (|xs| as real)
  }

  /** The sum of the squared deviations of the samples from `m`. */
  function SquaredDeviations(xs: seq<real>, m: real): (s: real)
    ensures s >= 0.0
  {
    if xs == [] then 0.0
    else
      var d := xs[|xs| - 1] - m;
      SquaredDeviations(xs[..|xs| - 1], m) + d * d
  }

  /** The unbiased sample variance (delta degrees of freedom 1). */
  function SampleVariance(xs: seq<real>): (v: real)
    requires |xs| >= 2
    ensures v >= 0.0
  {
    SquaredDeviations(xs, Mean(xs)) / ((|xs| - 1) as real)
  }

  /** Natural-number samples as reals. */
  function Reals(ns: seq<nat>): (xs: seq<real>)
    ensures |xs| == |ns|
    ensures forall i :: 0 <= i < |ns| ==> xs[i] == ns[i] as real && xs[i] >= 0.0
  {
    seq(|ns|, i requires 0 <= i < |ns| => ns[i] as real)
  }

  /** A sample whose values are all `c` has mean `c` and no spread. */
  lemma {:induction false} ConstantSample(xs: seq<real>, c: real)
    requires |xs| >= 2
    requires forall i :: 0 <= i < |xs| ==> xs[i] == c
    ensures Mean(xs) == c
    ensures SampleVariance(xs) == 0.0
  {
    ConstantSum(xs, c);
    assert Mean(xs) == c;
    ConstantDeviations(xs, c);
  }

  lemma {:induction false} ConstantSum(xs: seq<real>, c: real)
    requires forall i :: 0 <= i < |xs| ==> xs[i] == c
    ensures Sum(xs) == (|xs| as real) * c
  {
    if xs != [] {
      ConstantSum(xs[..|xs| - 1], c);
    }
  }

  lemma {:induction false} ConstantDeviations(xs: seq<real>, c: real)
    requires forall i :: 0 <= i < |xs| ==> xs[i] == c
    ensures SquaredDeviations(xs, c) == 0.0
  {
    if xs != [] {
      ConstantDeviations(xs[..|xs| - 1], c);
    }
  }
}
