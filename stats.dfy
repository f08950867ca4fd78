/** Exact arithmetic standing in for Python's `sum`, true division and
    `np.mean`: sums of naturals and reals, and the arithmetic mean, which
    lies between the smallest and the largest sample. */
module Stats {

  /** Python's `sum` over a list of integers. No element exceeds the total. */
  function SumNat(s: seq<nat>): (r: nat)
    ensures forall i :: 0 <= i < |s| ==> s[i] <= r
  {
    if s == [] then 0 else s[0] + SumNat(s[1..])
  }

  /** Python's `sum` over a list of numbers, taken exactly. */
  function SumReal(s: seq<real>): (r: real)
  {
    if s == [] then 0.0 else s[0] + SumReal(s[1..])
  }

  /** The integers of `s`, each converted to a real (what numpy does to an
      integer list before averaging it). */
  function ToReals(s: seq<nat>): (r: seq<real>)
    ensures |r| == |s|
    ensures forall i :: 0 <= i < |s| ==> r[i] == s[i] as real
  {
    if s == [] then [] else [s[0] as real] + ToReals(s[1..])
  }

  /** Converting before or after summing gives the same total. */
  lemma {:induction false} SumRealOfToReals(s: seq<nat>)
    ensures SumReal(ToReals(s)) == SumNat(s) as real
  {
    if s != [] {
      SumRealOfToReals(s[1..]);
      assert ToReals(s)[1..] == ToReals(s[1..]);
    }
  }

  /** Index of a smallest element. */
  function ArgMin(xs: seq<real>): (k: nat)
    requires |xs| > 0
    ensures k < |xs|
    ensures forall i :: 0 <= i < |xs| ==> xs[k] <= xs[i]
  {
    if |xs| == 1 then 0
    else
      var k := ArgMin(xs[1..]) + 1;
      if xs[0] <= xs[k] then 0 else k
  }

  /** Index of a largest element. */
  function ArgMax(xs: seq<real>): (k: nat)
    requires |xs| > 0
    ensures k < |xs|
    ensures forall i :: 0 <= i < |xs| ==> xs[i] <= xs[k]
  {
    if |xs| == 1 then 0
    else
      var k := ArgMax(xs[1..]) + 1;
      if xs[k] <= xs[0] then 0 else k
  }

  lemma {:induction false} SumAtLeast(xs: seq<real>, lo: real)
    requires forall i :: 0 <= i < |xs| ==> lo <= xs[i]
    ensures (|xs| as real) * lo <= SumReal(xs)
  {
    if xs != [] {
      SumAtLeast(xs[1..], lo);
      var n := |xs[1..]| as real;
      assert (|xs| as real) * lo == n * lo + lo;
      assert SumReal(xs) == xs[0] + SumReal(xs[1..]);
    }
  }

  lemma {:induction false} SumAtMost(xs: seq<real>, hi: real)
    requires forall i :: 0 <= i < |xs| ==> xs[i] <= hi
    ensures SumReal(xs) <= (|xs| as real) * hi
  {
    if xs != [] {
      SumAtMost(xs[1..], hi);
      var n := |xs[1..]| as real;
      assert (|xs| as real) * hi == n * hi + hi;
      assert SumReal(xs) == xs[0] + SumReal(xs[1..]);
    }
  }

  /** Dividing a bound on `n` copies by `n` bounds one copy. */
  lemma QuotientBounds(lo: real, s: real, hi: real, n: real)
    requires 0.0 < n
    requires n * lo <= s <= n * hi
    ensures lo <= s / n <= hi
    ensures s / n * n == s
  {
  }

  /** `np.mean`: the sum divided by the number of samples, defined only on a
      non-empty list. It lies between two of the samples, the smallest and
      the largest, so the mean of non-negative samples is non-negative. */
  function Mean(xs: seq<real>): (m: real)
    requires |xs| > 0
    ensures exists i, j :: 0 <= i < |xs| && 0 <= j < |xs| && xs[i] <= m <= xs[j]
  {
    var lo, hi := ArgMin(xs), ArgMax(xs);
    var n := |xs| as real;
    SumAtLeast(xs, xs[lo]);
    SumAtMost(xs, xs[hi]);
    QuotientBounds(xs[lo], SumReal(xs), xs[hi], n);
    var m := SumReal(xs) / n;
    assert xs[lo] <= m <= xs[hi];
    m
  }
}
