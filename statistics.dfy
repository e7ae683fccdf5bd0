/** Population statistics over a window of noise values, as numpy's `mean`, the
    squared-deviation list and `sum(...) / len(...)` compute them. Arithmetic is
    over `real`: floating-point rounding, NaN and infinity are not modelled. */
module Statistics {

  /** Sum of a sequence, adding the elements left to right (`np.sum`). */
  function Sum(s: seq<real>): (total: real)
  {
    SumTo(s, |s|)
  }

  /** Sum of the first `n` elements. */
  function SumTo(s: seq<real>, n: nat): real
    requires n <= |s|
  {
    if n == 0 then 0.0 else SumTo(s, n - 1) + s[n - 1]
  }

  /** Arithmetic mean (`np.mean`) of a non-empty sequence. */
  function Mean(s: seq<real>): (m: real)
    requires |s| > 0
  {
    Sum(s) / (|s| as real)
  }

  /** `e ** 2` */
  function Square(e: real): real
  {
    e * e
  }

  /** The list `[(x - m) ** 2 for x in s]`. */
  function SquaredDeviations(s: seq<real>, m: real): (r: seq<real>)
    ensures |r| == |s|
  {
    seq(|s|, i requires 0 <= i < |s| => Square(s[i] - m))
  }

  /** Population variance (`np.var`): squared deviations from the mean, summed and
      divided by their number. The empty sequence, which no caller passes, is given
      variance 0 so that the variance is a total function. */
  function PopVariance(s: seq<real>): (v: real)
  {
    if |s| == 0 then 0.0 else Sum(SquaredDeviations(s, Mean(s))) / (|s| as real)
  }

  /** The windowed-variance computation of the source: build the list of squared
      deviations from the window mean one element at a time, then divide its sum
      by its length. */
  method WindowVariance(w: seq<real>) returns (v: real)
    requires |w| > 0
    ensures v == PopVariance(w)
    ensures v >= 0.0
  {
    var deviations: seq<real> := [];
    var i := 0;
    while i < |w|
      invariant 0 <= i <= |w|
      invariant |deviations| == i
      invariant forall k :: 0 <= k < i ==> deviations[k] == Square(w[k] - Mean(w))
    {
      var m := Mean(w);
      deviations := deviations + [Square(w[i] - m)];
      i := i + 1;
    }
    assert deviations == SquaredDeviations(w, Mean(w));
    v := Sum(deviations) / (|deviations| as real);
    PopVarianceNonNegative(w);
  }

  /** The first `n` elements are summed alike in any two sequences that agree on them. */
  lemma {:induction false} SumToAgree(s: seq<real>, t: seq<real>, n: nat)
    requires n <= |s| && n <= |t|
    requires forall i :: 0 <= i < n ==> s[i] == t[i]
    ensures SumTo(s, n) == SumTo(t, n)
  {
    if n > 0 {
      SumToAgree(s, t, n - 1);
    }
  }

  lemma SumAppend(s: seq<real>, x: real)
    ensures Sum(s + [x]) == Sum(s) + x
  {
    SumToAgree(s + [x], s, |s|);
  }

  /** A sum of non-negative terms is non-negative. */
  lemma {:induction false} SumToNonNegative(s: seq<real>, n: nat)
    requires n <= |s|
    requires forall i :: 0 <= i < |s| ==> s[i] >= 0.0
    ensures SumTo(s, n) >= 0.0
  {
    if n > 0 {
      SumToNonNegative(s, n - 1);
    }
  }

  lemma SquareNonNegative(e: real)
    ensures Square(e) >= 0.0
  {
  }

  /** Every windowed variance is at least zero. */
  lemma PopVarianceNonNegative(s: seq<real>)
    requires |s| > 0
    ensures PopVariance(s) >= 0.0
  {
    var d := SquaredDeviations(s, Mean(s));
    forall i | 0 <= i < |d| ensures d[i] >= 0.0 {
      SquareNonNegative(s[i] - Mean(s));
    }
    SumToNonNegative(d, |d|);
  }

  /** The sum of `n` copies of `c` is `n * c`. */
  lemma {:induction false} SumToConstant(s: seq<real>, c: real, n: nat)
    requires n <= |s|
    requires forall i :: 0 <= i < |s| ==> s[i] == c
    ensures SumTo(s, n) == (n as real) * c
  {
    if n > 0 {
      SumToConstant(s, c, n - 1);
    }
  }

  lemma SumConstant(s: seq<real>, c: real)
    requires forall i :: 0 <= i < |s| ==> s[i] == c
    ensures Sum(s) == (|s| as real) * c
  {
    SumToConstant(s, c, |s|);
  }

  /** A window whose elements are all equal has mean equal to that value and variance zero. */
  lemma ConstantWindowVariance(s: seq<real>)
    requires |s| > 0
    requires forall i :: 0 <= i < |s| ==> s[i] == s[0]
    ensures Mean(s) == s[0]
    ensures PopVariance(s) == 0.0
  {
    SumConstant(s, s[0]);
    var n := |s| as real;
    assert n > 0.0;
    assert Sum(s) == n * s[0];
    assert (n * s[0]) / n == s[0];
    var d := SquaredDeviations(s, Mean(s));
    forall i | 0 <= i < |d| ensures d[i] == 0.0 {
      assert s[i] - Mean(s) == 0.0;
      assert Square(0.0) == 0.0;
    }
    SumConstant(d, 0.0);
  }
}
