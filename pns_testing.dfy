/** The two analysis helpers of `pns_testing.py` that compute rather than plot:
    `lowest_variance`, the sliding five-value variance over a list of noise
    differences, and `interpolating_data`, the filter that keeps a scan only while
    its mean does not jump too far from the running mean of the scans kept so far. */
module PnsTesting {
  import opened Statistics

  datatype Error =
    | MinOfEmpty     // ValueError: `min` of the empty list of variances
    | NoFirstScan    // IndexError: `sdd_list[0]` on an empty list of scans

  datatype Result<T> = Success(value: T) | Failure(error: Error)

  // ---------------------------------------------------------------------------
  // lowest_variance
  // ---------------------------------------------------------------------------

  /** The number of values in each window. */
  const Width: nat := 5

  /** The population variance of the window of five values starting at `k`. */
  function WindowAt(d: seq<real>, k: nat): (v: real)
    requires k + Width <= |d|
  {
    PopVariance(d[k..k + Width])
  }

  /** The variances of the first `n` windows, in order. */
  function WindowVariances(d: seq<real>, n: nat): (vs: seq<real>)
    requires n + Width <= |d| + 1
    ensures |vs| == n
  {
    if n == 0 then [] else WindowVariances(d, n - 1) + [WindowAt(d, n - 1)]
  }

  lemma {:induction false} WindowVariancesAt(d: seq<real>, n: nat)
    requires n + Width <= |d| + 1
    ensures forall k :: 0 <= k < n ==> WindowVariances(d, n)[k] == WindowAt(d, k)
  {
    if n > 0 {
      WindowVariancesAt(d, n - 1);
    }
  }

  /** The sliding loop of `lowest_variance`: the first four values only fill the
      window; from the fifth on, each value slides the window one place and the
      variance of its five values is recorded. `pos` ends as the position of the
      last value seen once a window has been formed. */
  method SlidingVariances(d: seq<real>) returns (differences: seq<real>, pos: int)
    ensures |differences| == if |d| < Width then 0 else |d| - Width + 1
    ensures forall k :: 0 <= k < |differences| ==> differences[k] == WindowAt(d, k)
    ensures pos == if |d| < Width then 0 else |d| - 1
  {
    pos := 0;
    differences := [];
    var recentVars: seq<real> := [];
    for i := 0 to |d|
      invariant |recentVars| == if i < Width then i else Width
      invariant i < Width ==> recentVars == d[..i] && differences == [] && pos == 0
      invariant i >= Width ==> recentVars == d[i - Width..i] && pos == i - 1
      invariant i >= Width ==> differences == WindowVariances(d, i - Width + 1)
    {
      if |recentVars| < 4 {
        PrefixGrows(d, i);
        recentVars := recentVars + [d[i]];
      } else if |recentVars| == 4 {
        pos := 4;
        PrefixGrows(d, i);
        recentVars := recentVars + [d[i]];
        var v := WindowVariance(recentVars);
        differences := differences + [v];
      } else {
        pos := pos + 1;
        WindowAdvances(d, i);
        recentVars := recentVars[1..] + [d[i]];
        var v := WindowVariance(recentVars);
        differences := differences + [v];
      }
    }
    if |d| >= Width {
      WindowVariancesAt(d, |d| - Width + 1);
    }
  }

  lemma PrefixGrows(d: seq<real>, i: nat)
    requires i < |d|
    ensures d[..i + 1] == d[..i] + [d[i]]
  {
  }

  /** Dropping the oldest value and appending the next one moves the window one place. */
  lemma WindowAdvances(d: seq<real>, i: nat)
    requires Width <= i < |d|
    ensures d[i - Width..i][1..] + [d[i]] == d[i + 1 - Width..i + 1]
  {
  }

  /** Python's `min` of a non-empty list. */
  function Minimum(s: seq<real>): (m: real)
    requires |s| > 0
    ensures forall k :: 0 <= k < |s| ==> m <= s[k]
    ensures exists k :: 0 <= k < |s| && m == s[k]
  {
    if |s| == 1 then s[0]
    else
      var rest := Minimum(s[1..]);
      assert forall k :: 1 <= k < |s| ==> s[k] == s[1..][k - 1];
      if s[0] <= rest then s[0] else rest
  }

  /** What `lowest_variance` reports: the lowest window variance and the range of
      positions it names. */
  datatype Report = Report(lowest: real, rangeStart: int, rangeEnd: int)

  /** `lowest_variance(d_list)` without its printing: the lowest five-value variance,
      and the range `pos - 4` through `pos`. With fewer than five values no variance
      is recorded and `min` raises. */
  method LowestVariance(d: seq<real>) returns (r: Result<Report>)
    ensures r.Failure? <==> |d| < Width
    ensures r.Failure? ==> r.error == MinOfEmpty
    ensures r.Success? ==>
              (forall k :: 0 <= k && k + Width <= |d| ==> r.value.lowest <= WindowAt(d, k)) &&
              (exists k :: 0 <= k && k + Width <= |d| && r.value.lowest == WindowAt(d, k))
    ensures r.Success? ==> r.value.rangeStart == |d| - Width && r.value.rangeEnd == |d| - 1
  {
    var differences, pos := SlidingVariances(d);
    if |differences| == 0 {
      return Failure(MinOfEmpty);
    }
    var lowest := Minimum(differences);
    ghost var k :| 0 <= k < |differences| && lowest == differences[k];
    assert lowest == WindowAt(d, k);
    return Success(Report(lowest, pos - 4, pos));
  }

  /** The range reported is always the last window, whichever window is lowest:
      for `[0, 0, 0, 0, 0, 10]` the lowest variance, 0, is that of positions 0-4,
      while the range names positions 1-5, whose variance is 16. */
  lemma ReportedRangeIsLastWindow()
    ensures var d := [0.0, 0.0, 0.0, 0.0, 0.0, 10.0];
      WindowAt(d, 0) == 0.0 && WindowAt(d, 1) == 16.0
  {
    var d := [0.0, 0.0, 0.0, 0.0, 0.0, 10.0];
    assert d[0..5] == [0.0, 0.0, 0.0, 0.0, 0.0];
    ConstantWindowVariance(d[0..5]);
    var w := [0.0, 0.0, 0.0, 0.0, 10.0];
    assert d[1..6] == w;
    SumConstant([0.0, 0.0, 0.0, 0.0], 0.0);
    assert w == [0.0, 0.0, 0.0, 0.0] + [10.0];
    SumAppend([0.0, 0.0, 0.0, 0.0], 10.0);
    assert Mean(w) == 2.0;
    var sq := SquaredDeviations(w, 2.0);
    assert sq == [4.0, 4.0, 4.0, 4.0] + [64.0];
    SumConstant([4.0, 4.0, 4.0, 4.0], 4.0);
    SumAppend([4.0, 4.0, 4.0, 4.0], 64.0);
  }

  /** The position of the first minimum. */
  function ArgMinimum(s: seq<real>): (k: nat)
    requires |s| > 0
    ensures k < |s| && s[k] == Minimum(s)
  {
    if |s| == 1 || s[0] <= Minimum(s[1..]) then 0 else 1 + ArgMinimum(s[1..])
  }

  /** As intended: the range named is that of a window whose variance is the lowest. */
  method LowestVarianceWindow(d: seq<real>) returns (r: Result<Report>)
    ensures r.Failure? <==> |d| < Width
    ensures r.Failure? ==> r.error == MinOfEmpty
    ensures r.Success? ==>
              (forall k :: 0 <= k && k + Width <= |d| ==> r.value.lowest <= WindowAt(d, k)) &&
              0 <= r.value.rangeStart && r.value.rangeEnd == r.value.rangeStart + Width - 1 &&
              r.value.rangeEnd < |d| && r.value.lowest == WindowAt(d, r.value.rangeStart)
  {
    var differences, pos := SlidingVariances(d);
    if |differences| == 0 {
      return Failure(MinOfEmpty);
    }
    var k := ArgMinimum(differences);
    return Success(Report(differences[k], k, k + Width - 1));
  }

  // ---------------------------------------------------------------------------
  // interpolating_data
  // ---------------------------------------------------------------------------

  /** The jump limit: a scan is dropped when its difference exceeds the previous
      kept one by more than this. */
  const JumpLimit: real := 50.0

  /** The state the loop of `interpolating_data` carries: the kept scans (`avg_list`),
      their differences (`diff_list`), the loop positions of the kept scans
      (`indices`), and the mean the next difference is taken from (`prev_mean`).
      `S` is the type of one scan's array of sdd values. */
  datatype Extraction<S> = Extraction(avg: seq<S>, diffs: seq<real>, kept: seq<int>, prevMean: S)

  /** The difference a new scan `arr` would add: the variance (`diffVar`) of the
      change from `prev_mean` to the mean (`mean`) of the kept scans with `arr`. */
  function Candidate<S>(e: Extraction<S>, arr: S, mean: seq<S> -> S, diffVar: (S, S) -> real): real
  {
    diffVar(mean(e.avg + [arr]), e.prevMean)
  }

  /** A new difference `x` is kept unless there are already two or more differences
      and `x` exceeds the last one by more than the jump limit. */
  predicate Accepts(diffs: seq<real>, x: real): (ok: bool)
    ensures |diffs| < 2 ==> ok
    ensures |diffs| >= 2 ==> (ok <==> x <= diffs[|diffs| - 1] + JumpLimit)
  {
    |diffs| < 2 || diffs[|diffs| - 1] - x >= -JumpLimit
  }

  /** One iteration, at loop position `i`, with scan `arr`. */
  function ExtractStep<S>(e: Extraction<S>, i: int, arr: S, mean: seq<S> -> S, diffVar: (S, S) -> real): (r: Extraction<S>)
    ensures Accepts(e.diffs, Candidate(e, arr, mean, diffVar)) ==>
              r.avg == e.avg + [arr] && r.diffs == e.diffs + [Candidate(e, arr, mean, diffVar)] &&
              r.kept == e.kept + [i] && r.prevMean == mean(r.avg)
    ensures !Accepts(e.diffs, Candidate(e, arr, mean, diffVar)) ==> r == e
  {
    var x := Candidate(e, arr, mean, diffVar);
    if Accepts(e.diffs, x) then Extraction(e.avg + [arr], e.diffs + [x], e.kept + [i], mean(e.avg + [arr]))
    else e
  }

  /** The state after the first `n` scans after the first have been looked at. */
  function ExtractAfter<S>(sdd: seq<S>, mean: seq<S> -> S, diffVar: (S, S) -> real, n: nat): (e: Extraction<S>)
    requires 0 < |sdd| && n < |sdd|
  {
    if n == 0 then Extraction([sdd[0]], [], [], sdd[0])
    else ExtractStep(ExtractAfter(sdd, mean, diffVar, n - 1), n - 1, sdd[n], mean, diffVar)
  }

  /** `interpolating_data(interp_list_param)` on the sdd arrays already extracted from
      each scan: the first scan seeds the running mean, and each later scan is kept
      or dropped by the jump test. The mean over scans and the variance of a change
      are those of numpy, passed in as `mean` and `diffVar`. */
  method InterpolatingData<S>(sdd: seq<S>, mean: seq<S> -> S, diffVar: (S, S) -> real)
    returns (r: Result<(seq<real>, seq<int>)>)
    ensures |sdd| == 0 <==> r == Failure(NoFirstScan)
    ensures |sdd| > 0 ==>
              var e := ExtractAfter(sdd, mean, diffVar, |sdd| - 1);
              r == Success((e.diffs, e.kept))
  {
    if |sdd| == 0 {
      return Failure(NoFirstScan);
    }
    var prevMean := sdd[0];
    var avgList := [sdd[0]];
    var diffList: seq<real> := [];
    var indices: seq<int> := [];
    var rest := sdd[1..];
    for i := 0 to |rest|
      invariant Extraction(avgList, diffList, indices, prevMean) == ExtractAfter(sdd, mean, diffVar, i)
    {
      var arr := rest[i];
      avgList := avgList + [arr];
      var curMean := mean(avgList);
      diffList := diffList + [diffVar(curMean, prevMean)];
      if |diffList| > 2 {
        if diffList[|diffList| - 2] - diffList[|diffList| - 1] < -JumpLimit {
          avgList := avgList[..|avgList| - 1];
          diffList := diffList[..|diffList| - 1];
        } else {
          indices := indices + [i];
          prevMean := curMean;
        }
      } else {
        indices := indices + [i];
        prevMean := curMean;
      }
    }
    return Success((diffList, indices));
  }

  /** The mean a kept scan's difference was taken from, given the kept scans before
      it: the first scan itself while it is alone, their mean afterwards. */
  function PrevMeanOf<S>(prefix: seq<S>, mean: seq<S> -> S): S
    requires |prefix| > 0
  {
    if |prefix| == 1 then prefix[0] else mean(prefix)
  }

  /** How many of the (increasing) kept positions lie below `i`. */
  function CountBelow(kept: seq<int>, i: int): (c: nat)
    ensures c <= |kept|
  {
    if kept == [] || kept[0] >= i then 0 else 1 + CountBelow(kept[1..], i)
  }

  /** The kept scans, in order: the first scan, then scan `kept[t] + 1` for each kept
      loop position, positions strictly increasing and below `n`; `prev_mean` is
      taken from the kept scans. */
  ghost predicate WellFormed<S>(sdd: seq<S>, mean: seq<S> -> S, n: nat, e: Extraction<S>)
    requires 0 < |sdd| && n < |sdd|
  {
    |e.avg| == |e.kept| + 1 && |e.diffs| == |e.kept| &&
    e.avg[0] == sdd[0] && e.prevMean == PrevMeanOf(e.avg, mean) &&
    forall t :: 0 <= t < |e.kept| ==>
      0 <= e.kept[t] < n && e.avg[t + 1] == sdd[e.kept[t] + 1] &&
      forall u :: t < u < |e.kept| ==> e.kept[t] < e.kept[u]
  }

  lemma {:induction false} ExtractShape<S>(sdd: seq<S>, mean: seq<S> -> S, diffVar: (S, S) -> real, n: nat)
    requires 0 < |sdd| && n < |sdd|
    ensures WellFormed(sdd, mean, n, ExtractAfter(sdd, mean, diffVar, n))
  {
    if n > 0 {
      var p := ExtractAfter(sdd, mean, diffVar, n - 1);
      ExtractShape(sdd, mean, diffVar, n - 1);
      WellFormedStep(sdd, mean, diffVar, n - 1, p);
    } else {
      WellFormedStart(sdd, mean, diffVar);
    }
  }

  lemma WellFormedStart<S>(sdd: seq<S>, mean: seq<S> -> S, diffVar: (S, S) -> real)
    requires 0 < |sdd|
    ensures WellFormed(sdd, mean, 0, ExtractAfter(sdd, mean, diffVar, 0))
  {
    assert ExtractAfter(sdd, mean, diffVar, 0) == Extraction([sdd[0]], [], [], sdd[0]);
  }

  lemma WellFormedStep<S>(sdd: seq<S>, mean: seq<S> -> S, diffVar: (S, S) -> real, m: nat, p: Extraction<S>)
    requires m + 1 < |sdd| && WellFormed(sdd, mean, m, p)
    ensures WellFormed(sdd, mean, m + 1, ExtractStep(p, m, sdd[m + 1], mean, diffVar))
  {
    var e := ExtractStep(p, m, sdd[m + 1], mean, diffVar);
    if e != p {
      assert e.kept == p.kept + [m] && e.avg == p.avg + [sdd[m + 1]];
      assert |e.avg| > 1;
    }
  }

  /** The loop only ever appends: an earlier state is a prefix of a later one. */
  lemma {:induction false} ExtractGrows<S>(sdd: seq<S>, mean: seq<S> -> S, diffVar: (S, S) -> real, j: nat, n: nat)
    requires 0 < |sdd| && j <= n < |sdd|
    ensures var a, b := ExtractAfter(sdd, mean, diffVar, j), ExtractAfter(sdd, mean, diffVar, n);
      a.avg <= b.avg && a.diffs <= b.diffs && a.kept <= b.kept
  {
    if j < n {
      ExtractGrows(sdd, mean, diffVar, j, n - 1);
    }
  }

  /** Every recorded difference is the variance of the change between the mean of
      the kept scans up to its own and the mean it was taken from, and passed the
      jump test against the differences recorded before it. */
  ghost predicate DiffsRecorded<S>(e: Extraction<S>, mean: seq<S> -> S, diffVar: (S, S) -> real)
  {
    |e.diffs| + 1 == |e.avg| &&
    forall t :: 0 <= t < |e.diffs| ==>
      e.diffs[t] == diffVar(mean(e.avg[..t + 2]), PrevMeanOf(e.avg[..t + 1], mean)) &&
      Accepts(e.diffs[..t], e.diffs[t])
  }

  lemma DiffsRecordedStep<S>(p: Extraction<S>, i: int, arr: S, mean: seq<S> -> S, diffVar: (S, S) -> real)
    requires DiffsRecorded(p, mean, diffVar) && p.prevMean == PrevMeanOf(p.avg, mean)
    ensures DiffsRecorded(ExtractStep(p, i, arr, mean, diffVar), mean, diffVar)
  {
    var x := Candidate(p, arr, mean, diffVar);
    if Accepts(p.diffs, x) {
      DiffsRecordedAppend(p, p.avg + [arr], p.diffs + [x], mean, diffVar);
    }
  }

  /** Recording one more accepted difference, computed from the kept scans with the new one, keeps every
      recorded difference accounted for. */
  lemma DiffsRecordedAppend<S>(p: Extraction<S>, avg: seq<S>, diffs: seq<real>, mean: seq<S> -> S, diffVar: (S, S) -> real)
    requires DiffsRecorded(p, mean, diffVar) && p.prevMean == PrevMeanOf(p.avg, mean)
    requires |avg| == |p.avg| + 1 && avg[..|p.avg|] == p.avg
    requires |diffs| == |p.diffs| + 1 && diffs[..|p.diffs|] == p.diffs
    requires diffs[|p.diffs|] == diffVar(mean(avg), p.prevMean) && Accepts(p.diffs, diffs[|p.diffs|])
    ensures forall t :: 0 <= t < |diffs| ==>
              diffs[t] == diffVar(mean(avg[..t + 2]), PrevMeanOf(avg[..t + 1], mean)) &&
              Accepts(diffs[..t], diffs[t])
  {
    var t := |p.diffs|;
    assert avg[..t + 2] == avg;
    forall u | 0 <= u < t
      ensures diffs[u] == p.diffs[u] && avg[..u + 2] == p.avg[..u + 2] &&
              avg[..u + 1] == p.avg[..u + 1] && diffs[..u] == p.diffs[..u]
    {
    }
  }

  lemma {:induction false} ExtractKept<S>(sdd: seq<S>, mean: seq<S> -> S, diffVar: (S, S) -> real, n: nat)
    requires 0 < |sdd| && n < |sdd|
    ensures DiffsRecorded(ExtractAfter(sdd, mean, diffVar, n), mean, diffVar)
  {
    if n > 0 {
      ExtractKept(sdd, mean, diffVar, n - 1);
      ExtractShape(sdd, mean, diffVar, n - 1);
      DiffsRecordedStep(ExtractAfter(sdd, mean, diffVar, n - 1), n - 1, sdd[n], mean, diffVar);
    }
  }

  lemma {:induction false} CountBelowAppend(kept: seq<int>, x: int, i: int)
    requires x >= i
    ensures CountBelow(kept + [x], i) == CountBelow(kept, i)
  {
    if kept != [] {
      assert (kept + [x])[1..] == kept[1..] + [x];
      CountBelowAppend(kept[1..], x, i);
    }
  }

  lemma {:induction false} CountBelowAll(kept: seq<int>, i: int)
    requires forall t :: 0 <= t < |kept| ==> kept[t] < i
    ensures CountBelow(kept, i) == |kept|
  {
    if kept != [] {
      CountBelowAll(kept[1..], i);
    }
  }

  /** Loop position `i` was dropped by the jump test: with the kept scans before it,
      its difference would have been the second or later and would have exceeded the
      last recorded one by more than the jump limit. */
  ghost predicate DroppedByJump<S>(sdd: seq<S>, mean: seq<S> -> S, diffVar: (S, S) -> real, e: Extraction<S>, i: nat)
    requires i + 1 < |sdd| && |e.avg| == |e.kept| + 1 && |e.diffs| == |e.kept|
  {
    var c := CountBelow(e.kept, i);
    !Accepts(e.diffs[..c], diffVar(mean(e.avg[..c + 1] + [sdd[i + 1]]), PrevMeanOf(e.avg[..c + 1], mean)))
  }

  ghost predicate AllDroppedByJump<S>(sdd: seq<S>, mean: seq<S> -> S, diffVar: (S, S) -> real, n: nat, e: Extraction<S>)
    requires n < |sdd| && |e.avg| == |e.kept| + 1 && |e.diffs| == |e.kept|
  {
    forall i: nat :: i < n && i !in e.kept ==> DroppedByJump(sdd, mean, diffVar, e, i)
  }

  lemma DroppedStep<S>(sdd: seq<S>, mean: seq<S> -> S, diffVar: (S, S) -> real, m: nat, p: Extraction<S>)
    requires m + 1 < |sdd| && WellFormed(sdd, mean, m, p) && AllDroppedByJump(sdd, mean, diffVar, m, p)
    ensures var e := ExtractStep(p, m, sdd[m + 1], mean, diffVar);
      |e.avg| == |e.kept| + 1 && |e.diffs| == |e.kept| && AllDroppedByJump(sdd, mean, diffVar, m + 1, e)
  {
    var e := ExtractStep(p, m, sdd[m + 1], mean, diffVar);
    if e != p {
      forall i: nat | i < m + 1 && i !in e.kept
        ensures DroppedByJump(sdd, mean, diffVar, e, i)
      {
        assert i != m && i !in p.kept;
        CountBelowAppend(p.kept, m, i);
        var c := CountBelow(p.kept, i);
        assert e.diffs[..c] == p.diffs[..c];
        assert e.avg[..c + 1] == p.avg[..c + 1];
      }
    } else {
      CountBelowAll(p.kept, m);
      assert p.diffs[..|p.kept|] == p.diffs;
      assert p.avg[..|p.kept| + 1] == p.avg;
      assert DroppedByJump(sdd, mean, diffVar, p, m);
    }
  }

  /** Every loop position that was not kept was dropped by the jump test; with
      `ExtractKept` (every kept one passed it) this is the whole selection rule. */
  lemma {:induction false} ExtractDropped<S>(sdd: seq<S>, mean: seq<S> -> S, diffVar: (S, S) -> real, n: nat)
    requires 0 < |sdd| && n < |sdd|
    ensures var e := ExtractAfter(sdd, mean, diffVar, n);
      |e.avg| == |e.kept| + 1 && |e.diffs| == |e.kept| && AllDroppedByJump(sdd, mean, diffVar, n, e)
  {
    if n > 0 {
      var p := ExtractAfter(sdd, mean, diffVar, n - 1);
      ExtractDropped(sdd, mean, diffVar, n - 1);
      ExtractShape(sdd, mean, diffVar, n - 1);
      DroppedStep(sdd, mean, diffVar, n - 1, p);
    }
  }

  /** With three or more scans, the first two after the first are always kept: the
      jump test only applies from the third difference on. */
  lemma FirstTwoKept<S>(sdd: seq<S>, mean: seq<S> -> S, diffVar: (S, S) -> real, n: nat)
    requires 2 <= n < |sdd|
    ensures var e := ExtractAfter(sdd, mean, diffVar, n);
      |e.kept| >= 2 && e.kept[0] == 0 && e.kept[1] == 1
  {
    ExtractGrows(sdd, mean, diffVar, 2, n);
    var e0 := ExtractAfter(sdd, mean, diffVar, 0);
    assert e0.kept == [] && e0.diffs == [];
    var e1 := ExtractStep(e0, 0, sdd[1], mean, diffVar);
    assert e1 == ExtractAfter(sdd, mean, diffVar, 1);
    assert e1.kept == [0] && |e1.diffs| == 1;
    assert ExtractAfter(sdd, mean, diffVar, 2).kept == [0, 1];
  }
}
