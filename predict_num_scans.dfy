/** The stopping-rule engine of `predict_num_scans.py` (`determine_num_scans`, both
    definitions), the input validation of `check_sample_fitness`, and the clip of
    the initial batch size in `predict_num_scans`. */
module PredictNumScans {
  import opened Statistics

  // ---------------------------------------------------------------------------
  // check_sample_fitness
  // ---------------------------------------------------------------------------

  /** One scan of a loaded file: the value of its `sample` entry and the names of its signals. */
  datatype Scan = Scan(sample: string, signals: seq<string>)

  /** The scans of one file, in the order the loader lists them. */
  type ScanFile = seq<Scan>

  datatype FitnessError =
    | NoScans         // ValueError: the loaded data holds no files of scans
    | NoFirstScan     // IndexError: the first file lists no scan, so `sample_name[0]` fails
    | NoSddSignal     // ValueError: no signal name of the first scan contains "sdd"
    | MixedSamples    // ValueError: some scan's sample differs from the first scan's

  datatype Fitness = Fit | Unfit(error: FitnessError)

  /** Python's `pat in s` on strings: `pat` occurs in `s` starting at some position. */
  predicate OccursAt(s: string, pat: string, k: nat)
  {
    k + |pat| <= |s| && s[k..k + |pat|] == pat
  }

  predicate Contains(s: string, pat: string)
  {
    exists k: nat | k <= |s| :: OccursAt(s, pat, k)
  }

  /** Some signal name in the list contains "sdd". */
  predicate HasSddSignal(signals: seq<string>)
  {
    exists j :: 0 <= j < |signals| && Contains(signals[j], "sdd")
  }

  /** Every scan of every file has the given sample. */
  predicate AllFromSample(files: seq<ScanFile>, sample: string)
  {
    forall f, s :: 0 <= f < |files| && 0 <= s < |files[f]| ==> files[f][s].sample == sample
  }

  /** The verdict of the three checks, in the order the source makes them. */
  function SampleFitness(files: seq<ScanFile>): Fitness
  {
    if |files| == 0 then Unfit(NoScans)
    else if |files[0]| == 0 then Unfit(NoFirstScan)
    else if !HasSddSignal(files[0][0].signals) then Unfit(NoSddSignal)
    else if !AllFromSample(files, files[0][0].sample) then Unfit(MixedSamples)
    else Fit
  }

  /** The validation part of `check_sample_fitness`: the empty check, the `while`
      search for an "sdd" signal in the first scan of the first file, and the nested
      loops comparing every scan's sample with the first one's. Loading and
      interpolation are not part of the model. */
  method CheckSampleFitness(files: seq<ScanFile>) returns (r: Fitness)
    ensures r == SampleFitness(files)
  {
    if |files| == 0 {
      return Unfit(NoScans);
    }
    if |files[0]| == 0 {
      return Unfit(NoFirstScan);
    }
    var hasSdd := false;
    var signals := files[0][0].signals;
    var i := 0;
    while i < |signals| && !hasSdd
      invariant 0 <= i <= |signals|
      decreases |signals| - i, if hasSdd then 0 else 1
      invariant hasSdd ==> i < |signals| && Contains(signals[i], "sdd")
      invariant forall j :: 0 <= j < i ==> !Contains(signals[j], "sdd")
    {
      if Contains(signals[i], "sdd") {
        hasSdd := true;
      } else {
        i := i + 1;
      }
    }
    if !hasSdd {
      return Unfit(NoSddSignal);
    }
    var sampleType := files[0][0].sample;
    for f := 0 to |files|
      invariant forall g, s :: 0 <= g < f && 0 <= s < |files[g]| ==> files[g][s].sample == sampleType
    {
      for s := 0 to |files[f]|
        invariant forall g, t :: 0 <= g < f && 0 <= t < |files[g]| ==> files[g][t].sample == sampleType
        invariant forall t :: 0 <= t < s ==> files[f][t].sample == sampleType
      {
        if files[f][s].sample != sampleType {
          return Unfit(MixedSamples);
        }
      }
    }
    return Fit;
  }

  /** Data passes exactly when it has a first scan with an "sdd" signal and every
      scan, in every file, comes from one sample. */
  lemma FitIff(files: seq<ScanFile>)
    ensures SampleFitness(files) == Fit <==>
              |files| > 0 && |files[0]| > 0 && HasSddSignal(files[0][0].signals) &&
              forall f, g, s, t :: 0 <= f < |files| && 0 <= s < |files[f]| &&
                                   0 <= g < |files| && 0 <= t < |files[g]| ==>
                                     files[f][s].sample == files[g][t].sample
  {
    if |files| > 0 && |files[0]| > 0 &&
       forall f, g, s, t :: 0 <= f < |files| && 0 <= s < |files[f]| &&
                            0 <= g < |files| && 0 <= t < |files[g]| ==>
                              files[f][s].sample == files[g][t].sample
    {
      forall f, s | 0 <= f < |files| && 0 <= s < |files[f]|
        ensures files[f][s].sample == files[0][0].sample
      {
        assert 0 < |files[0]|;
      }
    }
  }

  /** Only the first scan of the first file is searched for an "sdd" signal: the
      signal names of every other scan never change the verdict. */
  lemma SddSearchOnlyFirstScan(files: seq<ScanFile>, f: nat, s: nat, signals: seq<string>)
    requires f < |files| && s < |files[f]| && (f, s) != (0, 0)
    ensures SampleFitness(files[f := files[f][s := Scan(files[f][s].sample, signals)]])
         == SampleFitness(files)
  {
    var files' := files[f := files[f][s := Scan(files[f][s].sample, signals)]];
    if |files[0]| > 0 {
      assert files'[0][0] == files[0][0];
      forall g, t | 0 <= g < |files| && 0 <= t < |files[g]|
        ensures files'[g][t].sample == files[g][t].sample
      {
      }
    }
  }

  /** A two-scan file whose second scan has no "sdd" signal at all still passes. */
  lemma SecondScanWithoutSddPasses()
    ensures SampleFitness([[Scan("C", ["sdd1_0"]), Scan("C", ["i0"])]]) == Fit
  {
    var files: seq<ScanFile> := [[Scan("C", ["sdd1_0"]), Scan("C", ["i0"])]];
    assert OccursAt("sdd1_0", "sdd", 0);
    assert Contains(files[0][0].signals[0], "sdd");
  }

  // ---------------------------------------------------------------------------
  // predict_num_scans: the batch-size clip
  // ---------------------------------------------------------------------------

  /** `num_scans` is lowered to the number of interpolated scans when it is at least that many. */
  function ClipNumScans(numScans: int, available: nat): (n: int)
    ensures n <= numScans && n <= available
    ensures n == numScans || n == available
  {
    if numScans >= available then available else numScans
  }

  // ---------------------------------------------------------------------------
  // determine_num_scans
  // ---------------------------------------------------------------------------

  /** The default target of the shadowed definition; the cap check compares against it. */
  const DefaultTarget: real := 0.17961943
  /** `num_predictions` before the first forecast. */
  const InitialCount: int := 9
  /** The engine raises as soon as `num_predictions` exceeds this. */
  const MaxCount: int := 60
  /** The most forecasts one run asks for: the 52nd brings the counter to 61. */
  const MaxForecasts: nat := 52

  /** The external forecaster `predict(d_list, indices)`, reduced to the last element
      of the sequence it returns. */
  type Forecaster = (seq<real>, seq<int>) -> real

  /** The statistic of the window the loop compares with the target. The engine uses
      the population variance; the loop's recursive description is stated for any
      statistic, and `NumScans` instantiates it. */
  type Statistic = seq<real> -> real

  datatype PyException = ValueError | RuntimeError | IndexError

  datatype EngineError =
    | TooFewDifferences   // shadowed definition only: fewer than 9 differences
    | CannotPredict       // the cap was reached with the default target
    | TargetUnreachable   // the cap was reached with any other target
    | NoLastIndex         // `copied_indices[-1]` on an empty index list
    | EmptyWindow         // `recent_differences.pop(0)` on an empty window

  datatype Outcome = Scans(count: int) | Raised(error: EngineError)

  /** The Python exception each failure is raised as. */
  function ExceptionClass(e: EngineError): PyException
  {
    match e
    case TooFewDifferences => ValueError
    case CannotPredict => RuntimeError
    case TargetUnreachable => ValueError
    case NoLastIndex => IndexError
    case EmptyWindow => IndexError
  }

  /** The failure raised when the counter passes the cap. */
  function CapError(target: real): (e: EngineError)
    ensures e == CannotPredict <==> target == DefaultTarget
    ensures e == TargetUnreachable <==> target != DefaultTarget
  {
    if target == DefaultTarget then CannotPredict else TargetUnreachable
  }

  /** The cap failure is a RuntimeError exactly for the default target, a ValueError otherwise. */
  lemma CapErrorClass(target: real)
    ensures ExceptionClass(CapError(target)) == RuntimeError <==> target == DefaultTarget
    ensures ExceptionClass(CapError(target)) == ValueError <==> target != DefaultTarget
  {
  }

  /** The window left by the initial `for` loop: the first five differences, then the
      first five again and the sixth; with five or fewer differences there is no
      sixth element and the window is the list twice over. */
  function InitialWindow(d: seq<real>): (w: seq<real>)
    ensures |w| == if |d| >= 6 then 11 else 2 * |d|
  {
    if |d| >= 6 then d[..5] + d[..5] + [d[5]] else d + d
  }

  /** The initial check returns 0: there is a sixth difference, and the 11-element
      window's variance is at or below the target. */
  predicate InitialCheckMet(d: seq<real>, target: real)
  {
    |d| >= 6 && PopVariance(InitialWindow(d)) <= target
  }

  /** The indices appended by `k` iterations: each is one more than the last. */
  function Successors(last: int, k: nat): (r: seq<int>)
    ensures |r| == k
  {
    if k == 0 then [] else Successors(last, k - 1) + [last + k]
  }

  /** The `j`-th appended index is `last + 1 + j`: consecutive, starting right after `last`. */
  lemma {:induction false} SuccessorsAt(last: int, k: nat)
    ensures forall j :: 0 <= j < k ==> Successors(last, k)[j] == last + 1 + j
  {
    if k > 0 {
      SuccessorsAt(last, k - 1);
    }
  }

  /** What one run of the prediction loop body carries into the next: the history
      `d_list` with the forecasts appended, the copied index list, and the window. */
  datatype LoopState = LoopState(history: seq<real>, copied: seq<int>, window: seq<real>)

  /** One iteration of the loop body that does not raise: forecast from the history
      and the index list, append the forecast to the history, append the last index
      plus one, and slide the window by one. */
  function Step(s: LoopState, predict: Forecaster): (t: LoopState)
    requires |s.copied| > 0 && |s.window| > 0
    ensures |t.history| == |s.history| + 1 && |t.copied| == |s.copied| + 1 && |t.window| == |s.window|
  {
    LoopState(s.history + [predict(s.history, s.copied)],
              s.copied + [s.copied[|s.copied| - 1] + 1],
              s.window[1..] + [predict(s.history, s.copied)])
  }

  /** The loop state after `k` iterations that did not raise. */
  function After(d: seq<real>, indices: seq<int>, predict: Forecaster, k: nat): (s: LoopState)
    requires |indices| > 0 && |d| > 0
    ensures |s.history| == |d| + k && |s.copied| == |indices| + k && |s.window| > 0
  {
    if k == 0 then LoopState(d, indices, InitialWindow(d))
    else Step(After(d, indices, predict, k - 1), predict)
  }

  /** The first `k` forecasts, as they stand in the history after `k` iterations. */
  function Forecasts(d: seq<real>, indices: seq<int>, predict: Forecaster, k: nat): (f: seq<real>)
    requires |indices| > 0 && |d| > 0
    ensures |f| == k
  {
    After(d, indices, predict, k).history[|d|..]
  }

  /** The window after `k` forecasts: the initial window followed by the forecasts,
      with the first `k` elements slid out. */
  function WindowAfter(w0: seq<real>, f: seq<real>, k: nat): seq<real>
    requires k <= |f|
  {
    (w0 + f)[k..k + |w0|]
  }

  /** Sliding the window by one forecast: drop the oldest element, append the new one. */
  lemma WindowSlides(w0: seq<real>, f: seq<real>, x: real)
    requires |w0| > 0
    ensures WindowAfter(w0, f + [x], |f| + 1) == WindowAfter(w0, f, |f|)[1..] + [x]
  {
    var k := |f|;
    assert w0 + (f + [x]) == (w0 + f) + [x];
    assert WindowAfter(w0, f, k)[1..] == (w0 + f)[k + 1..k + |w0|];
  }

  /** Each iteration appends one forecast: the forecasts of `k + 1` iterations are
      those of `k` followed by the forecast made from the state `k` iterations left. */
  lemma ForecastsStep(d: seq<real>, indices: seq<int>, predict: Forecaster, k: nat)
    requires |indices| > 0 && |d| > 0
    ensures var s := After(d, indices, predict, k);
      Forecasts(d, indices, predict, k + 1) == Forecasts(d, indices, predict, k) + [predict(s.history, s.copied)]
  {
    var s := After(d, indices, predict, k);
    var x := predict(s.history, s.copied);
    assert After(d, indices, predict, k + 1).history == s.history + [x];
    assert (s.history + [x])[|d|..] == s.history[|d|..] + [x];
  }

  /** The input history is never altered: it stays the prefix that the forecasts follow. */
  lemma {:induction false} AfterHistory(d: seq<real>, indices: seq<int>, predict: Forecaster, k: nat)
    requires |indices| > 0 && |d| > 0
    ensures After(d, indices, predict, k).history == d + Forecasts(d, indices, predict, k)
  {
    if k > 0 {
      AfterHistory(d, indices, predict, k - 1);
      ForecastsStep(d, indices, predict, k - 1);
      var p := After(d, indices, predict, k - 1);
      var x := predict(p.history, p.copied);
      assert After(d, indices, predict, k).history == p.history + [x];
      assert (d + Forecasts(d, indices, predict, k - 1)) + [x] == d + (Forecasts(d, indices, predict, k - 1) + [x]);
    }
  }

  /** Appending the last index plus one extends the consecutive run by one. */
  lemma AppendNextIndex(indices: seq<int>, k: nat)
    requires |indices| > 0
    ensures var c := indices + Successors(indices[|indices| - 1], k);
      c + [c[|c| - 1] + 1] == indices + Successors(indices[|indices| - 1], k + 1)
  {
    var last := indices[|indices| - 1];
    var c := indices + Successors(last, k);
    if k > 0 {
      assert Successors(last, k) == Successors(last, k - 1) + [last + k];
      assert c[|c| - 1] == last + k;
    }
    assert indices + (Successors(last, k) + [last + k + 1]) == c + [last + k + 1];
  }

  /** The copied index list is the input's followed by the `k` consecutive indices after its last. */
  lemma {:induction false} AfterCopied(d: seq<real>, indices: seq<int>, predict: Forecaster, k: nat)
    requires |indices| > 0 && |d| > 0
    ensures After(d, indices, predict, k).copied == indices + Successors(indices[|indices| - 1], k)
  {
    if k > 0 {
      AfterCopied(d, indices, predict, k - 1);
      AppendNextIndex(indices, k - 1);
      var p := After(d, indices, predict, k - 1);
      assert After(d, indices, predict, k).copied == p.copied + [p.copied[|p.copied| - 1] + 1];
    }
  }

  /** The window after `k` iterations is the initial window slid `k` places along the forecasts. */
  lemma {:induction false} AfterWindow(d: seq<real>, indices: seq<int>, predict: Forecaster, k: nat)
    requires |indices| > 0 && |d| > 0
    ensures After(d, indices, predict, k).window == WindowAfter(InitialWindow(d), Forecasts(d, indices, predict, k), k)
  {
    if k > 0 {
      AfterWindow(d, indices, predict, k - 1);
      ForecastsStep(d, indices, predict, k - 1);
      var p := After(d, indices, predict, k - 1);
      WindowSlides(InitialWindow(d), Forecasts(d, indices, predict, k - 1), predict(p.history, p.copied));
    }
  }

  /** Forecasts once made are never revised: the first `j` forecasts of a longer run
      are those of a run of `j` iterations. */
  lemma {:induction false} ForecastsStable(d: seq<real>, indices: seq<int>, predict: Forecaster, j: nat, k: nat)
    requires |indices| > 0 && |d| > 0 && j <= k
    ensures Forecasts(d, indices, predict, j) == Forecasts(d, indices, predict, k)[..j]
    decreases k
  {
    if j < k {
      ForecastsStable(d, indices, predict, j, k - 1);
      ForecastsStep(d, indices, predict, k - 1);
      assert Forecasts(d, indices, predict, k)[..k - 1] == Forecasts(d, indices, predict, k - 1);
    }
  }

  /** The windowed variance the engine compares with the target after forecast `k`. */
  function VarianceAfter(d: seq<real>, indices: seq<int>, predict: Forecaster, variance: Statistic, k: nat): real
    requires |indices| > 0 && |d| > 0
  {
    variance(After(d, indices, predict, k).window)
  }

  lemma VarianceAfterNonNegative(d: seq<real>, indices: seq<int>, predict: Forecaster, k: nat)
    requires |indices| > 0 && |d| > 0
    ensures VarianceAfter(d, indices, predict, PopVariance, k) >= 0.0
  {
    PopVarianceNonNegative(After(d, indices, predict, k).window);
  }

  /** Which forecasts meet the target: `Verdicts(...)(k)` holds when the window
      variance after forecast `k` is at or below the target. */
  function Verdicts(d: seq<real>, indices: seq<int>, target: real, predict: Forecaster, variance: Statistic): (met: nat -> bool)
    requires |indices| > 0 && |d| > 0
  {
    (k: nat) => VarianceAfter(d, indices, predict, variance, k) <= target
  }

  /** The forecast that ends the prediction loop when it starts looking at forecast
      `k`: the first from `k` on that meets the target, or the 52nd, whose counter
      value 61 trips the circuit breaker whatever its verdict. */
  function StoppingForecast(met: nat -> bool, k: nat): (j: nat)
    requires 1 <= k <= MaxForecasts
    ensures k <= j <= MaxForecasts
    decreases MaxForecasts - k
  {
    if k == MaxForecasts || met(k) then k else StoppingForecast(met, k + 1)
  }

  /** The stopping forecast meets the target unless it is the 52nd, and none before it
      (from `k` on) does. */
  lemma {:induction false} StoppingForecastSpec(met: nat -> bool, k: nat)
    requires 1 <= k <= MaxForecasts
    ensures var j := StoppingForecast(met, k);
      (j < MaxForecasts ==> met(j)) && forall i :: k <= i < j ==> !met(i)
    decreases MaxForecasts - k
  {
    if k < MaxForecasts && !met(k) {
      StoppingForecastSpec(met, k + 1);
    }
  }

  /** What the loop returns when forecast `j` stops it. */
  function LoopOutcome(j: nat, target: real): (r: Outcome)
  {
    if InitialCount + j > MaxCount then Raised(CapError(target)) else Scans(InitialCount + j)
  }

  /** What the prediction loop ends in: an IndexError on the first iteration when
      there is no last index or no window element to pop, otherwise the outcome of
      the forecast that stops it. */
  function LoopResult(d: seq<real>, indices: seq<int>, target: real, predict: Forecaster, variance: Statistic): (r: Outcome)
  {
    if |indices| == 0 then Raised(NoLastIndex)
    else if |d| == 0 then Raised(EmptyWindow)
    else LoopOutcome(StoppingForecast(Verdicts(d, indices, target, predict, variance), 1), target)
  }

  /** The outcome of `determine_num_scans` (the live definition). */
  function NumScans(d: seq<real>, indices: seq<int>, target: real, predict: Forecaster): (r: Outcome)
  {
    if InitialCheckMet(d, target) then Scans(0) else LoopResult(d, indices, target, predict, PopVariance)
  }

  /** The stopping forecast is characterised by its contract: any `j` that meets it is it. */
  lemma {:induction false} StoppingForecastIs(met: nat -> bool, k: nat, j: nat)
    requires 1 <= k <= j <= MaxForecasts
    requires j < MaxForecasts ==> met(j)
    requires forall i :: k <= i < j ==> !met(i)
    ensures StoppingForecast(met, k) == j
    decreases j - k
  {
    if k < j {
      StoppingForecastIs(met, k + 1, j);
    }
  }

  /** The prediction loop as a recursive function of the state it enters an iteration
      with; `count` is `num_predictions` at that point. The body raises an IndexError
      when there is no last index to copy or no window element to pop, in that order;
      otherwise it makes one step and comes to the checks at its end. */
  function Run(s: LoopState, count: int, target: real, predict: Forecaster, variance: Statistic): (r: Outcome)
    requires count <= MaxCount
    ensures r.Scans? ==> count < r.count <= MaxCount
    ensures r.Raised? ==> r.error in {NoLastIndex, EmptyWindow, CapError(target)}
    decreases MaxCount - count, 1
  {
    if |s.copied| == 0 then Raised(NoLastIndex)
    else if |s.window| == 0 then Raised(EmptyWindow)
    else Decide(Step(s, predict), count + 1, target, predict, variance)
  }

  /** The checks at the end of the loop body, made with the stepped state and the
      incremented counter: a met target ends the loop, but the counter check comes
      after it and wins even then. */
  function Decide(t: LoopState, count: int, target: real, predict: Forecaster, variance: Statistic): (r: Outcome)
    requires count <= MaxCount + 1 && |t.window| > 0
    ensures count > MaxCount ==> r == Raised(CapError(target))
    ensures count <= MaxCount && variance(t.window) <= target ==> r == Scans(count)
    ensures r.Scans? ==> count <= r.count <= MaxCount
    ensures r.Raised? ==> r.error in {NoLastIndex, EmptyWindow, CapError(target)}
    decreases MaxCount + 1 - count, 0
  {
    if count > MaxCount then Raised(CapError(target))
    else if variance(t.window) <= target then Scans(count)
    else Run(t, count, target, predict, variance)
  }

  /** One iteration that neither raises nor meets the target hands the rest of the
      loop to the next state. */
  lemma RunContinues(s: LoopState, count: int, target: real, predict: Forecaster, variance: Statistic)
    requires count + 1 <= MaxCount && |s.copied| > 0 && |s.window| > 0
    requires !(variance(Step(s, predict).window) <= target)
    ensures Run(s, count, target, predict, variance) == Run(Step(s, predict), count + 1, target, predict, variance)
  {
    assert Decide(Step(s, predict), count + 1, target, predict, variance) == Run(Step(s, predict), count + 1, target, predict, variance);
  }

  /** One iteration that meets the target within the cap ends the loop with the
      incremented count. */
  lemma RunStops(s: LoopState, count: int, target: real, predict: Forecaster, variance: Statistic)
    requires count + 1 <= MaxCount && |s.copied| > 0 && |s.window| > 0
    requires variance(Step(s, predict).window) <= target
    ensures Run(s, count, target, predict, variance) == Scans(count + 1)
  {
    assert Decide(Step(s, predict), count + 1, target, predict, variance) == Scans(count + 1);
  }

  /** An iteration entered with the counter at the cap raises, whatever its verdict. */
  lemma RunCaps(s: LoopState, count: int, target: real, predict: Forecaster, variance: Statistic)
    requires count == MaxCount && |s.copied| > 0 && |s.window| > 0
    ensures Run(s, count, target, predict, variance) == Raised(CapError(target))
  {
    assert Decide(Step(s, predict), count + 1, target, predict, variance) == Raised(CapError(target));
  }

  /** From the state after `k - 1` forecasts on, the loop ends as the first forecast
      from `k` on that meets the target, or the cap, say. */
  lemma {:induction false} RunAfter(d: seq<real>, indices: seq<int>, target: real, predict: Forecaster, met: nat -> bool,
                                    variance: Statistic, s: LoopState, count: int, k: nat)
    requires |indices| > 0 && |d| > 0 && 1 <= k <= MaxForecasts
    requires met == Verdicts(d, indices, target, predict, variance)
    requires s == After(d, indices, predict, k - 1) && count == InitialCount + k - 1
    ensures Run(s, count, target, predict, variance) == LoopOutcome(StoppingForecast(met, k), target)
    decreases MaxForecasts - k
  {
    var t := Step(s, predict);
    assert t == After(d, indices, predict, k);
    if k == MaxForecasts {
      RunCaps(s, count, target, predict, variance);
    } else if met(k) {
      RunStops(s, count, target, predict, variance);
    } else {
      RunContinues(s, count, target, predict, variance);
      RunAfter(d, indices, target, predict, met, variance, t, count + 1, k + 1);
    }
  }

  /** The recursive loop agrees with the closed form: entered with the initial window,
      it ends in `LoopResult`. */
  lemma RunIsLoopResult(d: seq<real>, indices: seq<int>, target: real, predict: Forecaster, variance: Statistic)
    ensures Run(LoopState(d, indices, InitialWindow(d)), InitialCount, target, predict, variance)
         == LoopResult(d, indices, target, predict, variance)
  {
    if |indices| > 0 && |d| > 0 {
      RunAfter(d, indices, target, predict, Verdicts(d, indices, target, predict, variance), variance,
               LoopState(d, indices, InitialWindow(d)), InitialCount, 1);
    } else {
      RunRaisesAtOnce(d, indices, target, predict, variance);
    }
  }

  /** Without a last index, or with no difference to seed the window, the first
      iteration raises. */
  lemma RunRaisesAtOnce(d: seq<real>, indices: seq<int>, target: real, predict: Forecaster, variance: Statistic)
    requires |indices| == 0 || |d| == 0
    ensures Run(LoopState(d, indices, InitialWindow(d)), InitialCount, target, predict, variance)
         == if |indices| == 0 then Raised(NoLastIndex) else Raised(EmptyWindow)
  {
  }

  /** The live `determine_num_scans(d_list, indices, desired_difference)`: the initial
      check over a window seeded with the first five differences, then the prediction
      loop. */
  method DetermineNumScans(d: seq<real>, indices: seq<int>, target: real, predict: Forecaster)
    returns (r: Outcome)
    ensures r == NumScans(d, indices, target, predict)
  {
    var recentDifferences := d[..if |d| < 5 then |d| else 5];
    for i := 0 to |d|
      invariant i <= 5 ==> recentDifferences == d[..if |d| < 5 then |d| else 5] + d[..i]
      invariant i >= 6 ==> recentDifferences == InitialWindow(d) && !InitialCheckMet(d, target)
    {
      if |recentDifferences| < 10 {
        assert d[..i + 1] == d[..i] + [d[i]];
        recentDifferences := recentDifferences + [d[i]];
      } else if |recentDifferences| == 10 {
        assert d[..i + 1] == d[..i] + [d[i]];
        recentDifferences := recentDifferences + [d[i]];
        var v := WindowVariance(recentDifferences);
        if v <= target {
          return Scans(0);
        }
      }
    }
    assert |d| <= 5 ==> d[..|d|] == d;
    r := PredictionLoop(d, indices, recentDifferences, target, predict);
    RunIsLoopResult(d, indices, target, predict, PopVariance);
  }

  /** The `while keep_predicting` loop of `determine_num_scans`, entered with the
      history, the index list and the window the initial check left. The caller's
      lists are values, so the copy of `indices` and the rebinding of `d_list` are
      local variables. */
  method PredictionLoop(d: seq<real>, indices: seq<int>, window: seq<real>, target: real, predict: Forecaster)
    returns (r: Outcome)
    ensures r == Run(LoopState(d, indices, window), InitialCount, target, predict, PopVariance)
  {
    var copiedIndices := indices;
    var numPredictions := InitialCount;
    var keepPredicting := true;
    var recentDifferences := window;
    var variances: seq<real> := [];
    var dList := d;
    ghost var start := LoopState(d, indices, window);
    ghost var state := start;
    while keepPredicting
      invariant InitialCount <= numPredictions <= MaxCount
      invariant |recentDifferences| == |window|
      invariant state.history == dList && state.copied == copiedIndices && state.window == recentDifferences
      invariant keepPredicting ==>
                  Run(state, numPredictions, target, predict, PopVariance) == Run(start, InitialCount, target, predict, PopVariance)
      invariant !keepPredicting ==>
                  Run(start, InitialCount, target, predict, PopVariance) == Scans(numPredictions)
      decreases MaxCount - numPredictions
    {
      var predicted := predict(dList, copiedIndices);
      if |copiedIndices| == 0 {
        return Raised(NoLastIndex);
      }
      copiedIndices := copiedIndices + [copiedIndices[|copiedIndices| - 1] + 1];
      numPredictions := numPredictions + 1;
      dList := dList + [predicted];
      if |recentDifferences| == 0 {
        return Raised(EmptyWindow);
      }
      recentDifferences := recentDifferences[1..] + [predicted];
      ghost var before := state;
      state := Step(state, predict);
      var v := WindowVariance(recentDifferences);
      variances := variances + [v];
      if variances[|variances| - 1] <= target {
        keepPredicting := false;
      }
      if numPredictions > MaxCount {
        RunCaps(before, numPredictions - 1, target, predict, PopVariance);
        return Raised(CapError(target));
      }
      if keepPredicting {
        RunContinues(before, numPredictions - 1, target, predict, PopVariance);
      } else {
        RunStops(before, numPredictions - 1, target, predict, PopVariance);
      }
    }
    return Scans(numPredictions);
  }

  /** The shadowed first definition of `determine_num_scans`: the same engine behind a
      guard that rejects fewer than 9 differences before anything is forecast. Its
      default target is `DefaultTarget`. */
  method DetermineNumScansShadowed(d: seq<real>, indices: seq<int>, target: real, predict: Forecaster)
    returns (r: Outcome)
    ensures |d| < 9 ==> r == Raised(TooFewDifferences)
    ensures |d| >= 9 ==> r == NumScans(d, indices, target, predict)
  {
    if |d| < 9 {
      return Raised(TooFewDifferences);
    }
    r := DetermineNumScans(d, indices, target, predict);
  }

  // ---------------------------------------------------------------------------
  // Properties of the engine
  // ---------------------------------------------------------------------------

  /** Forecast `j` is the first to meet the target, before the cap intervenes. */
  predicate FirstMet(met: nat -> bool, j: nat)
  {
    1 <= j < MaxForecasts && met(j) && forall i :: 1 <= i < j ==> !met(i)
  }

  /** None of the 51 forecasts the cap allows meets the target. */
  predicate NeverMet(met: nat -> bool)
  {
    forall i :: 1 <= i < MaxForecasts ==> !met(i)
  }

  /** A stricter verdict stops the loop no earlier: when every forecast that meets
      `m1` also meets `m2`, the loop under `m2` stops at or before the loop under `m1`. */
  lemma {:induction false} StoppingForecastMonotone(m1: nat -> bool, m2: nat -> bool, k: nat)
    requires 1 <= k <= MaxForecasts
    requires forall i :: m1(i) ==> m2(i)
    ensures StoppingForecast(m2, k) <= StoppingForecast(m1, k)
    decreases MaxForecasts - k
  {
    if k < MaxForecasts && !m1(k) && !m2(k) {
      StoppingForecastMonotone(m1, m2, k + 1);
    }
  }

  /** A normal return is 0, exactly when the initial check is met, or a count from
      10 to 60 whose forecast is the first to bring the window variance to the target. */
  lemma NumScansReturns(d: seq<real>, indices: seq<int>, target: real, predict: Forecaster)
    requires NumScans(d, indices, target, predict).Scans?
    ensures var r := NumScans(d, indices, target, predict).count;
      (r == 0 && InitialCheckMet(d, target)) ||
      (InitialCount + 1 <= r <= MaxCount && !InitialCheckMet(d, target) &&
       |indices| > 0 && |d| > 0 &&
       FirstMet(Verdicts(d, indices, target, predict, PopVariance), r - InitialCount))
  {
    if !InitialCheckMet(d, target) {
      StoppingForecastSpec(Verdicts(d, indices, target, predict, PopVariance), 1);
    }
  }

  /** The engine returns 0 if and only if the initial check is met. */
  lemma NumScansZeroIff(d: seq<real>, indices: seq<int>, target: real, predict: Forecaster)
    ensures NumScans(d, indices, target, predict) == Scans(0) <==> InitialCheckMet(d, target)
  {
  }

  /** Conversely, when the loop runs and forecast `j` is the first to meet the target,
      the engine returns `9 + j`. */
  lemma NumScansAtFirstMet(d: seq<real>, indices: seq<int>, target: real, predict: Forecaster, j: nat)
    requires !InitialCheckMet(d, target) && |indices| > 0 && |d| > 0
    requires FirstMet(Verdicts(d, indices, target, predict, PopVariance), j)
    ensures NumScans(d, indices, target, predict) == Scans(InitialCount + j)
  {
    StoppingForecastIs(Verdicts(d, indices, target, predict, PopVariance), 1, j);
  }

  /** When the loop runs, the circuit breaker fires if and only if none of the 51
      forecasts it allows meets the target; the 52nd is made and then discarded. */
  lemma NumScansCapIff(d: seq<real>, indices: seq<int>, target: real, predict: Forecaster)
    requires !InitialCheckMet(d, target) && |indices| > 0 && |d| > 0
    ensures NumScans(d, indices, target, predict) == Raised(CapError(target))
            <==> NeverMet(Verdicts(d, indices, target, predict, PopVariance))
  {
    var met := Verdicts(d, indices, target, predict, PopVariance);
    if NeverMet(met) {
      StoppingForecastIs(met, 1, MaxForecasts);
    } else {
      StoppingForecastSpec(met, 1);
    }
  }

  /** Raising the target never raises the count, and never turns a count into a failure. */
  lemma NumScansMonotone(d: seq<real>, indices: seq<int>, t1: real, t2: real, predict: Forecaster)
    requires t1 <= t2
    requires NumScans(d, indices, t1, predict).Scans?
    ensures NumScans(d, indices, t2, predict).Scans?
    ensures NumScans(d, indices, t2, predict).count <= NumScans(d, indices, t1, predict).count
  {
    if !InitialCheckMet(d, t2) {
      assert !InitialCheckMet(d, t1);
      var m1 := Verdicts(d, indices, t1, predict, PopVariance);
      var m2 := Verdicts(d, indices, t2, predict, PopVariance);
      forall i ensures m1(i) ==> m2(i) {
      }
      StoppingForecastMonotone(m1, m2, 1);
    }
  }

  /** A target below zero can never be met: the engine raises the ValueError of a
      caller-chosen target once 52 forecasts have been made. */
  lemma NegativeTargetRaises(d: seq<real>, indices: seq<int>, target: real, predict: Forecaster)
    requires target < 0.0 && |indices| > 0 && |d| > 0
    ensures NumScans(d, indices, target, predict) == Raised(TargetUnreachable)
  {
    PopVarianceNonNegative(InitialWindow(d));
    assert !InitialCheckMet(d, target);
    var met := Verdicts(d, indices, target, predict, PopVariance);
    forall i: nat | 1 <= i < MaxForecasts ensures !met(i) {
      VarianceAfterNonNegative(d, indices, predict, i);
    }
    assert NeverMet(met);
    NumScansCapIff(d, indices, target, predict);
  }

  /** When the first six differences are equal, the initial window is constant and any
      target of zero or more is already met. */
  lemma FlatStartNeedsNoScans(d: seq<real>, indices: seq<int>, target: real, predict: Forecaster)
    requires |d| >= 6 && target >= 0.0
    requires forall i :: 0 <= i < 6 ==> d[i] == d[0]
    ensures NumScans(d, indices, target, predict) == Scans(0)
  {
    var w := InitialWindow(d);
    assert |w| == 11;
    forall i | 0 <= i < |w| ensures w[i] == w[0] {
      if i < 5 { assert w[i] == d[i]; }
      else if i < 10 { assert w[i] == d[i - 5]; }
      else { assert w[i] == d[5]; }
    }
    ConstantWindowVariance(w);
  }
}
