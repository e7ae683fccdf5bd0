# Predicting the number of scans — a Dafny model

The SGM beamline scans a sample repeatedly. Each scan is noisy, and noisier samples
need more scans before their average is clean enough. `predict_num_scans.py` takes
the noise differences of an initial batch of scans. It forecasts further differences
with an external forecaster, and reports how many forecasts it takes before the
population variance of the most recent window of differences falls to a target.
`pns_testing.py` holds two analysis helpers:

- `lowest_variance` slides a five-value window over a list of differences and
  reports the lowest window variance.
- `interpolating_data` keeps a scan only while its running-mean difference does not
  jump too far.

The project has three modules:

- `Statistics` (`statistics.dfy`): sum, mean and population variance over `real`,
  and the windowed-variance loop both files use.
- `PredictNumScans` (`predict_num_scans.dfy`) covers three things:
  - the validation loops of `check_sample_fitness`;
  - the clip of `num_scans` in `predict_num_scans`;
  - `determine_num_scans`, both the live definition and the shadowed one.
- `PnsTesting` (`pns_testing.dfy`): `lowest_variance` and `interpolating_data`.

The stopping-rule engine is modelled as a method with the source's loops. It is
proved equal to a recursive description of the loop (`Run`/`Decide`). That
description in turn is proved equal to a closed form:

- `After(k)` is the state after `k` forecasts;
- `Verdicts` says which forecasts meet the target;
- `StoppingForecast` is the first forecast from 1 on that meets the target, or the
  52nd.

The properties are stated about the closed form:

- a returned count means the target was first met by forecast `count - 9`;
- the cap fires exactly when none of the 51 allowed forecasts meets the target;
- the result is monotone in the target;
- a negative target can never be met;
- the copied indices are consecutive.

Forecasts are never revised, and the window after `k` steps is the initial window
slid `k` places along them.

### Where the code and its documentation differ (the code is followed)

- Both docstrings of `determine_num_scans` promise `num_predictions + 1`. The code
  returns `num_predictions` (`predict_num_scans.py:114`, `:196`), and so does the
  model.
- The comments speak of the "most recent 10 differences". The initial `for` loop
  first refills the five-element slice `d_list[:5]` with the first five differences
  again, then adds the sixth. The window therefore has 11 elements, and the initial
  check is made only when a sixth difference exists (`predict_num_scans.py:144-161`).
  With five or fewer differences the window is the list twice over and no initial
  check is made. `InitialWindow` states this.
- The counter stops the loop when `num_predictions` exceeds 60. That happens on the
  52nd forecast: 51 forecasts can be accepted, and the 52nd is made, evaluated and
  then discarded by the raise, even when it meets the target.
- `check_sample_fitness` looks for an "sdd" signal only in the first scan of the
  first file, although its error message speaks of every scan
  (`SddSearchOnlyFirstScan`).

## Model

| member | source | states |
|---|---|---|
| Statistics.WindowVariance | predict_num_scans.py:178-182 | the squared-deviation loop divided by its length is the population variance of the window, and it is never negative |
| Statistics.PopVarianceNonNegative | predict_num_scans.py:178-182 | every window variance is at least zero |
| Statistics.ConstantWindowVariance | predict_num_scans.py:156-160 | a window of equal values has that value as its mean and variance zero |
| PredictNumScans.CheckSampleFitness | predict_num_scans.py:24-51 | the method's verdict is `SampleFitness`: the error raised for no files, a first file with no scan, no "sdd" signal in the first scan, or mixed samples, checked in that order, and otherwise a pass |
| PredictNumScans.FitIff | predict_num_scans.py:24-51 | data passes if and only if there is a first scan with an "sdd" signal and all scans of all files share one sample |
| PredictNumScans.SddSearchOnlyFirstScan | predict_num_scans.py:28-41 | changing the signal names of any scan other than the first leaves the verdict unchanged |
| PredictNumScans.SecondScanWithoutSddPasses | predict_num_scans.py:30-37 | a file whose second scan has no "sdd" signal still passes |
| PredictNumScans.ClipNumScans | predict_num_scans.py:231-232 | the clipped batch size is at most the request and at most the scans available, and is one of the two |
| PredictNumScans.CapError | predict_num_scans.py:189-193 | the cap failure is the RuntimeError case exactly for the default target 0.17961943 and the ValueError case for every other target |
| PredictNumScans.CapErrorClass | predict_num_scans.py:189-193 | the cap raises RuntimeError exactly for the default target 0.17961943 and ValueError for every other target |
| PredictNumScans.InitialWindow | predict_num_scans.py:144-153 | the window the initial loop leaves has 11 elements when there are six or more differences, and twice the list's length otherwise |
| PredictNumScans.Successors | predict_num_scans.py:168 | `k` appended indices make a list of length `k` |
| PredictNumScans.SuccessorsAt | predict_num_scans.py:168 | the `j`-th appended index is the last input index plus `j + 1` |
| PredictNumScans.Step | predict_num_scans.py:166-175 | one iteration grows the history and the index list by one and keeps the window length |
| PredictNumScans.After | predict_num_scans.py:164-175 | after `k` iterations the history and the index list are `k` longer and the window is non-empty |
| PredictNumScans.Forecasts | predict_num_scans.py:171 | after `k` iterations the history holds exactly `k` forecasts past the input |
| PredictNumScans.WindowSlides | predict_num_scans.py:174-175 | one more forecast slides the window: the oldest value is dropped and the forecast appended |
| PredictNumScans.ForecastsStep | predict_num_scans.py:166-171 | each iteration appends the forecast made from the current history and index list |
| PredictNumScans.AfterHistory | predict_num_scans.py:171 | the input differences stay an unaltered prefix of the history |
| PredictNumScans.AppendNextIndex | predict_num_scans.py:168 | appending the last index plus one extends the consecutive run by one |
| PredictNumScans.AfterCopied | predict_num_scans.py:140-168 | after `k` iterations the copied indices are the input's followed by the `k` consecutive indices after its last |
| PredictNumScans.AfterWindow | predict_num_scans.py:173-175 | after `k` iterations the window is the initial window slid `k` places along the forecasts |
| PredictNumScans.ForecastsStable | predict_num_scans.py:166-171 | forecasts once made are never revised: a longer run starts with the forecasts of a shorter run |
| PredictNumScans.VarianceAfterNonNegative | predict_num_scans.py:178-182 | the variance compared with the target after every forecast is at least zero |
| PredictNumScans.StoppingForecast | predict_num_scans.py:164-193 | the forecast that stops the loop lies between the one it starts from and the 52nd |
| PredictNumScans.StoppingForecastSpec | predict_num_scans.py:185-193 | the stopping forecast meets the target unless it is the 52nd, and no forecast before it meets the target |
| PredictNumScans.StoppingForecastIs | predict_num_scans.py:185-193 | any forecast with those two properties is the stopping forecast |
| PredictNumScans.Run | predict_num_scans.py:164-196 | one pass of the loop body: an IndexError at `copied_indices[-1]` or at `pop(0)` when that list is empty, otherwise a step and the end-of-body checks; a returned count exceeds the counter it started from and is at most 60, and the only failures are the two IndexErrors and the cap error |
| PredictNumScans.Decide | predict_num_scans.py:185-193 | the checks at the end of the body, target test first: once the counter passes 60 the cap error is raised even when the target is met; otherwise a met target returns the counter; any count returned lies between the counter and 60 |
| PredictNumScans.RunContinues | predict_num_scans.py:164-189 | an iteration that stays under the cap and misses the target passes the rest of the loop to the next state |
| PredictNumScans.RunStops | predict_num_scans.py:185-196 | an iteration that stays under the cap and meets the target ends the loop with the incremented count |
| PredictNumScans.RunCaps | predict_num_scans.py:169-193 | an iteration entered with the counter at 60 raises the cap error whatever its verdict |
| PredictNumScans.RunAfter | predict_num_scans.py:164-196 | from the state after `k - 1` forecasts, the loop ends as the first forecast from `k` on that meets the target dictates, or in the cap error |
| PredictNumScans.RunIsLoopResult | predict_num_scans.py:164-196 | entered with the initial window, the loop ends in the closed-form result `LoopResult` |
| PredictNumScans.RunRaisesAtOnce | predict_num_scans.py:166-174 | with no index the first iteration raises at `copied_indices[-1]`; with no difference it raises at `pop(0)` on the empty window |
| PredictNumScans.DetermineNumScans | predict_num_scans.py:117-196 | the live definition returns exactly `NumScans`: 0 when the initial check is met, otherwise the loop's closed-form result |
| PredictNumScans.PredictionLoop | predict_num_scans.py:164-196 | the `while keep_predicting` loop, over the history, copied indices, counter and window, ends as the recursive loop description does |
| PredictNumScans.DetermineNumScansShadowed | predict_num_scans.py:56-114 | the shadowed definition raises for fewer than 9 differences and otherwise returns what the live one does |
| PredictNumScans.StoppingForecastMonotone | predict_num_scans.py:185-186 | a looser verdict never makes the loop stop later |
| PredictNumScans.NumScansReturns | predict_num_scans.py:117-196 | a normal return is either 0, and then the initial check was met, or a count from 10 to 60 whose forecast is the first to bring the window variance to the target |
| PredictNumScans.NumScansZeroIff | predict_num_scans.py:149-161 | the engine returns 0 if and only if the initial check is met |
| PredictNumScans.NumScansAtFirstMet | predict_num_scans.py:164-196 | when forecast `j` is the first to meet the target, the engine returns `9 + j` |
| PredictNumScans.NumScansCapIff | predict_num_scans.py:188-193 | when the loop runs, the cap error is raised if and only if none of the 51 allowed forecasts meets the target |
| PredictNumScans.NumScansMonotone | predict_num_scans.py:160-186 | raising the target never raises the count and never turns a count into a failure |
| PredictNumScans.NegativeTargetRaises | predict_num_scans.py:185-193 | a negative target is never met, and the engine raises the ValueError for a caller-chosen target |
| PredictNumScans.FlatStartNeedsNoScans | predict_num_scans.py:149-161 | when the first six differences are equal, any target of zero or more is met by the initial check |
| PnsTesting.WindowVariances | pns_testing.py:115-132 | `n` windows give a list of `n` variances |
| PnsTesting.WindowVariancesAt | pns_testing.py:115-132 | the `k`-th variance listed is that of the five values starting at position `k` |
| PnsTesting.SlidingVariances | pns_testing.py:111-132 | the loop records one variance per window of five consecutive values, in order; `pos` ends at the last position, or 0 when no window formed |
| PnsTesting.Minimum | pns_testing.py:139 | `min` is at most every element and equal to one of them |
| PnsTesting.LowestVariance | pns_testing.py:103-140 | fewer than five values make `min` raise; otherwise the lowest window variance is reported, with the range `len - 5` through `len - 1` |
| PnsTesting.ReportedRangeIsLastWindow | pns_testing.py:138-140 | for `[0, 0, 0, 0, 0, 10]` the lowest variance (0) is that of positions 0-4, while the range reported, 1-5, has variance 16 |
| PnsTesting.ArgMinimum | pns_testing.py:139 | the position returned holds the minimum |
| PnsTesting.LowestVarianceWindow | pns_testing.py:138-140 | as intended: the range reported is a five-value window whose variance is the lowest |
| PnsTesting.Accepts | pns_testing.py:166-167 | with fewer than two earlier differences a new one is always kept; otherwise it is kept exactly when it exceeds the last one by at most 50 |
| PnsTesting.ExtractStep | pns_testing.py:160-179 | an accepted scan is appended to the kept scans together with its difference and its loop position, and their mean becomes `prev_mean`; a rejected scan leaves the state unchanged |
| PnsTesting.InterpolatingData | pns_testing.py:144-182 | no scans raise an IndexError; otherwise the differences and kept positions are those of the closed-form selection `ExtractAfter` |
| PnsTesting.ExtractShape | pns_testing.py:153-179 | the kept scans are the first scan followed by the scan after each kept position; positions are strictly increasing and below the number looked at; `prev_mean` is the mean of the kept scans |
| PnsTesting.ExtractGrows | pns_testing.py:157-179 | the loop only appends: an earlier state is a prefix of a later one |
| PnsTesting.ExtractKept | pns_testing.py:160-179 | every recorded difference is the variance of the change from the mean it was taken from to the mean of the kept scans up to its own, and passed the jump test |
| PnsTesting.ExtractDropped | pns_testing.py:166-173 | every position not kept was dropped because its difference, the third or later, exceeded the last recorded one by more than 50 |
| PnsTesting.FirstTwoKept | pns_testing.py:166-179 | with three or more scans the first two after the first are always kept |

## Left out

- Loading HDF5 files, `SGMData`, interpolation, `extracting_data`, `predict_cut_off`,
  `find_cut_off`, plotting and all printing are not part of this model. Each is I/O
  or code outside the modelled functions.
- `CheckSampleFitness`: the data loader is replaced by its result, a list of files
  each holding a list of (sample, signal names) scans, and `interpolate` is not
  modelled. The method returns the verdict and not the interpolated list.
- `ClipNumScans`: only the clip is modelled; the rest of `predict_num_scans` calls
  external code.
- The forecaster `predict` is external code. It is a function parameter of the
  differences and the copied indices, reduced to the last element of what it
  returns (`predicted_level[-1]`). Calls to it are not counted.
- Python's `int(...)` on the last copied index is the identity, because the indices
  are integers.
- Floating-point arithmetic, NaN and infinity are not modelled. Arithmetic is over
  `real`, so `np.nan_to_num` in `interpolating_data` is the identity. The equality
  test against the default target 0.17961943 is on reals.
- `Statistics.PopVariance`: the empty sequence is given variance 0 so that the
  function is total. No caller passes an empty window.
- `InterpolatingData`: the regex selection of "sdd" columns from each data frame is
  not modelled. The method takes the list of arrays it produces. The per-position
  mean over scans and the variance of a change are numpy's, passed in as `mean` and
  `diffVar`.
- `LowestVariance`: the returned sentence is modelled as its three numbers (the
  lowest variance and the two ends of the range). The string formatting and the
  printed listing of every window are left out.
- The shadowed definition's default argument is modelled as the constant
  `DefaultTarget`. Callers pass the target explicitly.

## Findings

| source | as written | input that shows it | evidently intended | confidence | as-written member | corrected member |
|---|---|---|---|---|---|---|
| pns_testing.py:138-140 | the range reported is `pos - 4` through `pos`, and `pos` is always the last position, so the range names the last window whatever window is lowest | `[0, 0, 0, 0, 0, 10]`: the lowest variance, 0, is that of positions 0-4, but the range reported is 1-5, whose variance is 16 | the range of the window that reaches the lowest variance, as the docstring promises | not executed | PnsTesting.ReportedRangeIsLastWindow | PnsTesting.LowestVarianceWindow |
