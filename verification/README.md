# perfometer benchmarking core in Dafny

This project models the two functions of `perfometer/_core.py` that hold the
library's logic:

- `get_required_sample_size` estimates how many timings are needed. The mean
  of the sample must be known within `allowed_deviation` at the chosen
  confidence, under the normal approximation. The estimate is
  `max(2, ceil((z·s/d)²))`, where `s` is the sample standard deviation.
- `benchmark` is the adaptive loop. It makes `min_runs + warmup` runs and
  drops the warmup timing. It then adds one run at a time until the number
  of timings reaches the estimator's current answer. It checks the time
  budget after every run.

The modules are:

- `Outcomes` holds the `Error`/`Result` datatypes for the four ways a call
  can end:
  - too few points for `statistics.stdev`;
  - division by a zero allowed deviation;
  - the `ValueError` raised when the time budget is exceeded;
  - an exception raised by the benchmarked operation.
- `Stats` holds exact real-number versions of `sum`, the mean inside
  `statistics.stdev`, the Bessel-corrected variance (the square of `statistics.stdev`) and
  `math.ceil`.
- `SampleSize` holds the estimator. The z-value is a real parameter. The
  target `(z·s/d)²` is written as `z²·var/d²`, so no square root is needed.
  `TargetIsSquaredMargin` shows the two forms agree.
- `Benchmark` holds the loop. The timer and the benchmarked call are
  replaced by a finite stream of durations. Run `i` (counting from 0) takes
  `ds[i]`. The run after the last element is the one on which the operation
  raises.
  - The method `Run` follows the code: `InitialPhase`, then `Trim`, then
    `ConvergencePhase`.
  - Its postcondition is the declarative predicate `IsOutcome`. It
    describes the result by the point where the call stops, not by the loop.
  - `OutcomeDeterministic` proves that at most one result satisfies
    `IsOutcome`. So `Run`'s postcondition fixes its result completely.

Three behaviours of the code are easy to misread:

- Under exact arithmetic only `allowed_deviation == 0` fails, with a
  `ZeroDivisionError` at line 23 (floats add an `OverflowError` for a tiny
  non-zero deviation; see Left out). A negative deviation is squared away
  and behaves like its absolute value: `RequiredSizeSignInsensitive`.
- `check_max_time` sums whatever the name `timings` is bound to when it
  runs (line 76). Line 97 rebinds that name to the trimmed list. So the
  warmup duration counts against `max_time` during the initial runs and not
  afterwards: `BudgetWindowDropsOnlyWarmup`, `WarmupCountsDuringInitialRuns`
  and `WarmupLeavesBudgetAfterTrim`.
- `min_runs < 2` fails the first convergence check with too few points,
  with or without warmup, because the warmup timing is dropped before that
  check: `TooFewKeptFailsFirstCheck`.

## Model

| member | source | states |
|---|---|---|
| Stats.Sum | perfometer/_core.py:76 | the left-to-right total `sum` that `check_max_time` compares with `max_time` |
| Stats.Mean | perfometer/_core.py:22 | the arithmetic mean that `statistics.stdev` measures deviations from |
| SampleSize.Target | perfometer/_core.py:23 | the target (z·s/d)², written as z²·var/d², is never negative |
| SampleSize.TargetZeroIff | perfometer/_core.py:22-23 | the target is 0 exactly when z is 0 or every timing is equal |
| Benchmark.InitialRuns | perfometer/_core.py:93 | `range(min_runs + warmup)` makes that many runs when the sum is positive and none otherwise |
| Benchmark.Dropped | perfometer/_core.py:97 | `timings[1:]` removes one timing exactly when warmup is on and at least one run was made, and none otherwise |
| Benchmark.BudgetWindowDropsOnlyWarmup | perfometer/_core.py:75-97 | the list `check_max_time` sums after run n is the latest durations in execution order, and it lacks exactly the warmup duration once the initial runs are over, and nothing before |
| Benchmark.NeedsMore | perfometer/_core.py:99 | the loop condition holds only with at least 2 timings, a non-zero deviation and fewer timings than the target |
| Benchmark.Converged | perfometer/_core.py:99 | the loop condition is false without error exactly when the estimator answers and does not ask for more; then the sample has at least 2 timings and reaches the target |
| Benchmark.IsOutcome | perfometer/_core.py:28-102 | how a call ends: success with the post-warmup sample at the first converged check after surviving every earlier run; the budget error with the total of the first failing check; the target's exception on the run past the stream; or an estimator error at the first check |
| Benchmark.DefaultsNeverFailEstimator | perfometer/_core.py:31-34 | with the keyword defaults (d = 0.1, warmup on, three kept runs), no call ends with too few points or a zero deviation |
| Stats.Variance | perfometer/_core.py:22 | the Bessel-corrected sample variance, the square of `statistics.stdev`, is never negative |
| Stats.VarianceZeroIffConstant | perfometer/_core.py:22 | the variance is zero exactly when every timing is equal |
| Stats.Ceil | perfometer/_core.py:24 | `math.ceil` returns the integer c with x ≤ c < x + 1 |
| Stats.SumAppend | perfometer/_core.py:76 | appending a timing adds its duration to the total |
| SampleSize.RequiredSampleSize | perfometer/_core.py:16-25 | fails with too few points on fewer than 2 timings; fails with division by zero when d = 0; otherwise returns an integer ≥ 2 that is at least the target (z·s/d)², and when above 2 is within 1 of it |
| SampleSize.TargetIsSquaredMargin | perfometer/_core.py:23 | z²·var/d² equals (z·s/d)² for the non-negative root s of the variance |
| SampleSize.RequiredSizeIsCeiling | perfometer/_core.py:23-24 | when the target exceeds 2 the estimate is exactly its ceiling |
| SampleSize.RequiredSizeTwoIffSmallTarget | perfometer/_core.py:24 | the estimate is 2 if and only if the target is at most 2 |
| SampleSize.RequiredSizeTwoForConstantData | perfometer/_core.py:22-24 | equal timings (standard deviation 0) give exactly 2 |
| SampleSize.RequiredSizeFollowsTarget | perfometer/_core.py:24 | a larger target never gives a smaller estimate |
| SampleSize.RequiredSizeMonotoneInVariance | perfometer/_core.py:22-24 | more variance never asks for fewer runs |
| SampleSize.RequiredSizeMonotoneInZ | perfometer/_core.py:23-24 | a larger absolute z never asks for fewer runs |
| SampleSize.RequiredSizeAntitoneInDeviation | perfometer/_core.py:23-24 | a larger absolute allowed deviation never asks for more runs |
| SampleSize.RequiredSizeSignInsensitive | perfometer/_core.py:23 | negating d or z does not change the result, because both are squared |
| Benchmark.InitialPhase | perfometer/_core.py:92-94 | succeeds exactly when all `min_runs + warmup` runs return and pass their budget checks, returning exactly those durations (warmup included); otherwise ends the call as `IsOutcome` says |
| Benchmark.Trim | perfometer/_core.py:96-97 | with warmup on, removes exactly the first timing and keeps the rest in order; with warmup off, removes nothing |
| Benchmark.ConvergencePhase | perfometer/_core.py:99-100 | starting from the trimmed initial timings, the loop ends in the outcome `IsOutcome` describes |
| Benchmark.Run | perfometer/_core.py:28-102 | the result is the stream's outcome; a returned list has at least `min_runs` (≥ 2) timings, satisfies the loop's exit condition, and is exactly the durations after the warmup, in execution order |
| Benchmark.SuccessfulRun | perfometer/_core.py:93-102 | every successful outcome has at least `min_runs` timings, at least as many as the estimator asks for on them, and they are the post-warmup durations in order |
| Benchmark.OutcomeAt | perfometer/_core.py:28-102 | the result when the call stops after n runs; a success then holds the n durations less the dropped warmup one |
| Benchmark.OutcomeDeterministic | perfometer/_core.py:28-102 | at most one result fits a given configuration and duration stream |
| Benchmark.OutcomeEndsAt | perfometer/_core.py:28-102 | every outcome is the one fixed by the number of runs after which the call stops |
| Benchmark.OutcomeAtIsOutcome | perfometer/_core.py:28-102 | the stopping point's result is an outcome, so the declarative description admits every way the code can end |
| Benchmark.EndsAtUnique | perfometer/_core.py:93-100 | a call stops after one number of runs only |
| Benchmark.ContinuesBelow | perfometer/_core.py:93-100 | each run before the last one survived was followed by another run that passed its budget check |
| Benchmark.SurvivesPrefix | perfometer/_core.py:93-100 | surviving n runs implies surviving every shorter prefix |
| Benchmark.SurvivesStep | perfometer/_core.py:80-85 | a run that returns and passes the budget check extends the surviving prefix by one |
| Benchmark.SampleStep | perfometer/_core.py:84 | after the trim, one more run appends its duration to the sample, and the budget check sums exactly that sample |
| Benchmark.BudgetFailure | perfometer/_core.py:75-78 | a total over `max_time` after a run ends the call with that total and the limit |
| Benchmark.EstimatorAnswersAfterFirst | perfometer/_core.py:99 | once the estimator has answered, it answers on every later check |
| Benchmark.EstimatorFailure | perfometer/_core.py:99 | an estimator error ends the call, and only at the first convergence check |
| Benchmark.ConvergedSuccess | perfometer/_core.py:99-102 | when the loop condition is false, the current timings are returned |
| Benchmark.FirstSample | perfometer/_core.py:93-97 | the first convergence check sees the initial durations without the warmup one, `max(min_runs, 0)` timings |
| Benchmark.TooFewKeptFailsFirstCheck | perfometer/_core.py:93-99 | with `min_runs < 2`, a call that survives its initial runs fails at the first check with too few points, warmup or not |
| Benchmark.ZeroDeviationFailsFirstCheck | perfometer/_core.py:23 | with at least 2 kept timings and d = 0, a call that survives its initial runs fails at the first check with division by zero |
| Benchmark.WarmupLeavesBudgetAfterTrim | perfometer/_core.py:96-97 | after the trim the warmup duration no longer counts: durations summing to 10.5 return normally under a budget of 10 |
| Benchmark.WarmupCountsDuringInitialRuns | perfometer/_core.py:75-78 | during the initial runs the warmup duration counts: 9 + 0.6 + 0.6 exceeds a budget of 10 on the third initial run |

## Left out

- `get_z_value` (`perfometer/_core.py:11-13`) is left out. It inverts the normal CDF in floating point through a library call. The z-value is the parameter `z`. `inv_cdf((1 + c) / 2)` raises only when its argument leaves (0, 1), that is for a confidence level `c` outside (-1, 1); that error is not modelled. Every other level, including `c = 0` (z = 0) and negative levels (z < 0), is covered, because `z` is an unrestricted real. For the same reason the default confidence level 0.95 is not a default of `DefaultConfig`: its z-value is passed in.
- Floating-point rounding in `sum`, in the mean inside `statistics.stdev`, in `statistics.stdev` itself, in the division and power at line 23 and in `math.ceil` is left out. All of them are exact real arithmetic. The square root in `stdev` is avoided by working with the variance.
- RequiredSampleSize: does not model the `OverflowError` that the float `** 2` raises at line 23, or that `math.ceil` of an infinite value raises at line 24, when (z·s/d)² is beyond the float range (for example a tiny non-zero `allowed_deviation`). The model returns the exact ceiling there, where the code raises, so `Run` does not end such a call with an error.
- The timers `time.perf_counter` / `time.process_time` and the `_wall_time` switch (`perfometer/_core.py:87-90`) are left out. Durations come from the stream argument.
- The call `func(*args, **kwargs)` (`perfometer/_core.py:82`) is left out. Argument forwarding and the discarded return value are I/O and are not modelled. An exception from `func` is modelled only as the stream running out (`TargetFailed`). Its type and message are not kept.
- Calls that never end are left out. That is, an operation that keeps returning while the estimate keeps growing and the budget is never exceeded. Every duration stream is finite, so every modelled call terminates.
- The text of the `ValueError` message (`perfometer/_core.py:78`) is left out. `BudgetExceeded` carries only the total and the limit.
- `describe_timings` (`perfometer/_core.py:105-128`) is left out. It is a thin summary over min/max/mean/stdev/sum and is not part of the loop.
- `perfometer/__init__.py` is not part of this model. It holds re-exports and a version lookup.
