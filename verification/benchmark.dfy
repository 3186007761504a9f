/** The adaptive benchmark loop `benchmark`: a fixed number of initial runs,
    an optional warmup run that is dropped afterwards, then one run at a time
    until the number of timings reaches the estimator's current target, with
    a time budget checked after every run.

    The timer and the call of the benchmarked operation are replaced by a
    stream `ds` of durations: run i (counting from 0) takes `ds[i]`, and the
    run after the last element is the one on which the operation raises. */
module Benchmark {
  import opened Outcomes
  import opened Stats
  import opened SampleSize

  /** The keyword options of one `benchmark` call. `z` is the z-value of the
      confidence level; the timer choice only affects where the durations
      come from, so it is part of the stream. */
  datatype Config = Config(allowedDeviation: real, z: real, warmup: bool, minRuns: int, maxTime: real)

  /** Python adds the warmup flag to `min_runs` as 0 or 1. */
  function WarmupRuns(cfg: Config): nat
  {
    if cfg.warmup then 1 else 0
  }

  /** Runs made unconditionally, `range(min_runs + warmup)`: as many as that
      sum says, or none when it is not positive. */
  function InitialRuns(cfg: Config): (k: nat)
    ensures k >= cfg.minRuns + WarmupRuns(cfg)
    ensures k == 0 || k == cfg.minRuns + WarmupRuns(cfg)
  {
    if cfg.minRuns + WarmupRuns(cfg) > 0 then cfg.minRuns + WarmupRuns(cfg) else 0
  }

  /** How many leading timings `timings[1:]` discards: the warmup run, or
      nothing when nothing was recorded. */
  function Dropped(cfg: Config): (d: nat)
    ensures d <= InitialRuns(cfg)
    ensures d == 1 <==> cfg.warmup && InitialRuns(cfg) > 0
    ensures d == 0 <==> !(cfg.warmup && InitialRuns(cfg) > 0)
  {
    if InitialRuns(cfg) > 0 then WarmupRuns(cfg) else 0
  }

  /** The list `check_max_time` sums right after the n-th run. The closure
      reads the name `timings`, which the trim rebinds: up to the end of the
      initial phase the warmup duration is included, afterwards it is not. */
  function BudgetWindow(cfg: Config, ds: seq<real>, n: nat): (w: seq<real>)
    requires n <= |ds|
  {
    if n <= InitialRuns(cfg) then ds[..n] else ds[Dropped(cfg)..n]
  }

  /** The budget window is always the latest durations in execution order,
      and it lacks exactly one of them, the warmup run, once the initial
      runs are over and only then. */
  lemma BudgetWindowDropsOnlyWarmup(cfg: Config, ds: seq<real>, n: nat)
    requires n <= |ds|
    ensures |BudgetWindow(cfg, ds, n)| <= n
    ensures BudgetWindow(cfg, ds, n) == ds[n - |BudgetWindow(cfg, ds, n)|..n]
    ensures n - |BudgetWindow(cfg, ds, n)| == if cfg.warmup && 0 < InitialRuns(cfg) < n then 1 else 0
  {
  }

  /** The timings the convergence check sees once n runs are done. */
  function Sample(cfg: Config, ds: seq<real>, n: nat): seq<real>
    requires InitialRuns(cfg) <= n <= |ds|
  {
    ds[Dropped(cfg)..n]
  }

  /** The loop condition `len(timings) < get_required_sample_size(timings, ...)`
      holds, so another run follows. That needs at least two timings, a
      non-zero deviation, and more than two timings asked for. */
  predicate NeedsMore(cfg: Config, sample: seq<real>)
    ensures NeedsMore(cfg, sample) ==> 2 <= |sample| && cfg.allowedDeviation != 0.0
    ensures NeedsMore(cfg, sample) ==> (|sample| as real) < Target(sample, cfg.allowedDeviation, cfg.z)
  {
    var required := RequiredSampleSize(sample, cfg.allowedDeviation, cfg.z);
    required.Success? && |sample| < required.value
  }

  /** The loop condition is evaluated without error and is false: the
      sample reaches both 2 and the target. */
  predicate Converged(cfg: Config, sample: seq<real>)
    ensures Converged(cfg, sample) ==> 2 <= |sample| && cfg.allowedDeviation != 0.0
    ensures Converged(cfg, sample) ==> Target(sample, cfg.allowedDeviation, cfg.z) <= |sample| as real
    ensures Converged(cfg, sample) <==> RequiredSampleSize(sample, cfg.allowedDeviation, cfg.z).Success? && !NeedsMore(cfg, sample)
  {
    var required := RequiredSampleSize(sample, cfg.allowedDeviation, cfg.z);
    required.Success? && |sample| >= required.value
  }

  /** Every budget check up to and including the n-th run passed. */
  ghost predicate WithinBudget(cfg: Config, ds: seq<real>, n: nat)
    requires n <= |ds|
  {
    forall k :: 1 <= k <= n ==> Sum(BudgetWindow(cfg, ds, k)) <= cfg.maxTime
  }

  /** n runs have completed without ending the call: the operation returned
      each time, every budget check passed, and every convergence check made
      before the n-th run asked for more. */
  ghost predicate Survives(cfg: Config, ds: seq<real>, n: nat)
  {
    && n <= |ds|
    && WithinBudget(cfg, ds, n)
    && forall m :: InitialRuns(cfg) <= m < n ==> NeedsMore(cfg, Sample(cfg, ds, m))
  }

  /** After n runs the call goes on to make run n + 1. */
  ghost predicate Proceeds(cfg: Config, ds: seq<real>, n: nat)
  {
    Survives(cfg, ds, n) && (n < InitialRuns(cfg) || NeedsMore(cfg, Sample(cfg, ds, n)))
  }

  /** `r` is how `benchmark` ends on the stream `ds`, described by the point
      where it stops rather than by the loop that gets there. */
  ghost predicate IsOutcome(cfg: Config, ds: seq<real>, r: Result<seq<real>>)
  {
    match r
    case Success(t) =>
      var n := Dropped(cfg) + |t|;
      && InitialRuns(cfg) <= n <= |ds|
      && Survives(cfg, ds, n)
      && t == Sample(cfg, ds, n)
      && Converged(cfg, t)
    case Failure(TargetFailed(k)) =>
      k == |ds| && Proceeds(cfg, ds, k)
    case Failure(BudgetExceeded(total, limit)) =>
      && limit == cfg.maxTime
      && total > limit
      && exists n :: 0 <= n < |ds| && Proceeds(cfg, ds, n) && total == Sum(BudgetWindow(cfg, ds, n + 1))
    case Failure(e) =>
      && InitialRuns(cfg) <= |ds|
      && Survives(cfg, ds, InitialRuns(cfg))
      && RequiredSampleSize(Sample(cfg, ds, InitialRuns(cfg)), cfg.allowedDeviation, cfg.z) == Failure(e)
  }

  /** Run n + 1 happens, the operation returns, and the budget check after
      it passes. */
  ghost predicate Continues(cfg: Config, ds: seq<real>, n: nat)
  {
    Proceeds(cfg, ds, n) && n < |ds| && Sum(BudgetWindow(cfg, ds, n + 1)) <= cfg.maxTime
  }

  /** The call survives exactly n runs: it never gets through run n + 1. */
  ghost predicate EndsAt(cfg: Config, ds: seq<real>, n: nat)
  {
    Survives(cfg, ds, n) && !Continues(cfg, ds, n)
  }

  /** What the call returns when it ends after n runs. */
  ghost function OutcomeAt(cfg: Config, ds: seq<real>, n: nat): (r: Result<seq<real>>)
    requires EndsAt(cfg, ds, n)
    ensures r.Success? ==> |r.value| == n - Dropped(cfg)
  {
    if !Proceeds(cfg, ds, n) then
      var required := RequiredSampleSize(Sample(cfg, ds, n), cfg.allowedDeviation, cfg.z);
      if required.Failure? then Failure(required.error) else Success(Sample(cfg, ds, n))
    else if n == |ds| then Failure(TargetFailed(n))
    else Failure(BudgetExceeded(Sum(BudgetWindow(cfg, ds, n + 1)), cfg.maxTime))
  }

  lemma SurvivesStep(cfg: Config, ds: seq<real>, n: nat)
    requires Continues(cfg, ds, n)
    ensures Survives(cfg, ds, n + 1)
  {
  }

  /** Surviving n runs includes surviving every shorter prefix of them. */
  lemma SurvivesPrefix(cfg: Config, ds: seq<real>, k: nat, n: nat)
    requires Survives(cfg, ds, n) && k <= n
    ensures Survives(cfg, ds, k)
  {
  }

  /** Every run before the last one survived was followed by another. */
  lemma ContinuesBelow(cfg: Config, ds: seq<real>, k: nat, n: nat)
    requires Survives(cfg, ds, n) && k < n
    ensures Continues(cfg, ds, k)
  {
    assert Sum(BudgetWindow(cfg, ds, k + 1)) <= cfg.maxTime;
  }

  /** A call ends after one number of runs only. */
  lemma EndsAtUnique(cfg: Config, ds: seq<real>, a: nat, b: nat)
    requires EndsAt(cfg, ds, a) && EndsAt(cfg, ds, b)
    ensures a == b
  {
    if a < b {
      ContinuesBelow(cfg, ds, a, b);
      assert false;
    } else if b < a {
      ContinuesBelow(cfg, ds, b, a);
      assert false;
    }
  }

  /** Every outcome is the one determined by the point where the call ends. */
  lemma OutcomeEndsAt(cfg: Config, ds: seq<real>, r: Result<seq<real>>) returns (n: nat)
    requires IsOutcome(cfg, ds, r)
    ensures EndsAt(cfg, ds, n) && r == OutcomeAt(cfg, ds, n)
  {
    match r
    case Success(t) =>
      n := Dropped(cfg) + |t|;
    case Failure(TargetFailed(k)) =>
      n := k;
    case Failure(BudgetExceeded(total, limit)) =>
      n :| 0 <= n < |ds| && Proceeds(cfg, ds, n) && total == Sum(BudgetWindow(cfg, ds, n + 1));
    case Failure(e) =>
      n := InitialRuns(cfg);
  }

  /** Conversely, the point where the call ends yields an outcome. */
  lemma OutcomeAtIsOutcome(cfg: Config, ds: seq<real>, n: nat)
    requires EndsAt(cfg, ds, n)
    ensures IsOutcome(cfg, ds, OutcomeAt(cfg, ds, n))
  {
    if !Proceeds(cfg, ds, n) {
      var required := RequiredSampleSize(Sample(cfg, ds, n), cfg.allowedDeviation, cfg.z);
      if required.Failure? && n > InitialRuns(cfg) {
        EstimatorAnswersAfterFirst(cfg, ds, n);
        assert false;
      }
    }
  }

  /** `benchmark` is deterministic in the durations: at most one outcome fits
      a stream, so the postcondition of `Run` fixes its result. */
  lemma OutcomeDeterministic(cfg: Config, ds: seq<real>, r1: Result<seq<real>>, r2: Result<seq<real>>)
    requires IsOutcome(cfg, ds, r1) && IsOutcome(cfg, ds, r2)
    ensures r1 == r2
  {
    var a := OutcomeEndsAt(cfg, ds, r1);
    var b := OutcomeEndsAt(cfg, ds, r2);
    EndsAtUnique(cfg, ds, a, b);
  }

  /** `perfometer/_core.py` lines 92-94: `min_runs + warmup` runs, each followed by
      the budget check. On success the timings are exactly the first
      `InitialRuns` durations, warmup included. */
  method InitialPhase(cfg: Config, durations: seq<real>) returns (r: Result<seq<real>>)
    ensures r.Success? ==> && InitialRuns(cfg) <= |durations|
                           && r.value == durations[..InitialRuns(cfg)]
                           && Survives(cfg, durations, InitialRuns(cfg))
    ensures r.Failure? ==> IsOutcome(cfg, durations, r)
    ensures r.Success? <==> InitialRuns(cfg) <= |durations| && Survives(cfg, durations, InitialRuns(cfg))
  {
    var timings: seq<real> := [];
    var runs: nat := 0;
    while runs < InitialRuns(cfg)
      invariant runs <= InitialRuns(cfg) && runs <= |durations|
      invariant timings == durations[..runs]
      invariant Survives(cfg, durations, runs)
    {
      if runs == |durations| {
        return Failure(TargetFailed(runs));
      }
      timings := timings + [durations[runs]];
      runs := runs + 1;
      assert timings == BudgetWindow(cfg, durations, runs);
      if Sum(timings) > cfg.maxTime {
        BudgetFailure(cfg, durations, runs - 1);
        return Failure(BudgetExceeded(Sum(timings), cfg.maxTime));
      }
      SurvivesStep(cfg, durations, runs - 1);
    }
    return Success(timings);
  }

  /** `perfometer/_core.py` lines 96-97: `timings[1:]` when warmup is on. */
  function Trim(cfg: Config, timings: seq<real>): (t: seq<real>)
    ensures !cfg.warmup ==> t == timings
    ensures cfg.warmup && |timings| > 0 ==> [timings[0]] + t == timings
    ensures cfg.warmup && |timings| == 0 ==> t == []
  {
    if cfg.warmup then (if |timings| > 0 then timings[1..] else []) else timings
  }

  /** `perfometer/_core.py` lines 99-100: the convergence loop, starting from the
      trimmed initial timings. */
  method ConvergencePhase(cfg: Config, durations: seq<real>, initial: seq<real>) returns (r: Result<seq<real>>)
    requires InitialRuns(cfg) <= |durations| && Survives(cfg, durations, InitialRuns(cfg))
    requires initial == Sample(cfg, durations, InitialRuns(cfg))
    ensures IsOutcome(cfg, durations, r)
  {
    var timings := initial;
    var runs := InitialRuns(cfg);
    while true
      invariant InitialRuns(cfg) <= runs <= |durations|
      invariant timings == Sample(cfg, durations, runs)
      invariant Survives(cfg, durations, runs)
      decreases |durations| - runs
    {
      var required := RequiredSampleSize(timings, cfg.allowedDeviation, cfg.z);
      if required.Failure? {
        EstimatorFailure(cfg, durations, runs);
        return Failure(required.error);
      }
      if |timings| >= required.value {
        ConvergedSuccess(cfg, durations, runs);
        return Success(timings);
      }
      assert Proceeds(cfg, durations, runs);
      if runs == |durations| {
        return Failure(TargetFailed(runs));
      }
      SampleStep(cfg, durations, runs);
      timings := timings + [durations[runs]];
      runs := runs + 1;
      if Sum(timings) > cfg.maxTime {
        BudgetFailure(cfg, durations, runs - 1);
        return Failure(BudgetExceeded(Sum(timings), cfg.maxTime));
      }
      SurvivesStep(cfg, durations, runs - 1);
    }
  }

  /** The estimator raising ends the call; it can only do so on its first
      call. */
  lemma EstimatorFailure(cfg: Config, ds: seq<real>, n: nat)
    requires InitialRuns(cfg) <= n <= |ds| && Survives(cfg, ds, n)
    requires RequiredSampleSize(Sample(cfg, ds, n), cfg.allowedDeviation, cfg.z).Failure?
    ensures IsOutcome(cfg, ds, Failure(RequiredSampleSize(Sample(cfg, ds, n), cfg.allowedDeviation, cfg.z).error))
  {
    if n > InitialRuns(cfg) {
      EstimatorAnswersAfterFirst(cfg, ds, n);
      assert false;
    }
  }

  /** The loop condition turning false ends the call with the current sample. */
  lemma ConvergedSuccess(cfg: Config, ds: seq<real>, n: nat)
    requires InitialRuns(cfg) <= n <= |ds| && Survives(cfg, ds, n)
    requires Converged(cfg, Sample(cfg, ds, n))
    ensures IsOutcome(cfg, ds, Success(Sample(cfg, ds, n)))
  {
  }

  /** One more run appends its duration to the sample, and the budget check
      after it sums exactly that sample. */
  lemma SampleStep(cfg: Config, ds: seq<real>, n: nat)
    requires InitialRuns(cfg) <= n < |ds|
    ensures Sample(cfg, ds, n) + [ds[n]] == Sample(cfg, ds, n + 1) == BudgetWindow(cfg, ds, n + 1)
  {
    var lo := Dropped(cfg);
    assert ds[lo..n] + [ds[n]] == ds[lo..n + 1];
  }

  /** The estimator can only raise on its first call: once it has answered,
      the sample only grows and the deviation does not change. */
  lemma EstimatorAnswersAfterFirst(cfg: Config, ds: seq<real>, n: nat)
    requires InitialRuns(cfg) < n <= |ds| && Survives(cfg, ds, n)
    ensures RequiredSampleSize(Sample(cfg, ds, n), cfg.allowedDeviation, cfg.z).Success?
  {
    assert NeedsMore(cfg, Sample(cfg, ds, InitialRuns(cfg)));
  }

  /** A failed budget check after run n + 1 of a call that proceeded is how
      the call ends. */
  lemma BudgetFailure(cfg: Config, ds: seq<real>, n: nat)
    requires Proceeds(cfg, ds, n) && n < |ds|
    requires Sum(BudgetWindow(cfg, ds, n + 1)) > cfg.maxTime
    ensures IsOutcome(cfg, ds, Failure(BudgetExceeded(Sum(BudgetWindow(cfg, ds, n + 1)), cfg.maxTime)))
  {
  }

  /** `benchmark(func, ...)` on the duration stream `durations`. */
  method Run(cfg: Config, durations: seq<real>) returns (r: Result<seq<real>>)
    ensures IsOutcome(cfg, durations, r)
    ensures r.Success? ==> |r.value| >= cfg.minRuns && cfg.minRuns >= 2 && cfg.allowedDeviation != 0.0
    ensures r.Success? ==> Converged(cfg, r.value)
    ensures r.Success? ==> && WarmupRuns(cfg) + |r.value| <= |durations|
                           && r.value == durations[WarmupRuns(cfg)..WarmupRuns(cfg) + |r.value|]
  {
    var initial := InitialPhase(cfg, durations);
    if initial.Failure? {
      return initial;
    }
    var kept := Trim(cfg, initial.value);
    assert kept == Sample(cfg, durations, InitialRuns(cfg));
    r := ConvergencePhase(cfg, durations, kept);
    if r.Success? {
      SuccessfulRun(cfg, durations, r.value);
    }
  }

  /** What a successful call promises: at least `min_runs` timings, at least
      as many as the estimator asks for on them, and they are the durations
      that follow the warmup run, in order. */
  lemma SuccessfulRun(cfg: Config, ds: seq<real>, t: seq<real>)
    requires IsOutcome(cfg, ds, Success(t))
    ensures |t| >= cfg.minRuns && cfg.minRuns >= 2 && cfg.allowedDeviation != 0.0
    ensures Converged(cfg, t)
    ensures WarmupRuns(cfg) + |t| <= |ds| && t == ds[WarmupRuns(cfg)..WarmupRuns(cfg) + |t|]
  {
    var n := Dropped(cfg) + |t|;
    if n > InitialRuns(cfg) {
      assert NeedsMore(cfg, Sample(cfg, ds, InitialRuns(cfg)));
    }
  }

  /** The first convergence check sees the initial durations without the
      warmup one: `max(min_runs, 0)` timings. */
  lemma FirstSample(cfg: Config, ds: seq<real>)
    requires InitialRuns(cfg) <= |ds|
    ensures Trim(cfg, ds[..InitialRuns(cfg)]) == Sample(cfg, ds, InitialRuns(cfg))
    ensures |Sample(cfg, ds, InitialRuns(cfg))| == if cfg.minRuns > 0 then cfg.minRuns else 0
  {
  }

  /** With fewer than two timings left after the warmup, a call that gets
      through its initial runs fails at the first convergence check. */
  lemma TooFewKeptFailsFirstCheck(cfg: Config, ds: seq<real>)
    requires cfg.minRuns < 2
    requires InitialRuns(cfg) <= |ds| && Survives(cfg, ds, InitialRuns(cfg))
    ensures IsOutcome(cfg, ds, Failure(TooFewPoints))
  {
    FirstSample(cfg, ds);
  }

  /** A zero allowed deviation makes the first convergence check divide by
      zero, unless the sample is already too small. */
  lemma ZeroDeviationFailsFirstCheck(cfg: Config, ds: seq<real>)
    requires cfg.minRuns >= 2 && cfg.allowedDeviation == 0.0
    requires InitialRuns(cfg) <= |ds| && Survives(cfg, ds, InitialRuns(cfg))
    ensures IsOutcome(cfg, ds, Failure(ZeroDeviation))
  {
    FirstSample(cfg, ds);
  }

  /** The keyword defaults of `benchmark`: allowed deviation 0.1, warmup on,
      three kept runs and a budget of 600 seconds. The default confidence
      level 0.95 enters only through its z-value, which stays a parameter. */
  function DefaultConfig(z: real): (cfg: Config)
    ensures cfg.minRuns >= 2 && cfg.allowedDeviation != 0.0 && cfg.warmup
  {
    Config(0.1, z, true, 3, 600.0)
  }

  /** Under the defaults the estimator never raises: the first convergence
      check sees three timings and a non-zero deviation. */
  lemma DefaultsNeverFailEstimator(z: real, ds: seq<real>, r: Result<seq<real>>)
    requires IsOutcome(DefaultConfig(z), ds, r)
    ensures r.Failure? ==> !r.error.TooFewPoints? && !r.error.ZeroDeviation?
  {
    var cfg := DefaultConfig(z);
    if r.Failure? && (r.error.TooFewPoints? || r.error.ZeroDeviation?) {
      FirstSample(cfg, ds);
      assert false;
    }
  }

  /** Settings shared by the two examples below: warmup on, two kept runs,
      a budget of 10, z = 1 and an allowed deviation of 0.4. */
  function ExampleConfig(): Config
  {
    Config(0.4, 1.0, true, 2, 10.0)
  }

  /** After the trim the warmup duration no longer counts against the
      budget: the call returns although all durations together exceed it. */
  lemma WarmupLeavesBudgetAfterTrim()
    ensures Sum([9.0, 0.0, 1.0, 0.5]) > ExampleConfig().maxTime
    ensures IsOutcome(ExampleConfig(), [9.0, 0.0, 1.0, 0.5], Success([0.0, 1.0, 0.5]))
  {
    var cfg, ds := ExampleConfig(), [9.0, 0.0, 1.0, 0.5];
    SumOfFour(9.0, 0.0, 1.0, 0.5);
    ExampleSurvives();
    ExampleVariances();
    assert Sample(cfg, ds, 4) == [0.0, 1.0, 0.5];
    assert Converged(cfg, [0.0, 1.0, 0.5]);
  }

  /** The example call gets through its four runs: every budget check passes
      and the first convergence check asks for more. */
  lemma ExampleSurvives()
    ensures Survives(ExampleConfig(), [9.0, 0.0, 1.0, 0.5], 4)
  {
    var cfg, ds := ExampleConfig(), [9.0, 0.0, 1.0, 0.5];
    SumOfTwo(9.0, 0.0);
    SumOfThree(9.0, 0.0, 1.0);
    SumOfTwo(0.0, 1.0);
    SumOfThree(0.0, 1.0, 0.5);
    assert BudgetWindow(cfg, ds, 1) == [9.0];
    assert BudgetWindow(cfg, ds, 2) == [9.0, 0.0];
    assert BudgetWindow(cfg, ds, 3) == [9.0, 0.0, 1.0];
    assert BudgetWindow(cfg, ds, 4) == [0.0, 1.0, 0.5];
    forall k | 1 <= k <= 4
      ensures Sum(BudgetWindow(cfg, ds, k)) <= cfg.maxTime
    {
    }
    ExampleVariances();
    assert Sample(cfg, ds, 3) == [0.0, 1.0];
    assert NeedsMore(cfg, Sample(cfg, ds, 3));
  }

  /** The sample variances the example's two convergence checks see. */
  lemma ExampleVariances()
    ensures Variance([0.0, 1.0]) == 0.5
    ensures Variance([0.0, 1.0, 0.5]) == 0.25
  {
    SumOfTwo(0.0, 1.0);
    SumOfThree(0.0, 1.0, 0.5);
    assert Mean([0.0, 1.0]) == 0.5 && Mean([0.0, 1.0, 0.5]) == 0.5;
    assert [0.0][..0] == [];
    assert SquaredDeviations([0.0], 0.5) == 0.25;
    assert [0.0, 1.0][..1] == [0.0];
    assert SquaredDeviations([0.0, 1.0], 0.5) == 0.5;
    assert [0.0, 1.0, 0.5][..2] == [0.0, 1.0];
    assert SquaredDeviations([0.0, 1.0, 0.5], 0.5) == 0.5;
  }

  lemma SumOfTwo(a: real, b: real)
    ensures Sum([a, b]) == a + b
  {
    SumAppend([], a);
    assert [] + [a] == [a];
    SumAppend([a], b);
    assert [a] + [b] == [a, b];
  }

  lemma SumOfThree(a: real, b: real, c: real)
    ensures Sum([a, b, c]) == a + b + c
  {
    SumOfTwo(a, b);
    SumAppend([a, b], c);
    assert [a, b] + [c] == [a, b, c];
  }

  lemma SumOfFour(a: real, b: real, c: real, d: real)
    ensures Sum([a, b, c, d]) == a + b + c + d
  {
    SumOfThree(a, b, c);
    SumAppend([a, b, c], d);
    assert [a, b, c] + [d] == [a, b, c, d];
  }

  /** During the initial runs the warmup duration does count: the same
      budget is exceeded by the third initial run. */
  lemma WarmupCountsDuringInitialRuns()
    ensures IsOutcome(ExampleConfig(), [9.0, 0.6, 0.6], Failure(BudgetExceeded(10.2, 10.0)))
  {
    var cfg, ds := ExampleConfig(), [9.0, 0.6, 0.6];
    SumOfTwo(9.0, 0.6);
    SumOfThree(9.0, 0.6, 0.6);
    assert BudgetWindow(cfg, ds, 1) == [9.0];
    assert BudgetWindow(cfg, ds, 2) == [9.0, 0.6];
    assert BudgetWindow(cfg, ds, 3) == [9.0, 0.6, 0.6];
    forall k | 1 <= k <= 2
      ensures Sum(BudgetWindow(cfg, ds, k)) <= cfg.maxTime
    {
    }
    assert Proceeds(cfg, ds, 2);
  }
}
