/** The ways a call into the benchmarking core can end. Each failure stands
    for an exception the Python code raises (or lets propagate). */
module Outcomes {

  datatype Error =
    /** `statistics.stdev` refuses fewer than two data points. */
    | TooFewPoints
    /** Dividing by an allowed deviation of zero. */
    | ZeroDeviation
    /** The budget check found the recorded total above the time limit. */
    | BudgetExceeded(total: real, limit: real)
    /** The benchmarked operation raised on the given (0-based) invocation. */
    | TargetFailed(run: nat)

  /** A value, or the error that prevented computing it. */
  datatype Result<+T> = Success(value: T) | Failure(error: Error)
}
