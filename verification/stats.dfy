/** Exact real-number counterparts of the statistics the benchmark relies on:
    Python's `sum`, the mean inside `statistics.stdev`, the Bessel-corrected sample variance
    underlying `statistics.stdev`, and `math.ceil`. */
module Stats {

  /** Total of a sequence, accumulated left to right like Python's `sum`. */
  function Sum(s: seq<real>): real
  {
    if |s| == 0 then 0.0 else Sum(s[..|s| - 1]) + s[|s| - 1]
  }

  lemma SumAppend(s: seq<real>, x: real)
    ensures Sum(s + [x]) == Sum(s) + x
  {
    assert (s + [x])[..|s|] == s;
  }

  /** Arithmetic mean of a non-empty sequence. */
  function Mean(s: seq<real>): real
    requires |s| > 0
  {
    Sum(s) / (|s| as real)
  }

  /** `x` squared. */
  function Square(x: real): (r: real)
    ensures r >= 0.0
    ensures x != 0.0 ==> r > 0.0
  {
    x * Id(x)
  }

  /** The identity, used only to spell `Square`. This is a workaround for the
      solver, not part of the statistics: the solver fails on easy linear
      facts about a literal `x * x` once quantifiers are around, but handles
      `x * Id(x)` like any product of two different terms. */
  function Id(x: real): real
  {
    x
  }

  lemma SquareOfNegation(x: real)
    ensures Square(-x) == Square(x)
  {
  }

  /** Squaring preserves the order of absolute values. */
  lemma SquareMonotone(x: real, y: real)
    requires 0.0 <= x <= y
    ensures Square(x) <= Square(y)
  {
    ProductMonotone(x, y, Id(x), Id(y));
  }

  lemma ProductMonotone(a: real, b: real, c: real, d: real)
    requires 0.0 <= a <= b && 0.0 <= c <= d
    ensures a * c <= b * d
  {
    assert a * c <= b * c;
    assert b * c <= b * d;
  }

  /** Sum of the squared distances of the elements of `s` from `m`. */
  function SquaredDeviations(s: seq<real>, m: real): (r: real)
    ensures r >= 0.0
  {
    if |s| == 0 then 0.0 else SquaredDeviations(s[..|s| - 1], m) + Square(s[|s| - 1] - m)
  }

  /** Sample variance with the n - 1 denominator: the square of what
      `statistics.stdev` returns. It is never negative. */
  function Variance(s: seq<real>): (v: real)
    requires |s| >= 2
    ensures v >= 0.0
  {
    SquaredDeviations(s, Mean(s)) / ((|s| - 1) as real)
  }

  /** All elements of `s` are the same value. */
  predicate Constant(s: seq<real>)
  {
    forall i, j :: 0 <= i < |s| && 0 <= j < |s| ==> s[i] == s[j]
  }

  lemma {:induction false} SumOfConstant(s: seq<real>, c: real)
    requires forall i :: 0 <= i < |s| ==> s[i] == c
    ensures Sum(s) == (|s| as real) * c
  {
    if |s| > 0 {
      SumOfConstant(s[..|s| - 1], c);
    }
  }

  lemma {:induction false} SquaredDeviationsOfConstant(s: seq<real>, m: real)
    requires forall i :: 0 <= i < |s| ==> s[i] == m
    ensures SquaredDeviations(s, m) == 0.0
  {
    if |s| > 0 {
      SquaredDeviationsOfConstant(s[..|s| - 1], m);
    }
  }

  /** One element away from `m` makes the squared deviations strictly positive. */
  lemma {:induction false} SquaredDeviationsPositive(s: seq<real>, m: real, i: int)
    requires 0 <= i < |s| && s[i] != m
    ensures SquaredDeviations(s, m) > 0.0
  {
    if i < |s| - 1 {
      assert s[..|s| - 1][i] == s[i];
      SquaredDeviationsPositive(s[..|s| - 1], m, i);
    }
  }

  /** The sample variance vanishes exactly when every data point is equal. */
  lemma VarianceZeroIffConstant(s: seq<real>)
    requires |s| >= 2
    ensures Variance(s) == 0.0 <==> Constant(s)
  {
    if Constant(s) {
      var c := s[0];
      SumOfConstant(s, c);
      CancelFactor(|s| as real, c);
      SquaredDeviationsOfConstant(s, c);
    } else {
      var i, j :| 0 <= i < |s| && 0 <= j < |s| && s[i] != s[j];
      var k := if s[i] != Mean(s) then i else j;
      SquaredDeviationsPositive(s, Mean(s), k);
    }
  }

  lemma CancelFactor(n: real, c: real)
    requires n != 0.0
    ensures n * c / n == c
  {
  }

  /** Smallest integer not below `x`, as Python's `math.ceil`. */
  function Ceil(x: real): (c: int)
    ensures x <= c as real < x + 1.0
  {
    -((-x).Floor)
  }

  lemma CeilMonotone(x: real, y: real)
    requires x <= y
    ensures Ceil(x) <= Ceil(y)
  {
  }
}
