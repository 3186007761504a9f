/** The sample-size estimator `get_required_sample_size`: how many timings
    the normal approximation asks for so that the mean's margin of error at
    the chosen confidence stays within the allowed deviation. The z-value of
    the confidence level is a parameter. */
module SampleSize {
  import opened Outcomes
  import opened Stats

  /** (z·s/d)² with s the sample standard deviation, written as z²·var/d² so
      that no square root is needed. */
  function Target(data: seq<real>, allowedDeviation: real, z: real): (t: real)
    requires |data| >= 2 && allowedDeviation != 0.0
    ensures t >= 0.0
  {
    RatioMonotone(0.0, 0.0, Square(allowedDeviation), Square(z), Variance(data), Square(allowedDeviation));
    Ratio(Square(z), Variance(data), Square(allowedDeviation))
  }

  /** The target vanishes exactly when z is 0 or every timing is equal. */
  lemma TargetZeroIff(data: seq<real>, allowedDeviation: real, z: real)
    requires |data| >= 2 && allowedDeviation != 0.0
    ensures Target(data, allowedDeviation, z) == 0.0 <==> z == 0.0 || Constant(data)
  {
    VarianceZeroIffConstant(data);
    var k, v, q := Square(z), Variance(data), Square(allowedDeviation);
    assert Ratio(k, v, q) * q == k * v;
    if k != 0.0 && v != 0.0 {
      assert k * v > 0.0;
    }
  }

  /** z²·var/d² as a single term, so that the solver reasons about the
      quotient as a unit (it does not match equal products on its own). */
  function Ratio(zSquared: real, variance: real, deviationSquared: real): real
    requires deviationSquared != 0.0
  {
    zSquared * variance / deviationSquared
  }

  /** The ratio grows with z² and the variance and shrinks as d² grows. */
  lemma RatioMonotone(z1: real, v1: real, q1: real, z2: real, v2: real, q2: real)
    requires 0.0 <= z1 <= z2 && 0.0 <= v1 <= v2 && 0.0 < q2 <= q1
    ensures Ratio(z1, v1, q1) <= Ratio(z2, v2, q2)
  {
    ProductMonotone(z1, z2, v1, v2);
    ProductMonotone(0.0, z1, 0.0, v1);
    QuotientAntitone(z1 * v1, q2, q1);
    QuotientMonotone(z1 * v1, z2 * v2, q2);
  }

  /** `get_required_sample_size`: the least integer that is at least 2 and at
      least the target. Too few points and a zero deviation are the two ways
      the Python code raises. */
  function RequiredSampleSize(data: seq<real>, allowedDeviation: real, z: real): (r: Result<int>)
    ensures r.Success? <==> |data| >= 2 && allowedDeviation != 0.0
    ensures |data| < 2 ==> r == Failure(TooFewPoints)
    ensures |data| >= 2 && allowedDeviation == 0.0 ==> r == Failure(ZeroDeviation)
    ensures r.Success? ==> r.value >= 2 && Target(data, allowedDeviation, z) <= r.value as real
    ensures r.Success? && r.value > 2 ==> (r.value - 1) as real < Target(data, allowedDeviation, z)
  {
    if |data| < 2 then Failure(TooFewPoints)
    else if allowedDeviation == 0.0 then Failure(ZeroDeviation)
    else
      var c := Ceil(Target(data, allowedDeviation, z));
      Success(if c > 2 then c else 2)
  }

  /** The target is the squared margin ratio (z·s/d)² for the standard
      deviation s, the non-negative root of the variance. */
  lemma TargetIsSquaredMargin(data: seq<real>, allowedDeviation: real, z: real, s: real)
    requires |data| >= 2 && allowedDeviation != 0.0
    requires s >= 0.0 && Square(s) == Variance(data)
    ensures Square(z * s / allowedDeviation) == Target(data, allowedDeviation, z)
  {
    SquareOfQuotient(z * s, allowedDeviation);
    SquareOfProduct(z, s);
    assert Square(z * s / allowedDeviation) == Ratio(Square(z), Square(s), Square(allowedDeviation));
  }

  lemma SquareOfQuotient(a: real, d: real)
    requires d != 0.0
    ensures Square(a / d) == Square(a) / Square(d)
  {
    var q := a / d;
    assert q * d == a;
    SquareOfProduct(q, d);
    QuotientOfProduct(Square(q), Square(d), Square(a));
  }

  lemma SquareOfProduct(a: real, b: real)
    ensures Square(a * b) == Square(a) * Square(b)
  {
  }

  lemma QuotientOfProduct(x: real, q: real, p: real)
    requires q != 0.0 && x * q == p
    ensures x == p / q
  {
  }

  /** Above 2 the estimate is exactly the ceiling of the target. */
  lemma RequiredSizeIsCeiling(data: seq<real>, allowedDeviation: real, z: real)
    requires |data| >= 2 && allowedDeviation != 0.0
    requires Target(data, allowedDeviation, z) > 2.0
    ensures RequiredSampleSize(data, allowedDeviation, z) == Success(Ceil(Target(data, allowedDeviation, z)))
  {
  }

  /** The floor of 2 is reached exactly when the target is at most 2. */
  lemma RequiredSizeTwoIffSmallTarget(data: seq<real>, allowedDeviation: real, z: real)
    requires |data| >= 2 && allowedDeviation != 0.0
    ensures RequiredSampleSize(data, allowedDeviation, z) == Success(2)
            <==> Target(data, allowedDeviation, z) <= 2.0
  {
  }

  /** When every timing is equal the standard deviation is 0 and the
      estimate is the floor of 2. */
  lemma RequiredSizeTwoForConstantData(data: seq<real>, allowedDeviation: real, z: real)
    requires |data| >= 2 && allowedDeviation != 0.0 && Constant(data)
    ensures RequiredSampleSize(data, allowedDeviation, z) == Success(2)
  {
    VarianceZeroIffConstant(data);
  }

  /** A larger target never yields a smaller estimate. */
  lemma RequiredSizeFollowsTarget(a: seq<real>, da: real, za: real, b: seq<real>, db: real, zb: real)
    requires |a| >= 2 && da != 0.0 && |b| >= 2 && db != 0.0
    requires Target(a, da, za) <= Target(b, db, zb)
    ensures RequiredSampleSize(a, da, za).value <= RequiredSampleSize(b, db, zb).value
  {
    CeilMonotone(Target(a, da, za), Target(b, db, zb));
  }

  /** More spread in the data asks for at least as many runs. */
  lemma RequiredSizeMonotoneInVariance(a: seq<real>, b: seq<real>, allowedDeviation: real, z: real)
    requires |a| >= 2 && |b| >= 2 && allowedDeviation != 0.0
    requires Variance(a) <= Variance(b)
    ensures RequiredSampleSize(a, allowedDeviation, z).value <= RequiredSampleSize(b, allowedDeviation, z).value
  {
    var q := Square(allowedDeviation);
    RatioMonotone(Square(z), Variance(a), q, Square(z), Variance(b), q);
    RequiredSizeFollowsTarget(a, allowedDeviation, z, b, allowedDeviation, z);
  }

  /** A larger |z| (a higher confidence) asks for at least as many runs. */
  lemma RequiredSizeMonotoneInZ(data: seq<real>, allowedDeviation: real, z1: real, z2: real)
    requires |data| >= 2 && allowedDeviation != 0.0
    requires Abs(z1) <= Abs(z2)
    ensures RequiredSampleSize(data, allowedDeviation, z1).value <= RequiredSampleSize(data, allowedDeviation, z2).value
  {
    SquareOfAbs(z1);
    SquareOfAbs(z2);
    SquareMonotone(Abs(z1), Abs(z2));
    var v, q := Variance(data), Square(allowedDeviation);
    RatioMonotone(Square(z1), v, q, Square(z2), v, q);
    RequiredSizeFollowsTarget(data, allowedDeviation, z1, data, allowedDeviation, z2);
  }

  /** A wider allowed deviation never asks for more runs. */
  lemma RequiredSizeAntitoneInDeviation(data: seq<real>, d1: real, d2: real, z: real)
    requires |data| >= 2 && 0.0 < Abs(d1) <= Abs(d2)
    ensures RequiredSampleSize(data, d2, z).value <= RequiredSampleSize(data, d1, z).value
  {
    SquareOfAbs(d1);
    SquareOfAbs(d2);
    SquareMonotone(Abs(d1), Abs(d2));
    var k, v := Square(z), Variance(data);
    RatioMonotone(k, v, Square(d2), k, v, Square(d1));
    RequiredSizeFollowsTarget(data, d2, z, data, d1, z);
  }

  /** Only the magnitudes of z and of the allowed deviation matter. */
  lemma RequiredSizeSignInsensitive(data: seq<real>, allowedDeviation: real, z: real)
    ensures RequiredSampleSize(data, -allowedDeviation, z) == RequiredSampleSize(data, allowedDeviation, z)
    ensures RequiredSampleSize(data, allowedDeviation, -z) == RequiredSampleSize(data, allowedDeviation, z)
  {
    SquareOfNegation(allowedDeviation);
    SquareOfNegation(z);
  }

  function Abs(x: real): real
  {
    if x < 0.0 then -x else x
  }

  lemma SquareOfAbs(x: real)
    ensures Square(Abs(x)) == Square(x)
  {
    SquareOfNegation(x);
  }

  lemma QuotientMonotone(a: real, b: real, q: real)
    requires a <= b && q > 0.0
    ensures a / q <= b / q
  {
  }

  lemma QuotientAntitone(k: real, p: real, q: real)
    requires k >= 0.0 && 0.0 < p <= q
    ensures k / q <= k / p
  {
  }
}
