/** The scalar Kalman filter over exact reals: bounds of every run and how fast it forgets its initial covariance. */
module ScalarKalman {

  /** The covariance after one call, from the covariance before it. */
  function NextCovariance(p: real, q: real, r: real): real
    requires p + q + r != 0.0
  {
    (1.0 - Gain(p, q, r)) * (p + q)
  }

  function Gain(p: real, q: real, r: real): real
    requires p + q + r != 0.0
  {
    (p + q) / (p + q + r)
  }

  class KalmanFilter {
    const q: real
    const r: real
    var p: real

    constructor (q: real, r: real, p: real)
      ensures this.q == q && this.r == r && this.p == p
    {
      this.q, this.r, this.p := q, r, p;
    }

    /** `run`: predict, gain, estimate, update. */
    method Run(measurement: real, prediction: real) returns (estimate: real)
      requires p + q + r != 0.0
      modifies this
      ensures p == NextCovariance(old(p), q, r)
      ensures estimate == prediction + Gain(old(p), q, r) * (measurement - prediction)
      ensures q >= 0.0 && r > 0.0 && old(p) >= 0.0 ==>
        && 0.0 <= p < r
        && (prediction <= estimate <= measurement || measurement <= estimate <= prediction)
    {
      p := p + q;
      var k := p / (p + r);
      var innovation := measurement - prediction;
      estimate := prediction + k * innovation;
      p := (1.0 - k) * p;
      if q >= 0.0 && r > 0.0 && old(p) >= 0.0 {
        StepBounds(old(p), q, r);
        EstimateBetween(k, prediction, measurement, innovation);
      }
    }
  }

  /** The covariance after n calls. */
  function CovarianceAfter(p: real, q: real, r: real, n: nat): (c: real)
    requires q >= 0.0 && r > 0.0 && p >= 0.0
    ensures c >= 0.0
    ensures n > 0 ==> c < r
  {
    if n == 0 then p
    else
      var before := CovarianceAfter(p, q, r, n - 1);
      StepBounds(before, q, r);
      NextCovariance(before, q, r)
  }

  /** 1 - K: the fraction of the predicted covariance that remains. */
  function Remaining(x: real, r: real): real
    requires x + r != 0.0
  {
    r / (x + r)
  }

  lemma RemainingBounds(x: real, r: real)
    requires x >= 0.0 && r > 0.0
    ensures 0.0 < Remaining(x, r) <= 1.0
    ensures Remaining(x, r) * (x + r) == r
    ensures 1.0 - x / (x + r) == Remaining(x, r)
  {
    var s := x + r;
    assert s / s == 1.0;
    assert x / s + r / s == s / s;
    assert x / s >= 0.0;
    assert r / s > 0.0;
  }

  /** In every step the gain is in [0, 1) and the new covariance in [0, R). */
  lemma StepBounds(p: real, q: real, r: real)
    requires q >= 0.0 && r > 0.0 && p >= 0.0
    ensures 0.0 <= Gain(p, q, r) < 1.0
    ensures 0.0 <= NextCovariance(p, q, r) < r
  {
    var x := p + q;
    RemainingBounds(x, r);
    ShareBelow(Remaining(x, r), x, r);
    NextIsShare(p, q, r);
    GainBounds(x, r);
  }

  lemma GainBounds(x: real, r: real)
    requires x >= 0.0 && r > 0.0
    ensures 0.0 <= x / (x + r) < 1.0
  {
    RemainingBounds(x, r);
    assert x / (x + r) == 1.0 - Remaining(x, r);
    assert x / (x + r) >= 0.0;
  }

  lemma ShareBelow(a: real, x: real, r: real)
    requires a > 0.0 && x >= 0.0 && r > 0.0 && a * (x + r) == r
    ensures 0.0 <= a * x < r
  {
    assert a * r > 0.0;
    assert a * (x + r) == a * x + a * r;
  }

  /** What remains of the predicted covariance. */
  lemma NextIsShare(p: real, q: real, r: real)
    requires q >= 0.0 && r > 0.0 && p >= 0.0
    ensures NextCovariance(p, q, r) == Remaining(p + q, r) * (p + q)
  {
    RemainingBounds(p + q, r);
    SameFactor(1.0 - Gain(p, q, r), Remaining(p + q, r), p + q);
  }

  lemma SameFactor(a: real, b: real, x: real)
    requires a == b
    ensures a * x == b * x
  {
  }

  lemma Portion(k: real, d: real)
    requires 0.0 <= k < 1.0
    ensures if d >= 0.0 then 0.0 <= k * d <= d else d <= k * d <= 0.0
  {
    if d < 0.0 { assert (1.0 - k) * d <= 0.0; }
  }

  /** A gain in [0, 1) puts the estimate between prediction and measurement. */
  lemma EstimateBetween(k: real, prediction: real, measurement: real, innovation: real)
    requires 0.0 <= k < 1.0 && innovation == measurement - prediction
    ensures var estimate := prediction + k * innovation;
      prediction <= estimate <= measurement || measurement <= estimate <= prediction
  {
    Portion(k, innovation);
  }

  function Abs(x: real): real {
    if x < 0.0 then -x else x
  }

  function Power(x: real, n: nat): real {
    if n == 0 then 1.0 else x * Power(x, n - 1)
  }

  /** The difference of two covariances shrinks by the product of both remaining fractions. */
  lemma StepDifference(p1: real, p2: real, q: real, r: real)
    requires q >= 0.0 && r > 0.0 && p1 >= 0.0 && p2 >= 0.0
    ensures NextCovariance(p1, q, r) - NextCovariance(p2, q, r) == Remaining(p1 + q, r) * Remaining(p2 + q, r) * (p1 - p2)
  {
    var x, y := p1 + q, p2 + q;
    RemainingBounds(x, r);
    RemainingBounds(y, r);
    DifferenceOfFractions(Remaining(x, r), Remaining(y, r), x, y, r);
  }

  lemma DifferenceOfFractions(a: real, b: real, x: real, y: real, r: real)
    requires a * (x + r) == r && b * (y + r) == r
    ensures a * x - b * y == a * b * (x - y)
  {
    assert b * (a * (x + r)) == b * r;
    assert a * (b * (y + r)) == a * r;
    assert a * b * (x - y) == b * (a * (x + r)) - a * (b * (y + r));
    assert a * x == r - a * r && b * y == r - b * r;
  }

  lemma RemainingAtMost(p: real, q: real, r: real)
    requires q >= 0.0 && r > 0.0 && p >= 0.0
    ensures 0.0 < Remaining(p + q, r) <= r / (q + r)
  {
    RemainingBounds(p + q, r);
    FractionMonotone(r, q + r, p + q + r);
  }

  lemma FractionMonotone(r: real, s: real, t: real)
    requires r > 0.0 && 0.0 < s <= t
    ensures r / t <= r / s
  {
    assert r / t * t == r && r / s * s == r;
    assert (r / s - r / t) * s == r / t * (t - s);
    NonNegativeFactor(r / s - r / t, s);
  }

  lemma NonNegativeFactor(d: real, s: real)
    requires d * s >= 0.0 && s > 0.0
    ensures d >= 0.0
  {
  }

  lemma ScaleDown(a: real, b: real, c: real, d: real)
    requires 0.0 < a <= c && 0.0 < b <= c
    ensures Abs(a * b * d) <= c * c * Abs(d)
  {
    assert a * b <= c * b;
    assert c * b <= c * c;
    var ab, cc, e := a * b, c * c, Abs(d);
    assert ab * e <= cc * e;
    assert ab > 0.0;
    assert Abs(ab * d) == ab * e by {
      if d < 0.0 { assert ab * -d == -(ab * d); assert ab * -d > 0.0; } else { assert ab * d >= 0.0; }
    }
  }

  /** Two filters that differ only in their initial covariance agree up to (R / (Q + R))^(2n) of the initial gap after n calls. */
  lemma {:induction false} ForgetsInitialCovariance(p1: real, p2: real, q: real, r: real, rate: real, n: nat)
    requires q >= 0.0 && r > 0.0 && p1 >= 0.0 && p2 >= 0.0 && rate == r / (q + r)
    ensures Abs(CovarianceAfter(p1, q, r, n) - CovarianceAfter(p2, q, r, n)) <= Power(rate * rate, n) * Abs(p1 - p2)
  {
    hide NextCovariance, Abs;
    if n > 0 {
      ForgetsInitialCovariance(p1, p2, q, r, rate, n - 1);
      GapShrinks(CovarianceAfter(p1, q, r, n - 1), CovarianceAfter(p2, q, r, n - 1), q, r, rate,
                 Power(rate * rate, n - 1), Abs(p1 - p2));
    }
  }

  lemma GapShrinks(c1: real, c2: real, q: real, r: real, rate: real, w: real, gap: real)
    requires q >= 0.0 && r > 0.0 && c1 >= 0.0 && c2 >= 0.0 && Abs(c1 - c2) <= w * gap && rate == r / (q + r)
    ensures Abs(NextCovariance(c1, q, r) - NextCovariance(c2, q, r)) <= (rate * rate * w) * gap
  {
    hide NextCovariance, Abs;
    var a, b, d := Remaining(c1 + q, r), Remaining(c2 + q, r), c1 - c2;
    StepDifference(c1, c2, q, r);
    assert NextCovariance(c1, q, r) - NextCovariance(c2, q, r) == a * b * d;
    RemainingAtMost(c1, q, r);
    RemainingAtMost(c2, q, r);
    ScaleDown(a, b, rate, d);
    ChainBounds(rate * rate, Abs(d), w, gap);
  }

  lemma ChainBounds(rate2: real, d: real, w: real, gap: real)
    requires rate2 >= 0.0 && d <= w * gap
    ensures rate2 * d <= (rate2 * w) * gap
  {
    assert rate2 * d <= rate2 * (w * gap);
    assert rate2 * (w * gap) == (rate2 * w) * gap;
  }
}
