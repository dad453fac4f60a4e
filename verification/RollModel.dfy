/** The travel of a curtain that winds onto its own roll, in exact reals, with its inverse (calibration.py), and the
    two inversions the session makes of it (calibration_session.py). */
module RollModel {
  import opened Wrappers
  import opened Plans

  const MIN_ROLL: real := 1.0
  const MAX_ROLL: real := 5.0
  const ROLL_LINEAR_TOLERANCE: real := 0.000000001
  const MIN_CURTAIN_TIME: real := 0.001

  function Max(a: real, b: real): real { if b > a then b else a }

  function Min(a: real, b: real): real { if b < a then b else a }

  function Clamp01(x: real): (r: real)
    ensures 0.0 <= r <= 1.0
    ensures 0.0 <= x <= 1.0 ==> r == x
  {
    Min(1.0, Max(0.0, x))
  }

  /** `math.sqrt`, read over the reals: the non-negative root. */
  ghost predicate IsSquareRoot(root: real -> real) {
    forall d: real :: d >= 0.0 ==> root(d) >= 0.0 && root(d) * root(d) == d
  }

  /** The inverse of `RollX`: the share of a full descent after which the position is `x`. */
  function RollTau(root: real -> real, roll: real, x: real): real {
    var k := Max(MIN_ROLL, roll);
    if k - 1.0 <= ROLL_LINEAR_TOLERANCE then Clamp01(x) else TauOn(root, k, Clamp01(x))
  }

  function TauOn(root: real -> real, k: real, x: real): real
    requires k > 1.0
  {
    (k - root(k * k - (k * k - 1.0) * x)) / (k - 1.0)
  }

  /** The position, 0 at the top and 1 at the bottom, at the share `tau` of a full descent. */
  function RollX(roll: real, tau: real): real {
    var k := Max(MIN_ROLL, roll);
    if k - 1.0 <= ROLL_LINEAR_TOLERANCE then Clamp01(tau) else XOn(k, Clamp01(tau))
  }

  function XOn(k: real, tau: real): real
    requires k > 1.0
  {
    SquareOrder(1.0, k);
    (k * k - (k - tau * (k - 1.0)) * (k - tau * (k - 1.0))) / (k * k - 1.0)
  }

  // ---------------------------------------------------------------- products and quotients

  lemma Grows(a: real, b: real, c: real)
    requires a < b && c > 0.0
    ensures a * c < b * c
  {
    assert (b - a) * c > 0.0;
  }

  lemma GrowsOrStays(a: real, b: real, c: real)
    requires a <= b && c >= 0.0
    ensures a * c <= b * c
  {
    assert (b - a) * c >= 0.0;
  }

  lemma SquareOrder(a: real, b: real)
    requires 0.0 <= a < b
    ensures a * a < b * b
  {
    calc {
      a * a;
    <= { GrowsOrStays(a, b, a); }
      b * a;
    ==
      a * b;
    <  { Grows(a, b, b); }
      b * b;
    }
  }

  lemma SquareBetween(v: real, k: real)
    requires 1.0 <= v <= k
    ensures 1.0 <= v * v <= k * k
  {
    if 1.0 < v { SquareOrder(1.0, v); }
    if v < k { SquareOrder(v, k); }
  }

  lemma Share(a: real, u: real)
    requires a >= 0.0 && 0.0 <= u <= 1.0
    ensures 0.0 <= a * u <= a
  {
    GrowsOrStays(0.0, u, a);
    GrowsOrStays(u, 1.0, a);
  }

  lemma Remainder(a: real, x: real)
    requires a >= 0.0 && 0.0 <= x <= 1.0
    ensures 1.0 <= a + 1.0 - a * x <= a + 1.0
  {
    Share(a, x);
  }

  lemma Undivided(a: real, b: real)
    requires b > 0.0
    ensures (a / b) * b == a
  {
  }

  lemma SameShare(a: real, u: real, v: real)
    requires a > 0.0 && u * a == v * a
    ensures u == v
  {
    if u < v { Grows(u, v, a); }
    if v < u { Grows(v, u, a); }
  }

  lemma Divides(q: real, a: real, b: real)
    requires b > 0.0 && q * b == a
    ensures a / b == q
  {
    Undivided(a, b);
    SameShare(b, a / b, q);
  }

  lemma ShareWithin(a: real, u: real, g: real)
    requires a > 0.0 && u * a == g && 0.0 <= g <= a
    ensures 0.0 <= u <= 1.0
  {
    if u < 0.0 { Grows(u, 0.0, a); }
    if u > 1.0 { Grows(1.0, u, a); }
  }

  lemma RatioWithin(a: real, b: real)
    requires 0.0 <= a <= b && b > 0.0
    ensures 0.0 <= a / b <= 1.0
  {
    Undivided(a, b);
    ShareWithin(b, a / b, a);
  }

  lemma RatioSign(a: real, b: real)
    requires a >= 0.0 && b > 0.0
    ensures a / b >= 0.0
  {
    Undivided(a, b);
    var q := a / b;
    if q < 0.0 { Grows(q, 0.0, b); }
  }

  lemma Over(a: real, b: real, c: real)
    requires c > 0.0 && a < b
    ensures a / c < b / c
  {
    Undivided(a, c);
    Undivided(b, c);
    var p, q := a / c, b / c;
    if p >= q { GrowsOrStays(q, p, c); }
  }

  lemma Scaled(c: real, u: real)
    requires c > 0.0
    ensures (c * u) / c == u
  {
    Divides(u, c * u, c);
  }

  lemma CrossDivide(a: real, b: real, c: real, d: real)
    requires b > 0.0 && d > 0.0 && a * d <= c * b
    ensures a / b <= c / d
  {
    Undivided(a, b);
    Undivided(c, d);
    CrossRatios(a / b, c / d, b, d);
  }

  lemma CrossRatios(p: real, q: real, b: real, d: real)
    requires b > 0.0 && d > 0.0 && (p * b) * d <= (q * d) * b
    ensures p <= q
  {
    Grows(0.0, b, d);
    if p > q { Grows(q, p, b * d); }
  }

  lemma Quotient(a: real, b: real, c: real)
    requires b > 0.0 && c > 0.0
    ensures b * c > 0.0 && (a * c) / (b * c) == a / b
  {
    Grows(0.0, b, c);
    Undivided(a, b);
    Divides(a / b, a * c, b * c);
  }

  // ---------------------------------------------------------------- the closed form

  /** The curve without the cancelling factor: `tau (2k - tau (k-1)) / (k+1)`. */
  function Curve(k: real, tau: real): real
    requires k >= 1.0
  {
    Numerator(k, tau) / (k + 1.0)
  }

  function Numerator(k: real, tau: real): real { tau * (2.0 * k - tau * (k - 1.0)) }

  /** Beyond the linear tolerance the model is the closed form. */
  lemma RollXIsTheCurve(roll: real, tau: real)
    requires roll - 1.0 > ROLL_LINEAR_TOLERANCE && 0.0 <= tau <= 1.0
    ensures RollX(roll, tau) == Curve(roll, tau)
  {
    Factors(roll, tau);
    Quotient(Numerator(roll, tau), roll + 1.0, roll - 1.0);
    XOnIs(roll, tau);
    hide XOn, Numerator;
  }

  lemma XOnIs(k: real, tau: real)
    requires k > 1.0
    ensures k * k - 1.0 > 0.0
    ensures XOn(k, tau) == (k * k - (k - tau * (k - 1.0)) * (k - tau * (k - 1.0))) / (k * k - 1.0)
  {
    SquareOrder(1.0, k);
  }

  lemma Factors(k: real, t: real)
    ensures k * k - (k - t * (k - 1.0)) * (k - t * (k - 1.0)) == Numerator(k, t) * (k - 1.0)
    ensures k * k - 1.0 == (k + 1.0) * (k - 1.0)
  {
  }

  // ---------------------------------------------------------------- the inverse pair

  /** Both functions without their divisions. */
  lemma XTimes(k: real, tau: real)
    requires k > 1.0
    ensures k * k - 1.0 > 0.0
    ensures XOn(k, tau) * (k * k - 1.0) == k * k - (k - tau * (k - 1.0)) * (k - tau * (k - 1.0))
  {
    XOnIs(k, tau);
    Undivided(k * k - (k - tau * (k - 1.0)) * (k - tau * (k - 1.0)), k * k - 1.0);
  }

  lemma TauTimes(root: real -> real, k: real, x: real)
    requires k > 1.0
    ensures TauOn(root, k, x) * (k - 1.0) == k - root(k * k - (k * k - 1.0) * x)
  {
    Undivided(k - root(k * k - (k * k - 1.0) * x), k - 1.0);
  }

  lemma RootWithin(r: real, d: real, k: real)
    requires r >= 0.0 && r * r == d && k >= 1.0 && 1.0 <= d <= k * k
    ensures 1.0 <= r <= k
  {
    if r < 1.0 { SquareOrder(r, 1.0); }
    if r > k { SquareOrder(k, r); }
  }

  lemma RootOf(root: real -> real, d: real)
    requires IsSquareRoot(root) && d >= 0.0
    ensures root(d) >= 0.0 && root(d) * root(d) == d
  {
  }

  lemma RootIs(root: real -> real, d: real, v: real)
    requires IsSquareRoot(root) && v >= 0.0 && d == v * v
    ensures root(d) == v
  {
    GrowsOrStays(0.0, v, v);
    RootOf(root, d);
    var r := root(d);
    if r < v { SquareOrder(r, v); }
    if v < r { SquareOrder(v, r); }
  }

  /** The root the inverse takes lies between 1 and the roll. */
  lemma Discriminant(root: real -> real, k: real, x: real)
    requires IsSquareRoot(root) && k > 1.0 && 0.0 <= x <= 1.0
    ensures var d := k * k - (k * k - 1.0) * x; 1.0 <= d <= k * k && 1.0 <= root(d) <= k && root(d) * root(d) == d
  {
    SquareOrder(1.0, k);
    Remainder(k * k - 1.0, x);
    RootOf(root, k * k - (k * k - 1.0) * x);
    RootWithin(root(k * k - (k * k - 1.0) * x), k * k - (k * k - 1.0) * x, k);
  }

  lemma TauOnWithin(root: real -> real, k: real, x: real)
    requires IsSquareRoot(root) && k > 1.0 && 0.0 <= x <= 1.0
    ensures 0.0 <= TauOn(root, k, x) <= 1.0
  {
    TauTimes(root, k, x);
    Discriminant(root, k, x);
    hide TauOn;
    ShareWithin(k - 1.0, TauOn(root, k, x), k - root(k * k - (k * k - 1.0) * x));
  }

  lemma XOnWithin(k: real, tau: real)
    requires k > 1.0 && 0.0 <= tau <= 1.0
    ensures 0.0 <= XOn(k, tau) <= 1.0
  {
    XTimes(k, tau);
    Remainder(k - 1.0, tau);
    SquareBetween(k - tau * (k - 1.0), k);
    hide XOn;
    ShareWithin(k * k - 1.0, XOn(k, tau), k * k - (k - tau * (k - 1.0)) * (k - tau * (k - 1.0)));
  }

  lemma XOnOfTauOn(root: real -> real, k: real, x: real)
    requires IsSquareRoot(root) && k > 1.0 && 0.0 <= x <= 1.0
    ensures XOn(k, TauOn(root, k, x)) == x
  {
    TauTimes(root, k, x);
    Discriminant(root, k, x);
    var tau := TauOn(root, k, x);
    XTimes(k, tau);
    hide XOn, TauOn;
    Rooted(k, tau, root(k * k - (k * k - 1.0) * x), k * k - (k * k - 1.0) * x);
    SameShare(k * k - 1.0, XOn(k, tau), x);
  }

  lemma Rooted(k: real, tau: real, r: real, d: real)
    requires tau * (k - 1.0) == k - r && r * r == d
    ensures (k - tau * (k - 1.0)) * (k - tau * (k - 1.0)) == d
  {
    assert k - tau * (k - 1.0) == r;
  }

  lemma TauOnOfXOn(root: real -> real, k: real, tau: real)
    requires IsSquareRoot(root) && k > 1.0 && 0.0 <= tau <= 1.0
    ensures TauOn(root, k, XOn(k, tau)) == tau
  {
    var x := XOn(k, tau);
    XTimes(k, tau);
    TauTimes(root, k, x);
    Remainder(k - 1.0, tau);
    hide XOn, TauOn, IsSquareRoot;
    RootIs(root, k * k - (k * k - 1.0) * x, k - tau * (k - 1.0));
    SameShare(k - 1.0, TauOn(root, k, x), tau);
  }

  lemma TauWithin(root: real -> real, roll: real, x: real)
    requires IsSquareRoot(root) && 0.0 <= x <= 1.0
    ensures 0.0 <= RollTau(root, roll, x) <= 1.0
  {
    if roll - 1.0 > ROLL_LINEAR_TOLERANCE { TauOnWithin(root, roll, x); }
    hide TauOn;
  }

  /** Descending for the time it takes to get to `x` gets to `x`, for every roll. */
  lemma XOfTau(root: real -> real, roll: real, x: real)
    requires IsSquareRoot(root) && 0.0 <= x <= 1.0
    ensures RollX(roll, RollTau(root, roll, x)) == x
  {
    hide TauOn, XOn;
    if roll - 1.0 > ROLL_LINEAR_TOLERANCE {
      TauOnWithin(root, roll, x);
      XOnOfTauOn(root, roll, x);
    }
  }

  /** The time it takes to get where a descent of `tau` gets is `tau`, for every roll. */
  lemma TauOfX(root: real -> real, roll: real, tau: real)
    requires IsSquareRoot(root) && 0.0 <= tau <= 1.0
    ensures 0.0 <= RollX(roll, tau) <= 1.0
    ensures RollTau(root, roll, RollX(roll, tau)) == tau
  {
    hide TauOn, XOn;
    if roll - 1.0 > ROLL_LINEAR_TOLERANCE {
      XOnWithin(roll, tau);
      TauOnOfXOn(root, roll, tau);
    }
  }

  // ---------------------------------------------------------------- monotone both ways

  lemma NumeratorGrows(k: real, a: real, b: real)
    requires k >= 1.0 && 0.0 <= a < b <= 1.0
    ensures Numerator(k, a) < Numerator(k, b)
  {
    assert Numerator(k, b) - Numerator(k, a) == (b - a) * (2.0 * k - (a + b) * (k - 1.0));
    Slope(k - 1.0, a + b);
    Grows(0.0, b - a, 2.0 * k - (a + b) * (k - 1.0));
  }

  lemma Slope(m: real, s: real)
    requires m >= 0.0 && s <= 2.0
    ensures 2.0 * (m + 1.0) - s * m > 0.0
  {
    GrowsOrStays(s, 2.0, m);
  }

  lemma CurveGrowsWithTau(k: real, a: real, b: real)
    requires k >= 1.0 && 0.0 <= a < b <= 1.0
    ensures Curve(k, a) < Curve(k, b)
  {
    NumeratorGrows(k, a, b);
    hide Numerator;
    Over(Numerator(k, a), Numerator(k, b), k + 1.0);
  }

  /** A longer descent ends lower. */
  lemma RollXGrows(roll: real, a: real, b: real)
    requires 0.0 <= a < b <= 1.0
    ensures RollX(roll, a) < RollX(roll, b)
  {
    hide XOn;
    if roll - 1.0 > ROLL_LINEAR_TOLERANCE {
      RollXIsTheCurve(roll, a);
      RollXIsTheCurve(roll, b);
      hide RollX, Curve;
      CurveGrowsWithTau(roll, a, b);
    }
  }

  lemma NumeratorsCross(k: real, m: real, t: real)
    requires 1.0 <= k <= m && 0.0 <= t <= 1.0
    ensures Numerator(k, t) * (m + 1.0) <= Numerator(m, t) * (k + 1.0)
  {
    assert Numerator(m, t) * (k + 1.0) - Numerator(k, t) * (m + 1.0) == t * ((m - k) * (2.0 - 2.0 * t));
    hide Numerator;
    Positive3(t, m - k, 2.0 - 2.0 * t);
  }

  lemma Positive3(a: real, b: real, c: real)
    requires a >= 0.0 && b >= 0.0 && c >= 0.0
    ensures a * (b * c) >= 0.0
  {
    GrowsOrStays(0.0, b, c);
    GrowsOrStays(0.0, a, b * c);
  }

  lemma CurveGrowsWithRoll(k: real, m: real, t: real)
    requires 1.0 <= k <= m && 0.0 <= t <= 1.0
    ensures Curve(k, t) <= Curve(m, t)
  {
    NumeratorsCross(k, m, t);
    hide Numerator;
    CrossDivide(Numerator(k, t), k + 1.0, Numerator(m, t), m + 1.0);
  }

  /** The position is monotone in the roll as well, also where one roll is linear and the other is not. */
  lemma RollXGrowsWithRoll(k: real, m: real, tau: real)
    requires k <= m && 0.0 <= tau <= 1.0
    ensures RollX(k, tau) <= RollX(m, tau)
  {
    hide XOn, Curve;
    if m - 1.0 > ROLL_LINEAR_TOLERANCE {
      RollXIsTheCurve(m, tau);
      if k - 1.0 > ROLL_LINEAR_TOLERANCE {
        RollXIsTheCurve(k, tau);
        CurveGrowsWithRoll(k, m, tau);
      } else {
        CurveOfOne(tau);
        CurveGrowsWithRoll(1.0, m, tau);
      }
    }
  }

  lemma CurveOfOne(tau: real)
    ensures Curve(1.0, tau) == tau
  {
    Divides(tau, tau * 2.0, 2.0);
  }

  // ---------------------------------------------------------------- the prediction

  /** The predicted height of the bar, with `fraction` a share of the configured curtain time and `scale` that time over
      the true one. */
  function PredictCm(direction: Direction, roll: real, scale: real, fraction: real, height: real): real {
    var effective := Clamp01(fraction * scale);
    height * (1.0 - RollX(roll, if direction.Close? then effective else 1.0 - effective))
  }

  /** The prediction falls as the roll grows, in both directions. */
  lemma PredictionFallsWithRoll(direction: Direction, k: real, m: real, scale: real, fraction: real, height: real)
    requires k <= m && height >= 0.0
    ensures PredictCm(direction, k, scale, fraction, height) >= PredictCm(direction, m, scale, fraction, height)
  {
    hide RollX;
    var effective := Clamp01(fraction * scale);
    var tau := if direction.Close? then effective else 1.0 - effective;
    RollXGrowsWithRoll(k, m, tau);
    GrowsOrStays(1.0 - RollX(m, tau), 1.0 - RollX(k, tau), height);
  }

  /** Two predictions of one roll agree exactly where the effective fractions do. */
  lemma PredictionTellsFractions(direction: Direction, roll: real, height: real, a: real, b: real)
    requires height > 0.0 && 0.0 <= a <= 1.0 && 0.0 <= b <= 1.0
    ensures PredictCm(direction, roll, 1.0, a, height) == PredictCm(direction, roll, 1.0, b, height) <==> a == b
  {
    hide RollX;
    var p := if direction.Close? then a else 1.0 - a;
    var q := if direction.Close? then b else 1.0 - b;
    if p < q { RollXGrows(roll, p, q); Grows(1.0 - RollX(roll, q), 1.0 - RollX(roll, p), height); }
    if q < p { RollXGrows(roll, q, p); Grows(1.0 - RollX(roll, p), 1.0 - RollX(roll, q), height); }
  }

  // ---------------------------------------------------------------- a check at half the travel

  /** The times and rolls a cover moves on. */
  datatype TravelModel = TravelModel(opening: real, closing: real, slat: real, openingRoll: real, closingRoll: real)

  function RunTime(m: TravelModel, d: Direction): real { if d.Close? then m.closing else m.opening }

  function RollOf(m: TravelModel, d: Direction): real { if d.Close? then m.closingRoll else m.openingRoll }

  /** A run of the motor, in seconds, as a share of the model's curtain time: an ascent first pays the slat phase, and
      no share is more than all of it. */
  function ModelFraction(d: Direction, m: TravelModel, seconds: real): real {
    var curtain := Max(MIN_CURTAIN_TIME, RunTime(m, d) - m.slat);
    var moving := if d.Close? then seconds else Max(0.0, seconds - m.slat);
    Min(1.0, moving / curtain)
  }

  /** How long the motor has to run, in direction `d` and starting at its end stop, for the bar to stop halfway. */
  function HalfTravelSeconds(root: real -> real, d: Direction, m: TravelModel): real {
    var curtain := Max(0.0, RunTime(m, d) - m.slat);
    if d.Open? then m.slat + curtain * (1.0 - RollTau(root, m.openingRoll, 0.5))
    else curtain * RollTau(root, m.closingRoll, 0.5)
  }

  lemma HalfTauPositive(root: real -> real, roll: real)
    requires IsSquareRoot(root)
    ensures 0.0 < RollTau(root, roll, 0.5) < 1.0
  {
    TauWithin(root, roll, 0.5);
    XOfTau(root, roll, 0.5);
    EndsOfTheCurve(roll);
    hide RollX, RollTau;
  }

  lemma EndsOfTheCurve(roll: real)
    ensures RollX(roll, 0.0) == 0.0 && RollX(roll, 1.0) == 1.0
  {
    hide XOn;
    if roll - 1.0 > ROLL_LINEAR_TOLERANCE {
      RollXIsTheCurve(roll, 0.0);
      RollXIsTheCurve(roll, 1.0);
      assert Numerator(roll, 0.0) == 0.0 && Numerator(roll, 1.0) == roll + 1.0;
      Divides(0.0, 0.0, roll + 1.0);
      Divides(1.0, roll + 1.0, roll + 1.0);
    }
  }

  /** Run for `HalfTravelSeconds`, the model predicts exactly half the height, in both directions,
      if and only if the curtain time is one the model can divide by. */
  lemma HalfTravelIsHalf(root: real -> real, d: Direction, m: TravelModel, height: real)
    requires IsSquareRoot(root) && height > 0.0
    ensures PredictCm(d, RollOf(m, d), 1.0, ModelFraction(d, m, HalfTravelSeconds(root, d, m)), height) == height / 2.0
            <==> RunTime(m, d) - m.slat >= MIN_CURTAIN_TIME
  {
    hide RollTau, RollX, PredictCm;
    var roll := RollOf(m, d);
    var tau := RollTau(root, roll, 0.5);
    HalfTauPositive(root, roll);
    var aim := if d.Close? then tau else 1.0 - tau;
    HalfIsHalf(root, d, roll, height);
    var f := ModelFraction(d, m, HalfTravelSeconds(root, d, m));
    HalfFraction(root, d, m, aim);
    PredictionTellsFractions(d, roll, height, f, aim);
  }

  lemma HalfIsHalf(root: real -> real, d: Direction, roll: real, height: real)
    requires IsSquareRoot(root)
    ensures var tau := RollTau(root, roll, 0.5);
            PredictCm(d, roll, 1.0, if d.Close? then tau else 1.0 - tau, height) == height / 2.0
  {
    hide RollTau, RollX;
    var tau := RollTau(root, roll, 0.5);
    TauWithin(root, roll, 0.5);
    XOfTau(root, roll, 0.5);
    assert 1.0 - (1.0 - tau) == tau;
  }

  lemma HalfFraction(root: real -> real, d: Direction, m: TravelModel, aim: real)
    requires var tau := RollTau(root, RollOf(m, d), 0.5); 0.0 < tau < 1.0 && aim == if d.Close? then tau else 1.0 - tau
    ensures var f := ModelFraction(d, m, HalfTravelSeconds(root, d, m));
            0.0 <= f <= 1.0 && (f == aim <==> RunTime(m, d) - m.slat >= MIN_CURTAIN_TIME)
  {
    hide RollTau;
    var c := Max(0.0, RunTime(m, d) - m.slat);
    GrowsOrStays(0.0, c, aim);
    CurtainShare(c, aim);
    assert (if d.Close? then HalfTravelSeconds(root, d, m) else HalfTravelSeconds(root, d, m) - m.slat) == c * aim;
  }

  lemma CurtainShare(c: real, aim: real)
    requires c >= 0.0 && 0.0 < aim
    ensures var q := (c * aim) / Max(MIN_CURTAIN_TIME, c); 0.0 <= q <= aim && (q == aim <==> c >= MIN_CURTAIN_TIME)
  {
    if c >= MIN_CURTAIN_TIME { Scaled(c, aim); } else { ShortCurtain(c, aim, MIN_CURTAIN_TIME); }
  }

  lemma ShortCurtain(c: real, aim: real, least: real)
    requires 0.0 <= c < least && 0.0 < aim
    ensures 0.0 <= (c * aim) / least < aim
  {
    Grows(c, least, aim);
    GrowsOrStays(0.0, c, aim);
    RatioSign(c * aim, least);
    Over(c * aim, least * aim, least);
    Scaled(least, aim);
  }

  /** What the cover's own run to a fraction costs in motor seconds, slat phase included (cover.py). */
  function RunSeconds(d: Direction, m: TravelModel, fraction: real): real {
    var f := Clamp01(fraction);
    if d.Close? then Max(0.0, m.closing - m.slat) * f else m.slat + Max(0.0, m.opening - m.slat) * f
  }

  /** The fraction that spends `seconds` of motor on the cover as it is configured, or None. */
  function FractionOfTheRun(d: Direction, m: TravelModel, seconds: real): Option<real> {
    var curtain := RunTime(m, d) - m.slat;
    if curtain <= 0.0 then None
    else
      var fraction := if d.Open? then (seconds - m.slat) / curtain else seconds / curtain;
      if 0.0 < fraction <= 1.0 then Some(fraction) else None
  }

  /** A fraction is given exactly when the cover has a curtain time and a run of that fraction, in (0, 1],
      spends exactly those seconds; otherwise there is no such run, and none is invented. */
  lemma FractionSpendsTheSeconds(d: Direction, m: TravelModel, seconds: real, f: real)
    ensures FractionOfTheRun(d, m, seconds) == Some(f)
            <==> RunTime(m, d) - m.slat > 0.0 && 0.0 < f <= 1.0 && RunSeconds(d, m, f) == seconds
  {
    if RunTime(m, d) - m.slat > 0.0 {
      if d.Open? { AscentSpends(m, seconds, f); } else { DescentSpends(m, seconds, f); }
    }
  }

  lemma AscentSpends(m: TravelModel, seconds: real, f: real)
    requires m.opening - m.slat > 0.0
    ensures FractionOfTheRun(Open, m, seconds) == Some(f) <==> 0.0 < f <= 1.0 && RunSeconds(Open, m, f) == seconds
  {
    IsTheShare(seconds - m.slat, m.opening - m.slat, f);
    SpentBy(m.opening - m.slat, f);
  }

  lemma DescentSpends(m: TravelModel, seconds: real, f: real)
    requires m.closing - m.slat > 0.0
    ensures FractionOfTheRun(Close, m, seconds) == Some(f) <==> 0.0 < f <= 1.0 && RunSeconds(Close, m, f) == seconds
  {
    IsTheShare(seconds, m.closing - m.slat, f);
    SpentBy(m.closing - m.slat, f);
  }

  lemma IsTheShare(moving: real, curtain: real, f: real)
    requires curtain > 0.0
    ensures moving / curtain == f <==> curtain * f == moving
  {
    Undivided(moving, curtain);
    if curtain * f == moving { Scaled(curtain, f); }
  }

  lemma SpentBy(curtain: real, f: real)
    requires curtain > 0.0
    ensures 0.0 < f <= 1.0 ==> Max(0.0, curtain) * Clamp01(f) == curtain * f
  {
  }

  /** Path B's check end to end: the fraction worked out for the cover as it is configured today runs the
      motor for the seconds that put the bar of the model being checked at half the travel. */
  lemma CheckRunsToHalf(root: real -> real, d: Direction, model: TravelModel, configured: TravelModel, height: real,
                        f: real)
    requires IsSquareRoot(root) && height > 0.0 && RunTime(model, d) - model.slat >= MIN_CURTAIN_TIME
    requires FractionOfTheRun(d, configured, HalfTravelSeconds(root, d, model)) == Some(f)
    ensures 0.0 < f <= 1.0
    ensures PredictCm(d, RollOf(model, d), 1.0, ModelFraction(d, model, RunSeconds(d, configured, f)), height)
            == height / 2.0
  {
    FractionSpendsTheSeconds(d, configured, HalfTravelSeconds(root, d, model), f);
    HalfTravelIsHalf(root, d, model, height);
  }

  // ---------------------------------------------------------------- the gap under the bar

  /** Centimetres per second of the bottom edge as it leaves its rest; None for the source's refusal. */
  function ClosedEndSpeed(roll: real, height: real, curtainTime: real): Option<real> {
    if height <= 0.0 || curtainTime <= 0.0 then None
    else
      var k := Max(MIN_ROLL, roll);
      assert (k + 1.0) * curtainTime > 0.0;
      Some(2.0 * height / ((k + 1.0) * curtainTime))
  }

  lemma SpeedPositive(roll: real, height: real, curtainTime: real)
    requires height > 0.0 && curtainTime > 0.0
    ensures ClosedEndSpeed(roll, height, curtainTime).Some? && ClosedEndSpeed(roll, height, curtainTime).value > 0.0
  {
    var k := Max(MIN_ROLL, roll);
    assert (k + 1.0) * curtainTime > 0.0;
    Over(0.0, 2.0 * height, (k + 1.0) * curtainTime);
    Divides(0.0, 0.0, (k + 1.0) * curtainTime);
  }

  /** The lift-off run less the time the taped gap took to open at the speed the model gives the closed end. */
  function SlatTimeFromGap(stopSeconds: real, gapCm: real, roll: real, height: real,
                           curtainTime: real): (r: Option<real>)
    ensures r.None? <==> height <= 0.0 || curtainTime <= 0.0
    ensures r.Some? && stopSeconds >= 0.0 ==> 0.0 <= r.value <= stopSeconds
  {
    var speed := ClosedEndSpeed(roll, height, curtainTime);
    if speed.None? then None
    else
      SpeedPositive(roll, height, curtainTime);
      Some(Min(stopSeconds, Max(0.0, stopSeconds - Max(0.0, gapCm) / speed.value)))
  }

  /** The gap under a bar that has risen for `t` seconds since it lifted off, under the roll model. */
  function GapAfter(roll: real, height: real, curtainTime: real, t: real): real
    requires curtainTime > 0.0
  {
    height * (1.0 - RollX(roll, 1.0 - t / curtainTime))
  }

  /** How far short of the true slat phase the correction falls when the bar rose for `t` seconds. */
  function Shortfall(roll: real, curtainTime: real, t: real): real
    requires curtainTime > 0.0
  {
    var k := Max(MIN_ROLL, roll);
    if k - 1.0 > ROLL_LINEAR_TOLERANCE then t * t * (k - 1.0) / (2.0 * curtainTime) else t * (k - 1.0) / 2.0
  }

  /** The share of the travel risen after the share `u` of the curtain time, times k + 1. */
  function Risen(k: real, u: real): real {
    if k - 1.0 > ROLL_LINEAR_TOLERANCE then 2.0 * u + u * u * (k - 1.0) else u * (k + 1.0)
  }

  lemma Complement(a: real, b: real)
    requires b > 0.0
    ensures 1.0 - (b - a) / b == a / b
  {
    Undivided(a, b);
    Divides(1.0 - a / b, b - a, b);
  }

  lemma RisenShare(k: real, u: real)
    requires k - 1.0 > ROLL_LINEAR_TOLERANCE && 0.0 <= u <= 1.0
    ensures 1.0 - RollX(k, 1.0 - u) == Risen(k, u) / (k + 1.0)
  {
    RollXIsTheCurve(k, 1.0 - u);
    assert Numerator(k, 1.0 - u) == (k + 1.0) - Risen(k, u);
    hide RollX, Numerator, Risen;
    Complement(Risen(k, u), k + 1.0);
  }

  lemma RisenLinear(roll: real, k: real, u: real)
    requires k == Max(MIN_ROLL, roll) && k - 1.0 <= ROLL_LINEAR_TOLERANCE && 0.0 <= u <= 1.0
    ensures 1.0 - RollX(roll, 1.0 - u) == Risen(k, u) / (k + 1.0)
  {
    assert 1.0 - RollX(roll, 1.0 - u) == u;
    Divides(u, Risen(k, u), k + 1.0);
  }

  lemma RisenPart(roll: real, k: real, u: real)
    requires k == Max(MIN_ROLL, roll) && 0.0 <= u <= 1.0
    ensures 1.0 - RollX(roll, 1.0 - u) == Risen(k, u) / (k + 1.0)
  {
    hide RollX, Risen;
    if k - 1.0 > ROLL_LINEAR_TOLERANCE { RisenShare(k, u); } else { RisenLinear(roll, k, u); }
  }

  lemma RisenSign(k: real, u: real)
    requires k >= 1.0 && 0.0 <= u
    ensures Risen(k, u) >= 0.0
  {
    SquareSign(u, k - 1.0);
    GrowsOrStays(0.0, u, k + 1.0);
  }

  lemma SquareSign(u: real, m: real)
    requires m >= 0.0
    ensures u * u * m >= 0.0
  {
    Square(u);
    GrowsOrStays(0.0, u * u, m);
  }

  lemma Square(u: real)
    ensures u * u >= 0.0
  {
  }

  lemma RisenSeconds(roll: real, k: real, u: real, tc: real, t: real)
    requires k == Max(MIN_ROLL, roll) && tc > 0.0 && u * tc == t
    ensures 2.0 * (t + Shortfall(roll, tc, t)) == Risen(k, u) * tc
  {
    if k - 1.0 > ROLL_LINEAR_TOLERANCE {
      SquareTerm(k, u, t, tc);
      assert Risen(k, u) * tc == 2.0 * (u * tc) + u * u * (k - 1.0) * tc;
    } else {
      assert Risen(k, u) * tc == (u * tc) * (k + 1.0);
    }
  }

  /** The seconds the correction takes off: the true ones and the shortfall. */
  lemma SecondsTakenOff(roll: real, height: real, curtainTime: real, t: real)
    requires height > 0.0 && curtainTime > 0.0 && 0.0 <= t <= curtainTime
    ensures var v := ClosedEndSpeed(roll, height, curtainTime);
            v.Some? && v.value > 0.0
            && GapAfter(roll, height, curtainTime, t) / v.value == t + Shortfall(roll, curtainTime, t)
    ensures GapAfter(roll, height, curtainTime, t) >= 0.0
  {
    hide ClosedEndSpeed, RollX, Risen, Shortfall;
    Undivided(t, curtainTime);
    RatioWithin(t, curtainTime);
    TakenOffAt(roll, Max(MIN_ROLL, roll), height, curtainTime, t, t / curtainTime);
  }

  lemma AtLeastOne(roll: real)
    ensures Max(MIN_ROLL, roll) >= 1.0
  {
  }

  lemma TakenOffAt(roll: real, k: real, height: real, tc: real, t: real, u: real)
    requires height > 0.0 && tc > 0.0 && k == Max(MIN_ROLL, roll) && 0.0 <= u <= 1.0 && u * tc == t
    ensures var v, gap := ClosedEndSpeed(roll, height, tc), height * (1.0 - RollX(roll, 1.0 - u));
            v.Some? && v.value > 0.0 && gap / v.value == t + Shortfall(roll, tc, t) && gap >= 0.0
  {
    hide ClosedEndSpeed, RollX, Risen, Shortfall, Max;
    SpeedPositive(roll, height, tc);
    SpeedIs(roll, k, height, tc);
    RisenPart(roll, k, u);
    RisenSeconds(roll, k, u, tc, t);
    AtLeastOne(roll);
    RisenSign(k, u);
    TakenOff(height * (1.0 - RollX(roll, 1.0 - u)), t + Shortfall(roll, tc, t),
             ClosedEndSpeed(roll, height, tc).value, height, Risen(k, u), k, tc);
  }

  lemma TakenOff(gap: real, s: real, v: real, height: real, a: real, k: real, tc: real)
    requires k >= 1.0 && tc > 0.0 && height > 0.0 && v > 0.0 && a >= 0.0
    requires v * ((k + 1.0) * tc) == 2.0 * height && 2.0 * s == a * tc && gap == height * (a / (k + 1.0))
    ensures gap / v == s && gap >= 0.0
  {
    SpeedTimes(s, v, height, a, k, tc);
    GapSign(height, a, k);
    Divides(s, gap, v);
  }

  lemma SpeedIs(roll: real, k: real, height: real, curtainTime: real)
    requires height > 0.0 && curtainTime > 0.0 && k == Max(MIN_ROLL, roll)
    ensures ClosedEndSpeed(roll, height, curtainTime).Some?
    ensures ClosedEndSpeed(roll, height, curtainTime).value * ((k + 1.0) * curtainTime) == 2.0 * height
  {
    Grows(0.0, k + 1.0, curtainTime);
    Undivided(2.0 * height, (k + 1.0) * curtainTime);
  }

  lemma SquareTerm(k: real, u: real, t: real, tc: real)
    requires tc > 0.0 && u * tc == t
    ensures t * t * (k - 1.0) / (2.0 * tc) == u * u * (k - 1.0) * tc / 2.0
  {
    var q := u * u * (k - 1.0) * tc / 2.0;
    assert t * t == u * u * (tc * tc) by { assert (u * tc) * (u * tc) == u * u * (tc * tc); }
    assert q * (2.0 * tc) == u * u * (k - 1.0) * (tc * tc);
    assert t * t * (k - 1.0) == u * u * (k - 1.0) * (tc * tc) by {
      assert u * u * (tc * tc) * (k - 1.0) == u * u * (k - 1.0) * (tc * tc);
    }
    Divides(q, t * t * (k - 1.0), 2.0 * tc);
  }

  lemma SpeedTimes(s: real, v: real, height: real, a: real, k: real, tc: real)
    requires k >= 1.0 && tc > 0.0 && v * ((k + 1.0) * tc) == 2.0 * height && 2.0 * s == a * tc
    ensures s * v == height * (a / (k + 1.0))
  {
    var w := a / (k + 1.0);
    assert w * (k + 1.0) == a;
    assert 2.0 * (s * v) == (a * tc) * v;
    assert (a * tc) * v == w * (v * ((k + 1.0) * tc)) by {
      assert (w * (k + 1.0) * tc) * v == w * (v * ((k + 1.0) * tc));
    }
    assert w * (2.0 * height) == 2.0 * (height * w);
  }

  lemma GapSign(height: real, a: real, k: real)
    requires height > 0.0 && a >= 0.0 && k >= 1.0
    ensures height * (a / (k + 1.0)) >= 0.0
  {
    var w := a / (k + 1.0);
    assert w * (k + 1.0) == a;
    if w < 0.0 { Grows(w, 0.0, k + 1.0); }
    GrowsOrStays(0.0, w, height);
  }

  /** If the bar truly rose for `t` seconds after it lifted off, the correction is the true slat phase less
      the shortfall, and never less than nothing. The shortfall is `t^2 (k-1) / 2 Tc` beyond the linear
      tolerance and nothing for a roll of 1, so the correction never exceeds the truth. */
  lemma GapCorrectionIsOneSided(stopSeconds: real, roll: real, height: real, curtainTime: real, t: real)
    requires height > 0.0 && curtainTime > 0.0 && 0.0 <= t <= curtainTime && t <= stopSeconds
    ensures var truth, short := stopSeconds - t, Shortfall(roll, curtainTime, t);
            && SlatTimeFromGap(stopSeconds, GapAfter(roll, height, curtainTime, t), roll, height, curtainTime)
               == Some(Max(0.0, truth - short))
            && short >= 0.0
            && truth - short <= Max(0.0, truth - short) <= truth
  {
    SecondsTakenOff(roll, height, curtainTime, t);
    ShortfallSign(roll, curtainTime, t);
  }

  lemma ShortfallSign(roll: real, curtainTime: real, t: real)
    requires curtainTime > 0.0 && 0.0 <= t
    ensures Shortfall(roll, curtainTime, t) >= 0.0
  {
    var k := Max(MIN_ROLL, roll);
    GrowsOrStays(0.0, t, t);
    GrowsOrStays(0.0, t * t, k - 1.0);
    GrowsOrStays(0.0, t, k - 1.0);
    RatioSign(t * t * (k - 1.0), 2.0 * curtainTime);
  }
}
