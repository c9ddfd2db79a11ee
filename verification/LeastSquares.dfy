/**
 Weighted squared error as a function of the coefficients, and its exact second-order expansion.
 Both regressors rest on it.
 */
module LeastSquares {
  import opened Linear
  import opened Wrappers

  datatype FitError = Misaligned | WidthMismatch | WeightNotPositive | SingularSystem

  /** `_validate_fit_inputs`. */
  function Validate(features: Matrix, target: Vector, weights: Vector, width: nat): Option<FitError> {
    if |features| == 0 || |features| != |target| || |target| != |weights| then Some(Misaligned)
    else if exists i :: 0 <= i < |features| && |features[i]| != width then Some(WidthMismatch)
    else if exists i :: 0 <= i < |weights| && weights[i] <= 0.0 then Some(WeightNotPositive)
    else None
  }

  /** What the error says about the training set: its rows, then their widths, then the weights. */
  predicate IsProblem(features: Matrix, target: Vector, weights: Vector, width: nat, e: FitError) {
    var aligned := |features| > 0 && |features| == |target| == |weights|;
    match e
    case Misaligned => !aligned
    case WidthMismatch => aligned && exists row <- features :: |row| != width
    case WeightNotPositive =>
      && aligned && (forall row <- features :: |row| == width)
      && exists i :: 0 <= i < |weights| && weights[i] <= 0.0
    case SingularSystem => false
  }

  lemma ValidateIs(features: Matrix, target: Vector, weights: Vector, width: nat, e: FitError)
    ensures Validate(features, target, weights, width) == Some(e) <==> IsProblem(features, target, weights, width, e)
  {
    assert (exists row <- features :: |row| != width) <==> exists i :: 0 <= i < |features| && |features[i]| != width;
  }

  // ---- The loss of a linear prediction ----

  /** The intercept plus the sum of `slopes[k] * x[k]` over `k < n`. */
  ghost function Predicted(intercept: real, slopes: Vector, x: Vector, n: nat): real
    requires n <= |slopes| && n <= |x|
  {
    if n == 0 then intercept else Predicted(intercept, slopes, x, n - 1) + slopes[n - 1] * x[n - 1]
  }

  ghost predicate AllWide(features: Matrix, width: nat) {
    forall i :: 0 <= i < |features| ==> |features[i]| == width
  }

  /** The weighted squared error of these predictions over the first `m` rows. */
  ghost function Loss(features: Matrix, target: Vector, weights: Vector, intercept: real, slopes: Vector, m: nat): real
    requires m <= |features| == |target| == |weights| && AllWide(features, |slopes|)
  {
    if m == 0 then 0.0
    else
      var error := target[m - 1] - Predicted(intercept, slopes, features[m - 1], |slopes|);
      Loss(features, target, weights, intercept, slopes, m - 1) + weights[m - 1] * (error * error)
  }

  /** The sum of the squares of `c[0]`, ..., `c[n - 1]`. */
  ghost function Squares(c: Vector, n: nat): real
    requires n <= |c|
  {
    if n == 0 then 0.0 else Squares(c, n - 1) + c[n - 1] * c[n - 1]
  }

  /** One training set of positively weighted rows. */
  datatype Sample = Sample(design: Matrix, target: Vector, weights: Vector, width: nat) {
    ghost predicate Valid() {
      && |design| == |target| == |weights|
      && (forall i :: 0 <= i < |design| ==> |design[i]| == width)
      && (forall i :: 0 <= i < |weights| ==> weights[i] > 0.0)
    }
  }

  /** One weighted squared residual, of prediction `p` for outcome `y`. */
  ghost function ErrorTerm(w: real, y: real, p: real): real {
    w * Square(y - p)
  }

  /** The weighted squared error of coefficients `c` over the first `m` rows. */
  ghost function SquaredError(s: Sample, c: Vector, m: nat): real
    requires s.Valid() && |c| == s.width && m <= |s.design|
  {
    if m == 0 then 0.0
    else
      SquaredError(s, c, m - 1) + ErrorTerm(s.weights[m - 1], s.target[m - 1], Dot(s.design[m - 1], c, s.width))
  }

  ghost function GradientTerm(w: real, a: real, p: real, y: real): real {
    w * a * (p - y)
  }

  /** Half the derivative of the squared error in coefficient `left`. */
  ghost function Gradient(s: Sample, c: Vector, left: nat, m: nat): real
    requires s.Valid() && |c| == s.width && left < s.width && m <= |s.design|
  {
    if m == 0 then 0.0
    else
      Gradient(s, c, left, m - 1)
      + GradientTerm(s.weights[m - 1], s.design[m - 1][left], Dot(s.design[m - 1], c, s.width), s.target[m - 1])
  }

  ghost function GradientVector(s: Sample, c: Vector, m: nat): (g: Vector)
    requires s.Valid() && |c| == s.width && m <= |s.design|
    ensures |g| == s.width
  {
    seq(s.width, left requires 0 <= left < s.width => Gradient(s, c, left, m))
  }

  // ---- Expanding the error around a point ----

  ghost function CrossTerm(w: real, y: real, p: real, q: real): real {
    w * (p - y) * q
  }

  /** The mixed term of the squared error of `c + h`. */
  ghost function Cross(s: Sample, c: Vector, h: Vector, m: nat): real
    requires s.Valid() && |c| == |h| == s.width && m <= |s.design|
  {
    if m == 0 then 0.0
    else
      Cross(s, c, h, m - 1)
      + CrossTerm(s.weights[m - 1], s.target[m - 1], Dot(s.design[m - 1], c, s.width), Dot(s.design[m - 1], h, s.width))
  }

  /** The quadratic term of the squared error of `c + h`. */
  ghost function Spread(s: Sample, h: Vector, m: nat): (q: real)
    requires s.Valid() && |h| == s.width && m <= |s.design|
  {
    if m == 0 then 0.0
    else
      Spread(s, h, m - 1) + ErrorTerm(s.weights[m - 1], 0.0, Dot(s.design[m - 1], h, s.width))
  }

  ghost function Plus(c: Vector, h: Vector): (r: Vector)
    requires |c| == |h|
    ensures |r| == |c|
  {
    seq(|c|, k requires 0 <= k < |c| => c[k] + h[k])
  }

  lemma {:induction false} ErrorExpands(s: Sample, c: Vector, h: Vector, m: nat)
    requires s.Valid() && |c| == |h| == s.width && m <= |s.design|
    ensures SquaredError(s, Plus(c, h), m) == SquaredError(s, c, m) + 2.0 * Cross(s, c, h, m) + Spread(s, h, m)
  {
    hide ErrorTerm, CrossTerm, Dot;
    if m > 0 {
      ErrorExpands(s, c, h, m - 1);
      var w, d, y := s.weights[m - 1], s.design[m - 1], s.target[m - 1];
      DotSum(d, c, h, Plus(c, h), s.width);
      SquareExpands(w, y, Dot(d, c, s.width), Dot(d, h, s.width));
    }
  }

  lemma SquareExpands(w: real, y: real, p: real, q: real)
    ensures ErrorTerm(w, y, p + q) == ErrorTerm(w, y, p) + 2.0 * CrossTerm(w, y, p, q) + ErrorTerm(w, 0.0, q)
  {
    assert Square(y - (p + q)) == Square(y - p) + 2.0 * ((p - y) * q) + Square(q);
  }

  /** The mixed term is the gradient applied to `h`. */
  lemma {:induction false} CrossIsGradient(s: Sample, c: Vector, h: Vector, m: nat)
    requires s.Valid() && |c| == |h| == s.width && m <= |s.design|
    ensures Cross(s, c, h, m) == Dot(GradientVector(s, c, m), h, s.width)
  {
    hide Dot, Gradient, CrossTerm;
    if m == 0 {
      GradientVectorZero(s, c);
      DotUnit(GradientVector(s, c, 0), h, s.width, s.width);
    } else {
      CrossIsGradient(s, c, h, m - 1);
      var d := s.design[m - 1];
      var f := s.weights[m - 1] * (Dot(d, c, s.width) - s.target[m - 1]);
      GradientVectorStep(s, c, m);
      DotCombination(GradientVector(s, c, m), GradientVector(s, c, m - 1), -f, d, h, s.width);
      CrossTermAs(s.weights[m - 1], s.target[m - 1], Dot(d, c, s.width), Dot(d, h, s.width), -f);
      var scaled := (-f) * Dot(d, h, s.width);
      assert Cross(s, c, h, m) == Cross(s, c, h, m - 1) - scaled;
      assert Dot(GradientVector(s, c, m), h, s.width) == Dot(GradientVector(s, c, m - 1), h, s.width) - scaled;
    }
  }

  lemma CrossTermAs(w: real, y: real, p: real, q: real, g: real)
    requires g == -(w * (p - y))
    ensures CrossTerm(w, y, p, q) == -(g * q)
  {
  }

  lemma GradientVectorZero(s: Sample, c: Vector)
    requires s.Valid() && |c| == s.width
    ensures forall k :: 0 <= k < s.width ==> GradientVector(s, c, 0)[k] == 0.0
  {
  }

  lemma GradientVectorStep(s: Sample, c: Vector, m: nat)
    requires s.Valid() && |c| == s.width && 1 <= m <= |s.design|
    ensures var f := s.weights[m - 1] * (Dot(s.design[m - 1], c, s.width) - s.target[m - 1]);
            forall k :: 0 <= k < s.width ==>
              GradientVector(s, c, m)[k] == GradientVector(s, c, m - 1)[k] - (-f) * s.design[m - 1][k]
  {
    hide Dot, GradientTerm;
    var w, d, p, y := s.weights[m - 1], s.design[m - 1], Dot(s.design[m - 1], c, s.width), s.target[m - 1];
    forall k | 0 <= k < s.width
      ensures GradientVector(s, c, m)[k] == GradientVector(s, c, m - 1)[k] - (-(w * (p - y))) * d[k]
    {
      Regroup(w, d[k], p, y);
    }
  }

  lemma Regroup(w: real, a: real, p: real, y: real)
    ensures GradientTerm(w, a, p, y) == -((-(w * (p - y))) * a)
  {
  }

  lemma {:induction false} SpreadNonNegative(s: Sample, h: Vector, m: nat)
    requires s.Valid() && |h| == s.width && m <= |s.design|
    ensures Spread(s, h, m) >= 0.0
    ensures Spread(s, h, m) == 0.0 ==> forall i :: 0 <= i < m ==> Dot(s.design[i], h, s.width) == 0.0
  {
    hide Dot, ErrorTerm;
    if m > 0 {
      SpreadNonNegative(s, h, m - 1);
      ErrorTermPositive(s.weights[m - 1], Dot(s.design[m - 1], h, s.width));
    }
  }

  lemma ErrorTermPositive(w: real, q: real)
    requires w > 0.0
    ensures ErrorTerm(w, 0.0, q) >= 0.0
    ensures ErrorTerm(w, 0.0, q) == 0.0 ==> q == 0.0
  {
    SquareIsPositive(0.0 - q);
    NonNegativeProduct(w, Square(0.0 - q), ErrorTerm(w, 0.0, q));
  }

  lemma {:induction false} FlatGradient(s: Sample, c: Vector, h: Vector, l: nat, m: nat)
    requires s.Valid() && |c| == |h| == s.width && l < s.width && m <= |s.design|
    requires forall i :: 0 <= i < |s.design| ==> Dot(s.design[i], h, s.width) == 0.0
    ensures Gradient(s, Plus(c, h), l, m) == Gradient(s, c, l, m)
  {
    if m > 0 {
      hide Dot, GradientTerm;
      FlatGradient(s, c, h, l, m - 1);
      DotSum(s.design[m - 1], c, h, Plus(c, h), s.width);
    }
  }
}
