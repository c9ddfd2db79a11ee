/**
 Elastic net by cyclic coordinate descent: every update is the exact minimiser of the penalised
 weighted objective in its coordinate, so no sweep raises the objective.
 */
module ElasticNet {
  import opened LeastSquares
  import opened Linear
  import opened Wrappers

  /** The two penalty strengths, already multiplied by the weight sum. */
  datatype Penalties = Penalties(threshold: real, ridge: real) {
    predicate Valid() {
      threshold >= 0.0 && ridge >= 0.0 && threshold + ridge > 0.0
    }
  }

  // ---- The objective ----

  /** The penalty of one coefficient: `2 t |v| + r v^2`. */
  ghost function PenaltyTerm(p: Penalties, v: real): real {
    2.0 * Times(p.threshold, Abs(v)) + Times(p.ridge, Square(v))
  }

  ghost function Penalty(p: Penalties, c: Vector, k: nat): real
    requires k <= |c|
  {
    if k == 0 then 0.0 else Penalty(p, c, k - 1) + PenaltyTerm(p, c[k - 1])
  }

  /** Twice the elastic-net objective. */
  ghost function Objective(s: Sample, p: Penalties, c: Vector): real
    requires s.Valid() && |c| == s.width
  {
    SquaredError(s, c, |s.design|) + Penalty(p, c, s.width)
  }

  ghost predicate IsGlobalMinimum(s: Sample, p: Penalties, c: Vector)
    requires s.Valid() && |c| == s.width
  {
    forall other: Vector | |other| == s.width :: Objective(s, p, c) <= Objective(s, p, other)
  }

  // ---- One coordinate ----

  /** `_soft_threshold`. */
  function SoftThreshold(value: real, threshold: real): real {
    if value > threshold then value - threshold
    else if value < -threshold then value + threshold
    else 0.0
  }

  function ScaleTerm(w: real, a: real): real {
    w * Square(a)
  }

  /** The sum of `w * x_j^2`. */
  function Scale(s: Sample, j: nat, m: nat): real
    requires m <= |s.design| && m <= |s.weights|
    requires forall i :: 0 <= i < m ==> j < |s.design[i]|
  {
    if m == 0 then 0.0 else Scale(s, j, m - 1) + ScaleTerm(s.weights[m - 1], s.design[m - 1][j])
  }

  /** The correlation of column `j` with the residual that leaves coefficient `j` out. */
  ghost function ResidualProduct(s: Sample, c: Vector, j: nat): real
    requires s.Valid() && |c| == s.width && j < s.width
  {
    -Gradient(s, c[j := 0.0], j, |s.design|)
  }

  /** The value an update gives a coordinate with residual product `r` and denominator `d`. */
  function Updated(r: real, d: real, threshold: real): real {
    if d != 0.0 then SoftThreshold(r, threshold) / d else 0.0
  }

  ghost function Update(s: Sample, p: Penalties, c: Vector, j: nat): real
    requires s.Valid() && |c| == s.width && j < s.width
  {
    Updated(ResidualProduct(s, c, j), Scale(s, j, |s.design|) + p.ridge, p.threshold)
  }

  /** The objective along one coordinate, up to a constant. */
  function Line(r: real, d: real, threshold: real, v: real): real {
    d * Square(v) - 2.0 * (r * v) + 2.0 * (threshold * Abs(v))
  }

  /** `Updated` minimises `Line`, and the excess grows at least quadratically. */
  lemma UpdatedIsBest(r: real, d: real, t: real, v: real)
    requires t >= 0.0 && d >= 0.0
    requires d == 0.0 ==> r == 0.0
    ensures Line(r, d, t, v) >= Line(r, d, t, Updated(r, d, t)) + d * Square(v - Updated(r, d, t))
  {
    if d == 0.0 {
      FlatLine(t, v);
    } else {
      var u := Updated(r, d, t);
      var q := SoftThreshold(r, t);
      assert u * d == q;
      SoftSlope(r, t, v);
      LineGap(r, d, t, u, v, q);
    }
  }

  lemma FlatLine(t: real, v: real)
    requires t >= 0.0
    ensures Line(0.0, 0.0, t, v) >= Line(0.0, 0.0, t, 0.0) + 0.0 * Square(v - 0.0)
  {
    NonNegativeProduct(t, Abs(v), t * Abs(v));
  }

  /** `r - SoftThreshold(r)` is a slope of `t |v|` that is attained at any point of the update's sign. */
  lemma SoftSlope(r: real, t: real, v: real)
    requires t >= 0.0
    ensures var e := r - SoftThreshold(r, t); e * v <= t * Abs(v)
    ensures SoftThreshold(r, t) > 0.0 ==> r - SoftThreshold(r, t) == t
    ensures SoftThreshold(r, t) < 0.0 ==> r - SoftThreshold(r, t) == -t
  {
    var e := r - SoftThreshold(r, t);
    assert -t <= e <= t;
    if v >= 0.0 {
      NonNegativeProduct(t - e, v, (t - e) * v);
      SplitProduct(t, e, v);
    } else {
      NonNegativeProduct(t + e, -v, (t + e) * -v);
      SplitNegative(t, e, v);
    }
  }

  lemma SplitProduct(t: real, e: real, v: real)
    ensures (t - e) * v == t * v - e * v
  {
  }

  lemma SplitNegative(t: real, e: real, v: real)
    ensures (t + e) * -v == t * -v - e * v
  {
  }

  /** The gap between `v` and the stationary `u`, where `q = d u` and `r - q` is a slope of `t |.|` at `u`. */
  lemma LineGap(r: real, d: real, t: real, u: real, v: real, q: real)
    requires d > 0.0 && t >= 0.0 && u * d == q
    requires (r - q) * v <= t * Abs(v)
    requires q > 0.0 ==> r - q == t
    requires q < 0.0 ==> r - q == -t
    ensures Line(r, d, t, v) >= Line(r, d, t, u) + d * Square(v - u)
  {
    SignOfQuotient(u, d, q);
    Attained(r - q, t, u, q);
    SquareShift(d, v, u, q);
    LinearSplit(r, q, v);
    LinearSplit(r, q, u);
  }

  lemma SignOfQuotient(u: real, d: real, q: real)
    requires d > 0.0 && u * d == q
    ensures q > 0.0 <==> u > 0.0
    ensures q < 0.0 <==> u < 0.0
  {
    if u > 0.0 {
      PositiveProduct(u, d, q);
    } else if u < 0.0 {
      PositiveProduct(-u, d, -q);
    }
  }

  lemma Attained(e: real, t: real, u: real, q: real)
    requires q > 0.0 <==> u > 0.0
    requires q < 0.0 <==> u < 0.0
    requires q > 0.0 ==> e == t
    requires q < 0.0 ==> e == -t
    ensures e * u == t * Abs(u)
  {
  }

  lemma SquareShift(d: real, v: real, u: real, q: real)
    requires u * d == q
    ensures d * Square(v) - 2.0 * (q * v) == d * Square(u) - 2.0 * (q * u) + d * Square(v - u)
  {
    assert q * v == d * (u * v);
    assert q * u == d * Square(u);
    assert Square(v - u) == Square(v) - 2.0 * (u * v) + Square(u);
    assert d * (Square(v) - 2.0 * (u * v) + Square(u)) == d * Square(v) - 2.0 * (d * (u * v)) + d * Square(u);
  }

  lemma LinearSplit(r: real, q: real, v: real)
    ensures r * v == q * v + (r - q) * v
  {
  }

  // ---- From the line back to the objective ----

  /** The vector with `v` at `j` and zero elsewhere. */
  ghost function Along(n: nat, j: nat, v: real): (h: Vector)
    ensures |h| == n
  {
    seq(n, k requires 0 <= k < n => if k == j then v else 0.0)
  }

  lemma {:induction false} DotAlong(a: Vector, j: nat, v: real, n: nat, width: nat)
    requires n <= |a| && n <= width
    ensures Dot(a, Along(width, j, v), n) == if j < n then a[j] * v else 0.0
  {
    if n > 0 {
      DotAlong(a, j, v, n - 1, width);
    }
  }

  lemma {:induction false} SpreadAlong(s: Sample, j: nat, v: real, m: nat)
    requires s.Valid() && j < s.width && m <= |s.design|
    ensures Spread(s, Along(s.width, j, v), m) == Times(Scale(s, j, m), Square(v))
  {
    hide Dot, ErrorTerm, ScaleTerm, Square, Times;
    if m == 0 {
      TimesZero(Square(v));
    } else {
      SpreadAlong(s, j, v, m - 1);
      var w, d := s.weights[m - 1], s.design[m - 1];
      DotAlong(d, j, v, s.width, s.width);
      TermAlong(w, d[j], v, Dot(d, Along(s.width, j, v), s.width));
      SumTimes(Scale(s, j, m - 1), ScaleTerm(w, d[j]), Scale(s, j, m), Square(v));
    }
  }

  lemma TermAlong(w: real, a: real, v: real, q: real)
    requires q == a * v
    ensures ErrorTerm(w, 0.0, q) == Times(ScaleTerm(w, a), Square(v))
  {
    assert Square(0.0 - a * v) == Square(a) * Square(v);
  }

  lemma SumTimes(a: real, b: real, sum: real, v: real)
    requires sum == a + b
    ensures Times(sum, v) == Times(a, v) + Times(b, v)
  {
  }

  lemma TimesZero(v: real)
    ensures Times(0.0, v) == 0.0
  {
  }

  lemma {:induction false} PenaltyAlong(p: Penalties, c: Vector, j: nat, v: real, k: nat)
    requires j < |c| && k <= |c|
    ensures Penalty(p, c[j := v], k) == Penalty(p, c[j := 0.0], k) + if j < k then PenaltyTerm(p, v) else 0.0
  {
    if k > 0 {
      PenaltyAlong(p, c, j, v, k - 1);
    }
  }

  lemma {:induction false} ScaleNonNegative(s: Sample, j: nat, m: nat)
    requires s.Valid() && j < s.width && m <= |s.design|
    ensures Scale(s, j, m) >= 0.0
    ensures Scale(s, j, m) == 0.0 ==> forall i :: 0 <= i < m ==> s.design[i][j] == 0.0
  {
    if m > 0 {
      ScaleNonNegative(s, j, m - 1);
      SquareIsPositive(s.design[m - 1][j]);
      var q := Square(s.design[m - 1][j]);
      NonNegativeProduct(s.weights[m - 1], q, s.weights[m - 1] * q);
    }
  }

  lemma {:induction false} BlankColumn(s: Sample, c: Vector, j: nat, m: nat)
    requires s.Valid() && |c| == s.width && j < s.width && m <= |s.design|
    requires forall i :: 0 <= i < m ==> s.design[i][j] == 0.0
    ensures Gradient(s, c, j, m) == 0.0
  {
    if m > 0 {
      BlankColumn(s, c, j, m - 1);
    }
  }

  /** Along coordinate `j` the objective is `Line`. */
  lemma ObjectiveAlong(s: Sample, p: Penalties, c: Vector, j: nat, v: real)
    requires s.Valid() && |c| == s.width && j < s.width
    ensures Objective(s, p, c[j := v])
         == Objective(s, p, c[j := 0.0])
            + Line(ResidualProduct(s, c, j), Scale(s, j, |s.design|) + p.ridge, p.threshold, v)
  {
    hide Dot, ErrorTerm, SquaredError, Spread, Cross, Gradient, Scale, Penalty, Square, Line;
    var m, c0, h := |s.design|, c[j := 0.0], Along(s.width, j, v);
    assert Plus(c0, h) == c[j := v];
    ErrorExpands(s, c0, h, m);
    CrossIsGradient(s, c0, h, m);
    DotAlong(GradientVector(s, c0, m), j, v, s.width, s.width);
    SpreadAlong(s, j, v, m);
    PenaltyAlong(p, c, j, v, s.width);
    LineSums(ResidualProduct(s, c, j), Scale(s, j, m), p, v, GradientVector(s, c0, m)[j]);
  }

  lemma LineSums(r: real, scale: real, p: Penalties, v: real, g: real)
    requires g == -r
    ensures 2.0 * (g * v) + scale * Square(v) + PenaltyTerm(p, v) == Line(r, scale + p.ridge, p.threshold, v)
  {
    hide Square, Abs;
    assert (scale + p.ridge) * Square(v) == scale * Square(v) + p.ridge * Square(v);
  }

  /** No value of coordinate `j` is better than the update, and worse ones lose quadratically. */
  lemma UpdateIsBest(s: Sample, p: Penalties, c: Vector, j: nat, v: real)
    requires s.Valid() && p.Valid() && |c| == s.width && j < s.width
    ensures Objective(s, p, c[j := v])
         >= Objective(s, p, c[j := Update(s, p, c, j)])
            + (Scale(s, j, |s.design|) + p.ridge) * Square(v - Update(s, p, c, j))
  {
    hide Objective, Gradient, Scale, Line, Updated;
    var m := |s.design|;
    var r, d := ResidualProduct(s, c, j), Scale(s, j, m) + p.ridge;
    ScaleNonNegative(s, j, m);
    if d == 0.0 {
      BlankColumn(s, c[j := 0.0], j, m);
    }
    UpdatedIsBest(r, d, p.threshold, v);
    ObjectiveAlong(s, p, c, j, v);
    ObjectiveAlong(s, p, c, j, Update(s, p, c, j));
  }

  /** An update never raises the objective. */
  lemma UpdateDescends(s: Sample, p: Penalties, c: Vector, j: nat)
    requires s.Valid() && p.Valid() && |c| == s.width && j < s.width
    ensures Objective(s, p, c[j := Update(s, p, c, j)]) <= Objective(s, p, c)
  {
    hide Objective, Scale, Update;
    var u := Update(s, p, c, j);
    UpdateIsBest(s, p, c, j, c[j]);
    assert c[j := c[j]] == c;
    ScaleNonNegative(s, j, |s.design|);
    SquareIsPositive(c[j] - u);
    var d := Scale(s, j, |s.design|) + p.ridge;
    NonNegativeProduct(d, Square(c[j] - u), d * Square(c[j] - u));
  }

  // ---- A settled point is a global minimum ----

  /** A sweep from `c` would change nothing. */
  ghost predicate Settled(s: Sample, p: Penalties, c: Vector)
    requires s.Valid() && |c| == s.width
  {
    forall j :: 0 <= j < s.width ==> c[j] == Update(s, p, c, j)
  }

  lemma {:induction false} GradientShift(s: Sample, c: Vector, j: nat, m: nat)
    requires s.Valid() && |c| == s.width && j < s.width && m <= |s.design|
    ensures Gradient(s, c, j, m) == Gradient(s, c[j := 0.0], j, m) + Times(Scale(s, j, m), c[j])
  {
    hide Dot, ScaleTerm, Times, GradientTerm;
    if m == 0 {
      TimesZero(c[j]);
    } else {
      GradientShift(s, c, j, m - 1);
      var w, d, y, c0 := s.weights[m - 1], s.design[m - 1], s.target[m - 1], c[j := 0.0];
      var h := Along(s.width, j, c[j]);
      assert c == Plus(c0, h);
      DotSum(d, c0, h, c, s.width);
      DotAlong(d, j, c[j], s.width, s.width);
      ShiftTerm(w, d[j], Dot(d, c0, s.width), c[j], y, Dot(d, c, s.width));
      SumTimes(Scale(s, j, m - 1), ScaleTerm(w, d[j]), Scale(s, j, m), c[j]);
    }
  }

  lemma ShiftTerm(w: real, a: real, p: real, v: real, y: real, q: real)
    requires q == p + a * v
    ensures GradientTerm(w, a, q, y) == GradientTerm(w, a, p, y) + Times(ScaleTerm(w, a), v)
  {
    assert w * a * (a * v) == (w * Square(a)) * v;
  }

  /** At a settled coordinate, no move `h` gains more from the linear term than it pays in penalty. */
  lemma SettledCoordinate(s: Sample, p: Penalties, c: Vector, j: nat, h: real)
    requires s.Valid() && p.Valid() && |c| == s.width && j < s.width
    requires c[j] == Update(s, p, c, j)
    ensures 2.0 * Times(Gradient(s, c, j, |s.design|), h) + PenaltyTerm(p, c[j] + h) - PenaltyTerm(p, c[j]) >= 0.0
  {
    hide Gradient, Scale, PenaltyTerm, Updated, Times;
    var m := |s.design|;
    var r, scale := ResidualProduct(s, c, j), Scale(s, j, m);
    GradientShift(s, c, j, m);
    ScaleNonNegative(s, j, m);
    if scale + p.ridge == 0.0 {
      BlankColumn(s, c[j := 0.0], j, m);
    }
    SettledValue(p, r, scale, Gradient(s, c, j, m), c[j], h);
  }

  lemma SettledValue(p: Penalties, r: real, scale: real, g: real, v: real, h: real)
    requires p.Valid() && scale >= 0.0 && g == -r + Times(scale, v)
    requires v == Updated(r, scale + p.ridge, p.threshold)
    requires scale + p.ridge == 0.0 ==> r == 0.0
    ensures 2.0 * Times(g, h) + PenaltyTerm(p, v + h) - PenaltyTerm(p, v) >= 0.0
  {
    var t, d := p.threshold, scale + p.ridge;
    var q := if d == 0.0 then 0.0 else SoftThreshold(r, t);
    SettledSlope(r, t, d, v, h, q);
    SquareIsPositive(h);
    NonNegativeProduct(p.ridge, Square(h), p.ridge * Square(h));
    SettledSums(p, r, scale, g, v, h, q);
  }

  /** With `e = r - q` the slope of the threshold at `v`. */
  lemma SettledSlope(r: real, t: real, d: real, v: real, h: real, q: real)
    requires t >= 0.0 && d >= 0.0 && v == Updated(r, d, t)
    requires d == 0.0 ==> r == 0.0
    requires q == if d == 0.0 then 0.0 else SoftThreshold(r, t)
    ensures d * v == q
    ensures (r - q) * (v + h) <= t * Abs(v + h)
    ensures (r - q) * v == t * Abs(v)
  {
    if d == 0.0 {
      NonNegativeProduct(t, Abs(v + h), t * Abs(v + h));
    } else {
      assert v * d == q;
      SoftSlope(r, t, v + h);
      SignOfQuotient(v, d, q);
      Attained(r - q, t, v, q);
    }
  }

  lemma SettledSums(p: Penalties, r: real, scale: real, g: real, v: real, h: real, q: real)
    requires g == -r + Times(scale, v) && Times(scale + p.ridge, v) == q
    requires Times(r - q, v + h) <= Times(p.threshold, Abs(v + h))
    requires Times(r - q, v) == Times(p.threshold, Abs(v))
    requires Times(p.ridge, Square(h)) >= 0.0
    ensures 2.0 * Times(g, h) + PenaltyTerm(p, v + h) - PenaltyTerm(p, v) >= 0.0
  {
    hide Abs, Times, Square;
    SumTimes(scale, p.ridge, scale + p.ridge, v);
    SlopeTimes(g, r - q, Times(p.ridge, v), h);
    RidgeGap(p.ridge, v, h);
    TimesSum(r - q, v, h);
  }

  lemma SlopeTimes(g: real, e: real, k: real, h: real)
    requires g == -e - k
    ensures Times(g, h) == -Times(e, h) - Times(k, h)
  {
  }

  lemma RidgeGap(r: real, v: real, h: real)
    ensures Times(r, Square(v + h)) == Times(r, Square(v)) + 2.0 * Times(Times(r, v), h) + Times(r, Square(h))
  {
    assert Square(v + h) == Square(v) + 2.0 * (v * h) + Square(h);
  }

  lemma TimesSum(a: real, v: real, h: real)
    ensures Times(a, v + h) == Times(a, v) + Times(a, h)
  {
  }

  lemma {:induction false} SettledSum(s: Sample, p: Penalties, c: Vector, h: Vector, k: nat)
    requires s.Valid() && p.Valid() && |c| == |h| == s.width && k <= s.width
    requires Settled(s, p, c)
    ensures 2.0 * Dot(GradientVector(s, c, |s.design|), h, k) + Penalty(p, Plus(c, h), k) >= Penalty(p, c, k)
  {
    hide PenaltyTerm, Gradient, Update;
    if k > 0 {
      SettledSum(s, p, c, h, k - 1);
      SettledCoordinate(s, p, c, k - 1, h[k - 1]);
      assert Times(Gradient(s, c, k - 1, |s.design|), h[k - 1]) == GradientVector(s, c, |s.design|)[k - 1] * h[k - 1];
    }
  }

  /** Where no coordinate can improve alone, no joint move can improve either. */
  lemma SettledIsGlobalMinimum(s: Sample, p: Penalties, c: Vector, other: Vector)
    requires s.Valid() && p.Valid() && |c| == |other| == s.width
    requires Settled(s, p, c)
    ensures Objective(s, p, c) <= Objective(s, p, other)
  {
    hide Settled, SquaredError, Penalty, Dot, Spread, Cross;
    var m := |s.design|;
    var h := seq(s.width, k requires 0 <= k < s.width => other[k] - c[k]);
    assert Plus(c, h) == other;
    ErrorExpands(s, c, h, m);
    CrossIsGradient(s, c, h, m);
    SpreadIsPositive(s, h, m);
    SettledSum(s, p, c, h, s.width);
  }

  lemma {:induction false} SpreadIsPositive(s: Sample, h: Vector, m: nat)
    requires s.Valid() && |h| == s.width && m <= |s.design|
    ensures Spread(s, h, m) >= 0.0
  {
    hide Dot;
    if m > 0 {
      SpreadIsPositive(s, h, m - 1);
      SquareIsPositive(0.0 - Dot(s.design[m - 1], h, s.width));
      var q := Square(0.0 - Dot(s.design[m - 1], h, s.width));
      NonNegativeProduct(s.weights[m - 1], q, s.weights[m - 1] * q);
    }
  }

  // ---- The estimator ----

  ghost function Sum(v: Vector, n: nat): real
    requires n <= |v|
  {
    if n == 0 then 0.0 else Sum(v, n - 1) + v[n - 1]
  }

  /** The sample the descent works on: outcomes relative to the intercept, no intercept column. */
  ghost function Centered(features: Matrix, target: Vector, weights: Vector, width: nat, intercept: real): (s: Sample)
    requires Validate(features, target, weights, width).None?
    ensures s.Valid()
  {
    Sample(features, seq(|target|, i requires 0 <= i < |target| => target[i] - intercept), weights, width)
  }

  ghost function PenaltiesFor(alpha: real, l1Ratio: real, weightSum: real): Penalties {
    Penalties(alpha * l1Ratio * weightSum, alpha * (1.0 - l1Ratio) * weightSum)
  }

  lemma PenaltiesAreValid(alpha: real, l1Ratio: real, weightSum: real)
    requires alpha > 0.0 && 0.0 <= l1Ratio <= 1.0 && weightSum > 0.0
    ensures PenaltiesFor(alpha, l1Ratio, weightSum).Valid()
  {
    var a, b := alpha * l1Ratio, alpha * (1.0 - l1Ratio);
    NonNegativeProduct(alpha, l1Ratio, a);
    NonNegativeProduct(alpha, 1.0 - l1Ratio, b);
    NonNegativeProduct(a, weightSum, a * weightSum);
    NonNegativeProduct(b, weightSum, b * weightSum);
  }

  /** `largest_change`'s sums over the rows for one column. */
  method CoordinateTerms(s: Sample, c: Vector, column: nat) returns (residualProduct: real, scale: real)
    requires s.Valid() && |c| == s.width && column < s.width
    ensures residualProduct == ResidualProduct(s, c, column)
    ensures scale == Scale(s, column, |s.design|)
  {
    hide Dot, GradientTerm, ScaleTerm;
    residualProduct, scale := 0.0, 0.0;
    for i := 0 to |s.design|
      invariant residualProduct == -Gradient(s, c[column := 0.0], column, i)
      invariant scale == Scale(s, column, i)
    {
      var row := s.design[i];
      var otherPrediction := OtherPrediction(row, c, column);
      var product := s.weights[i] * row[column] * (s.target[i] - otherPrediction);
      ResidualTerm(s.weights[i], row[column], otherPrediction, s.target[i], product);
      residualProduct := residualProduct + product;
      scale := scale + ScaleTerm(s.weights[i], row[column]);
    }
  }

  lemma ResidualTerm(w: real, a: real, p: real, y: real, product: real)
    requires product == w * a * (y - p)
    ensures product == -GradientTerm(w, a, p, y)
  {
  }

  /** The prediction of every coefficient but `column`. */
  method OtherPrediction(row: Vector, c: Vector, column: nat) returns (p: real)
    requires |row| == |c| && column < |c|
    ensures p == Dot(row, c[column := 0.0], |c|)
  {
    p := 0.0;
    for index := 0 to |c|
      invariant p == Dot(row, c[column := 0.0], index)
    {
      if index != column {
        p := p + c[index] * row[index];
      }
    }
  }

  ghost function At(c: Vector, j: nat, v: real): (r: Vector)
    requires j < |c|
    ensures |r| == |c|
  {
    c[j := v]
  }

  /** One coordinate update: the new value is at least as good as every other value. */
  method UpdateCoordinate(s: Sample, p: Penalties, c: Vector, column: nat) returns (updated: real)
    requires s.Valid() && p.Valid() && |c| == s.width && column < s.width
    ensures updated == Update(s, p, c, column)
    ensures forall v :: Objective(s, p, c[column := updated]) <= Objective(s, p, At(c, column, v))
  {
    var residualProduct, scale := CoordinateTerms(s, c, column);
    var numerator := SoftThreshold(residualProduct, p.threshold);
    var denominator := scale + p.ridge;
    updated := if denominator != 0.0 then numerator / denominator else 0.0;
    forall v
      ensures Objective(s, p, c[column := updated]) <= Objective(s, p, At(c, column, v))
    {
      UpdateDescends(s, p, c[column := v], column);
      SameLine(s, p, c, column, v);
    }
  }

  /** An update does not look at the coordinate it replaces. */
  lemma SameLine(s: Sample, p: Penalties, c: Vector, j: nat, v: real)
    requires s.Valid() && |c| == s.width && j < s.width
    ensures Update(s, p, c[j := v], j) == Update(s, p, c, j)
    ensures c[j := v][j := Update(s, p, c, j)] == c[j := Update(s, p, c, j)]
  {
    assert c[j := v][j := 0.0] == c[j := 0.0];
  }

  /** The coefficients after the first `n` updates of a sweep. */
  ghost function Swept(s: Sample, p: Penalties, start: Vector, n: nat): (c: Vector)
    requires s.Valid() && |start| == s.width && n <= s.width
    ensures |c| == s.width
  {
    if n == 0 then start
    else
      var c := Swept(s, p, start, n - 1);
      c[n - 1 := Update(s, p, c, n - 1)]
  }

  /** The largest of those updates. */
  ghost function ChangeOf(s: Sample, p: Penalties, start: Vector, n: nat): real
    requires s.Valid() && |start| == s.width && n <= s.width
  {
    if n == 0 then 0.0
    else
      var c := Swept(s, p, start, n - 1);
      var change, before := Abs(Update(s, p, c, n - 1) - c[n - 1]), ChangeOf(s, p, start, n - 1);
      if change > before then change else before
  }

  /** The coefficients after `k` sweeps from zero. */
  ghost function Iterate(s: Sample, p: Penalties, k: nat): (c: Vector)
    requires s.Valid()
    ensures |c| == s.width
  {
    if k == 0 then Zeros(s.width) else Swept(s, p, Iterate(s, p, k - 1), s.width)
  }

  /** The descent stops after the first sweep within the tolerance, or at the iteration limit. */
  ghost predicate StopsAfter(s: Sample, p: Penalties, maxIterations: int, tolerance: real, k: nat)
    requires s.Valid()
  {
    && (forall i :: 0 <= i < k - 1 ==> ChangeOf(s, p, Iterate(s, p, i), s.width) > tolerance)
    && (k == 0 || k <= maxIterations)
    && (k < maxIterations ==> k > 0 && ChangeOf(s, p, Iterate(s, p, k - 1), s.width) <= tolerance)
  }

  /** One pass over the columns. A pass that changes nothing started at a global minimum. */
  method Sweep(s: Sample, p: Penalties, start: Vector) returns (c: Vector, largestChange: real)
    requires s.Valid() && p.Valid() && |start| == s.width
    ensures |c| == s.width && largestChange >= 0.0
    ensures c == Swept(s, p, start, s.width) && largestChange == ChangeOf(s, p, start, s.width)
    ensures Objective(s, p, c) <= Objective(s, p, start)
    ensures largestChange == 0.0 ==> IsGlobalMinimum(s, p, c)
  {
    hide Objective, Update;
    c, largestChange := start, 0.0;
    for column := 0 to s.width
      invariant |c| == s.width && largestChange >= 0.0
      invariant c == Swept(s, p, start, column) && largestChange == ChangeOf(s, p, start, column)
      invariant Objective(s, p, c) <= Objective(s, p, start)
      invariant largestChange == 0.0 ==> c == start && forall j :: 0 <= j < column ==> c[j] == Update(s, p, c, j)
    {
      var updated := UpdateCoordinate(s, p, c, column);
      assert At(c, column, c[column]) == c;
      largestChange := if Abs(updated - c[column]) > largestChange then Abs(updated - c[column]) else largestChange;
      c := c[column := updated];
    }
    if largestChange == 0.0 {
      forall other: Vector | |other| == s.width
        ensures Objective(s, p, c) <= Objective(s, p, other)
      {
        SettledIsGlobalMinimum(s, p, c, other);
      }
    }
  }

  /** The sweeps of `fit`, from the zero vector until the tolerance or the iteration limit. */
  method Descend(s: Sample, p: Penalties, maxIterations: int, tolerance: real)
    returns (c: Vector, lastChange: Option<real>, ghost sweeps: nat)
    requires s.Valid() && p.Valid()
    ensures |c| == s.width
    ensures c == Iterate(s, p, sweeps) && StopsAfter(s, p, maxIterations, tolerance, sweeps)
    ensures lastChange == if sweeps == 0 then None else Some(ChangeOf(s, p, Iterate(s, p, sweeps - 1), s.width))
    ensures Objective(s, p, c) <= Objective(s, p, Zeros(s.width))
    ensures lastChange == Some(0.0) ==> IsGlobalMinimum(s, p, c)
  {
    hide Objective, IsGlobalMinimum, Swept, ChangeOf;
    c, lastChange, sweeps := seq(s.width, _ => 0.0), None, 0;
    assert c == Zeros(s.width);
    var iteration := 0;
    while iteration < maxIterations
      invariant |c| == s.width
      invariant Objective(s, p, c) <= Objective(s, p, Zeros(s.width))
      invariant lastChange == Some(0.0) ==> IsGlobalMinimum(s, p, c)
      invariant iteration == sweeps && (iteration == 0 || iteration <= maxIterations)
      invariant c == Iterate(s, p, sweeps)
      invariant lastChange == if sweeps == 0 then None else Some(ChangeOf(s, p, Iterate(s, p, sweeps - 1), s.width))
      invariant forall i :: 0 <= i < sweeps ==> ChangeOf(s, p, Iterate(s, p, i), s.width) > tolerance
    {
      var next, largestChange := Sweep(s, p, c);
      c, lastChange := next, Some(largestChange);
      iteration, sweeps := iteration + 1, sweeps + 1;
      if largestChange <= tolerance {
        break;
      }
    }
  }

  ghost function Zeros(n: nat): (z: Vector)
    ensures |z| == n
  {
    seq(n, _ => 0.0)
  }

  class ElasticNetRegressor {
    const featureCount: nat
    const alpha: real
    const l1Ratio: real
    const maxIterations: int
    const tolerance: real
    var intercept: Option<real>
    var coefficients: Option<Vector>

    ghost predicate Valid() {
      alpha > 0.0 && 0.0 <= l1Ratio <= 1.0
    }

    /** The source raises unless `alpha` is positive and `l1_ratio` lies in [0, 1]. */
    constructor (featureCount: nat, alpha: real, l1Ratio: real, maxIterations: int, tolerance: real)
      requires alpha > 0.0 && 0.0 <= l1Ratio <= 1.0
      ensures Valid() && intercept == None && coefficients == None
      ensures this.featureCount == featureCount && this.alpha == alpha && this.l1Ratio == l1Ratio
      ensures this.maxIterations == maxIterations && this.tolerance == tolerance
    {
      this.featureCount, this.alpha, this.l1Ratio := featureCount, alpha, l1Ratio;
      this.maxIterations, this.tolerance := maxIterations, tolerance;
      intercept, coefficients := None, None;
    }

    /** The penalties, multiplied by the weight sum. */
    method Scaled(weightSum: real) returns (p: Penalties)
      ensures p == PenaltiesFor(alpha, l1Ratio, weightSum)
    {
      p := Penalties(alpha * l1Ratio * weightSum, alpha * (1.0 - l1Ratio) * weightSum);
    }

    /**
     The intercept is the weighted mean, and the fitted coefficients are no worse than the zero vector.
     With a zero tolerance they are a global minimum unless the iteration limit cut the descent short.
     */
    method Fit(features: Matrix, target: Vector, weights: Vector) returns (r: Result<Option<real>, FitError>)
      requires Valid()
      modifies this
      ensures r.Err? ==> intercept == old(intercept) && coefficients == old(coefficients)
      ensures forall e :: r == Err(e) <==> IsProblem(features, target, weights, featureCount, e)
      ensures r.Ok? ==>
                && Validate(features, target, weights, featureCount).None?
                && intercept.Some? && coefficients.Some? && |coefficients.value| == featureCount
                && intercept.value * Sum(weights, |weights|) == RhsSum(target, weights, |weights|)
                && var s := Centered(features, target, weights, featureCount, intercept.value);
                   var p := PenaltiesFor(alpha, l1Ratio, Sum(weights, |weights|));
                   && (exists sweeps: nat ::
                         coefficients.value == Iterate(s, p, sweeps)
                         && StopsAfter(s, p, maxIterations, tolerance, sweeps))
                   && Objective(s, p, coefficients.value) <= Objective(s, p, Zeros(featureCount))
                   && (r.value == Some(0.0) ==> IsGlobalMinimum(s, p, coefficients.value))
    {
      hide Objective, IsGlobalMinimum, PenaltiesFor, Sum, RhsSum, Iterate, StopsAfter, Swept, ChangeOf;
      forall e: FitError
        ensures Validate(features, target, weights, featureCount) == Some(e) <==>
                IsProblem(features, target, weights, featureCount, e)
      {
        ValidateIs(features, target, weights, featureCount, e);
      }
      var problem := Validate(features, target, weights, featureCount);
      if problem.Some? {
        return Err(problem.value);
      }
      var weightSum, weighted := WeightedSums(target, weights);
      var mean := Quotient(weighted, weightSum);
      var p := Scaled(weightSum);
      PenaltiesAreValid(alpha, l1Ratio, weightSum);
      var centered := seq(|target|, i requires 0 <= i < |target| => target[i] - mean);
      var s := Sample(features, centered, weights, featureCount);
      var c, lastChange, sweeps := Descend(s, p, maxIterations, tolerance);
      assert s == Centered(features, target, weights, featureCount, mean);
      intercept, coefficients := Some(mean), Some(c);
      r := Ok(lastChange);
    }
  }

  function Quotient(a: real, b: real): (q: real)
    requires b != 0.0
    ensures q * b == a
  {
    a / b
  }

  ghost function RhsSum(target: Vector, weights: Vector, n: nat): real
    requires n <= |target| && n <= |weights|
  {
    if n == 0 then 0.0 else RhsSum(target, weights, n - 1) + target[n - 1] * weights[n - 1]
  }

  method WeightedSums(target: Vector, weights: Vector) returns (weightSum: real, weighted: real)
    requires |target| == |weights| > 0 && forall i :: 0 <= i < |weights| ==> weights[i] > 0.0
    ensures weightSum == Sum(weights, |weights|) > 0.0
    ensures weighted == RhsSum(target, weights, |weights|)
  {
    weightSum, weighted := 0.0, 0.0;
    for i := 0 to |weights|
      invariant weightSum == Sum(weights, i) && weightSum >= 0.0 && (i > 0 ==> weightSum > 0.0)
      invariant weighted == RhsSum(target, weights, i)
    {
      weightSum := weightSum + weights[i];
      weighted := weighted + target[i] * weights[i];
    }
  }
}
