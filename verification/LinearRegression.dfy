/**
 Weighted ridge regression by normal equations: `LinearRegressor.fit` returns the unique minimiser
 of the penalised weighted squared error.
 */
module LinearRegression {
  import opened GaussJordan
  import opened LeastSquares
  import opened Linear
  import opened Wrappers

  // ---- The objective ----

  /** The sum of squares of `c[1]`, ..., `c[k - 1]`: the intercept `c[0]` is not penalised. */
  ghost function Penalty(c: Vector, k: nat): real
    requires k <= |c|
  {
    if k <= 1 then 0.0 else Penalty(c, k - 1) + Square(c[k - 1])
  }

  ghost function Objective(s: Sample, alpha: real, c: Vector): real
    requires s.Valid() && |c| == s.width
  {
    SquaredError(s, c, |s.design|) + alpha * Penalty(c, s.width)
  }

  // ---- The normal equations ----

  function GramEntry(s: Sample, left: nat, right: nat, m: nat): real
    requires m <= |s.design| && m <= |s.weights|
    requires forall i :: 0 <= i < m ==> left < |s.design[i]| && right < |s.design[i]|
  {
    if m == 0 then 0.0
    else GramEntry(s, left, right, m - 1)
         + s.weights[m - 1] * s.design[m - 1][left] * s.design[m - 1][right]
  }

  function RhsEntry(s: Sample, left: nat, m: nat): real
    requires m <= |s.design| && m <= |s.weights| && m <= |s.target|
    requires forall i :: 0 <= i < m ==> left < |s.design[i]|
  {
    if m == 0 then 0.0
    else RhsEntry(s, left, m - 1) + s.weights[m - 1] * s.design[m - 1][left] * s.target[m - 1]
  }

  ghost function GramRow(s: Sample, left: nat, m: nat): (row: Vector)
    requires s.Valid() && left < s.width && m <= |s.design|
    ensures |row| == s.width
  {
    seq(s.width, right requires 0 <= right < s.width => GramEntry(s, left, right, m))
  }

  lemma GramRowStep(s: Sample, left: nat, m: nat)
    requires s.Valid() && left < s.width && 1 <= m <= |s.design|
    ensures var f := s.weights[m - 1] * s.design[m - 1][left];
            forall k :: 0 <= k < s.width ==>
              GramRow(s, left, m)[k] == GramRow(s, left, m - 1)[k] - (-f) * s.design[m - 1][k]
  {
  }

  lemma GramRowZero(s: Sample, left: nat)
    requires s.Valid() && left < s.width
    ensures forall k :: 0 <= k < s.width ==> GramRow(s, left, 0)[k] == 0.0
  {
  }

  lemma {:induction false} NormalRow(s: Sample, c: Vector, left: nat, m: nat)
    requires s.Valid() && |c| == s.width && left < s.width && m <= |s.design|
    ensures Dot(GramRow(s, left, m), c, s.width) - RhsEntry(s, left, m) == Gradient(s, c, left, m)
  {
    hide Dot, GramEntry;
    if m == 0 {
      GramRowZero(s, left);
      DotUnit(GramRow(s, left, 0), c, s.width, s.width);
    } else {
      NormalRow(s, c, left, m - 1);
      var w, d := s.weights[m - 1], s.design[m - 1];
      var f := w * d[left];
      GramRowStep(s, left, m);
      DotCombination(GramRow(s, left, m), GramRow(s, left, m - 1), -f, d, c, s.width);
      Distribute(f, Dot(d, c, s.width), -s.target[m - 1], Dot(d, c, s.width) - s.target[m - 1]);
    }
  }

  // ---- Expanding the objective around a point ----

  /** The mixed term of the penalty of `c + h`. */
  ghost function PenaltyCross(c: Vector, h: Vector, k: nat): real
    requires k <= |c| && k <= |h|
  {
    if k <= 1 then 0.0 else PenaltyCross(c, h, k - 1) + Times(c[k - 1], h[k - 1])
  }

  lemma {:induction false} PenaltyExpands(c: Vector, h: Vector, k: nat)
    requires |c| == |h| && k <= |c|
    ensures Penalty(Plus(c, h), k) == Penalty(c, k) + 2.0 * PenaltyCross(c, h, k) + Penalty(h, k)
  {
    hide Square, Times;
    if k > 1 {
      PenaltyExpands(c, h, k - 1);
      SquareOfSum(c[k - 1], h[k - 1]);
    }
  }

  lemma SquareOfSum(a: real, b: real)
    ensures Square(a + b) == Square(a) + 2.0 * Times(a, b) + Square(b)
  {
  }

  lemma {:induction false} PenaltyNonNegative(h: Vector, k: nat)
    requires k <= |h|
    ensures Penalty(h, k) >= 0.0
    ensures Penalty(h, k) == 0.0 ==> forall j :: 1 <= j < k ==> h[j] == 0.0
  {
    if k > 1 {
      PenaltyNonNegative(h, k - 1);
      SquareIsPositive(h[k - 1]);
    }
  }

  // ---- Optimality ----

  /** The penalised normal equations as the solver receives them. */
  ghost predicate IsNormalSystem(s: Sample, alpha: real, gram: Matrix, rhs: Vector) {
    && s.Valid() && s.width >= 1
    && |gram| == |rhs| == s.width
    && (forall l :: 0 <= l < s.width ==> |gram[l]| == s.width)
    && (forall l, r :: 0 <= l < s.width && 0 <= r < s.width ==>
          gram[l][r] == GramEntry(s, l, r, |s.design|) + if l == r && l >= 1 then alpha else 0.0)
    && (forall l :: 0 <= l < s.width ==> rhs[l] == RhsEntry(s, l, |s.design|))
  }

  /** The derivative of the penalty: the intercept has none. */
  function RidgeTerm(alpha: real, c: Vector, l: nat): real
    requires l < |c|
  {
    if l >= 1 then alpha * c[l] else 0.0
  }

  ghost predicate Stationary(s: Sample, alpha: real, c: Vector)
    requires s.Valid() && |c| == s.width
  {
    forall l :: 0 <= l < s.width ==>
      Gradient(s, c, l, |s.design|) + RidgeTerm(alpha, c, l) == 0.0
  }

  /** One row of the solver's system, written through the gradient. */
  lemma NormalEquation(s: Sample, alpha: real, row: Vector, c: Vector, l: nat)
    requires s.Valid() && |c| == s.width && l < s.width && |row| == s.width + 1
    requires forall r :: 0 <= r < s.width ==>
               row[r] == GramEntry(s, l, r, |s.design|) + if l == r && l >= 1 then alpha else 0.0
    requires row[s.width] == RhsEntry(s, l, |s.design|)
    ensures RowHolds(row, c) <==> Gradient(s, c, l, |s.design|) + RidgeTerm(alpha, c, l) == 0.0
  {
    hide Dot, GramEntry, RhsEntry, Gradient;
    var n := s.width;
    NormalRow(s, c, l, |s.design|);
    var unit := seq(n, k requires 0 <= k < n => if k == l then 1.0 else 0.0);
    DotUnit(unit, c, n, l);
    DotCombination(row, GramRow(s, l, |s.design|), if l >= 1 then -alpha else 0.0, unit, c, n);
  }

  /** The normal equations hold exactly at the stationary points of the objective. */
  lemma NormalIffStationary(s: Sample, alpha: real, gram: Matrix, rhs: Vector, c: Vector)
    requires IsNormalSystem(s, alpha, gram, rhs) && |c| == s.width
    ensures Holds(Augment(gram, rhs), s.width, c) <==> Stationary(s, alpha, c)
  {
    var rows := Augment(gram, rhs);
    forall l | 0 <= l < s.width
      ensures RowHolds(rows[l], c) <==> Gradient(s, c, l, |s.design|) + RidgeTerm(alpha, c, l) == 0.0
    {
      NormalEquation(s, alpha, rows[l], c, l);
    }
    if Holds(rows, s.width, c) {
      forall l | 0 <= l < s.width
        ensures Gradient(s, c, l, |s.design|) + RidgeTerm(alpha, c, l) == 0.0
      {
        assert RowHolds(rows[l], c);
      }
    }
  }

  lemma {:induction false} StationaryCross(g: Vector, c: Vector, h: Vector, alpha: real, n: nat)
    requires 1 <= n <= |g| && n <= |c| && n <= |h|
    requires forall l :: 0 <= l < n ==> g[l] + RidgeTerm(alpha, c, l) == 0.0
    ensures Dot(g, h, n) == -(alpha * PenaltyCross(c, h, n))
  {
    hide Times;
    if n == 1 {
      assert Dot(g, h, 1) == Dot(g, h, 0) + g[0] * h[0];
    } else {
      StationaryCross(g, c, h, alpha, n - 1);
      CrossPenalty(alpha, g[n - 1], c[n - 1], h[n - 1]);
      Distribute(alpha, PenaltyCross(c, h, n - 1), Times(c[n - 1], h[n - 1]), PenaltyCross(c, h, n));
    }
  }

  lemma CrossPenalty(alpha: real, g: real, c: real, h: real)
    requires g == -(alpha * c)
    ensures g * h == -(alpha * Times(c, h))
  {
  }

  /** Moving away from a stationary point by `h` costs exactly the quadratic terms of `h`. */
  lemma ObjectiveAround(s: Sample, alpha: real, c: Vector, h: Vector)
    requires s.Valid() && s.width >= 1 && |c| == |h| == s.width && Stationary(s, alpha, c)
    ensures Objective(s, alpha, Plus(c, h))
         == Objective(s, alpha, c) + Spread(s, h, |s.design|) + alpha * Penalty(h, s.width)
  {
    hide Square, ErrorTerm, SquaredError, Penalty, PenaltyCross, Cross, Spread, Dot;
    var m := |s.design|;
    ErrorExpands(s, c, h, m);
    PenaltyExpands(c, h, s.width);
    CrossIsGradient(s, c, h, m);
    StationaryCross(GradientVector(s, c, m), c, h, alpha, s.width);
    SplitPenalty(alpha, Penalty(c, s.width), PenaltyCross(c, h, s.width), Penalty(h, s.width),
                 Penalty(Plus(c, h), s.width));
  }

  lemma SplitPenalty(alpha: real, p: real, x: real, q: real, sum: real)
    requires sum == p + 2.0 * x + q
    ensures alpha * sum == alpha * p + 2.0 * (alpha * x) + alpha * q
  {
  }

  /** A step that the quadratic terms do not see leads to another stationary point. */
  lemma FlatStepIsStationary(s: Sample, alpha: real, c: Vector, h: Vector)
    requires s.Valid() && |c| == |h| == s.width && Stationary(s, alpha, c)
    requires forall i :: 0 <= i < |s.design| ==> Dot(s.design[i], h, s.width) == 0.0
    requires forall j :: 1 <= j < s.width ==> alpha == 0.0 || h[j] == 0.0
    ensures Stationary(s, alpha, Plus(c, h))
  {
    hide Gradient, Dot, RidgeTerm;
    forall l | 0 <= l < s.width
      ensures Gradient(s, Plus(c, h), l, |s.design|) + RidgeTerm(alpha, Plus(c, h), l) == 0.0
    {
      FlatGradient(s, c, h, l, |s.design|);
      FlatRidge(alpha, c, h, l);
    }
  }

  lemma FlatRidge(alpha: real, c: Vector, h: Vector, l: nat)
    requires |c| == |h| && l < |c|
    requires l >= 1 ==> alpha == 0.0 || h[l] == 0.0
    ensures RidgeTerm(alpha, Plus(c, h), l) == RidgeTerm(alpha, c, l)
  {
  }

  /** The unique solution of the normal equations is the unique minimiser of the objective. */
  lemma NormalSolutionIsBest(s: Sample, alpha: real, gram: Matrix, rhs: Vector, c: Vector, other: Vector)
    requires alpha >= 0.0 && IsNormalSystem(s, alpha, gram, rhs) && |c| == |other| == s.width
    requires forall x :: Holds(Augment(gram, rhs), s.width, x) <==> x == c
    requires other != c
    ensures Objective(s, alpha, c) < Objective(s, alpha, other)
  {
    var m := |s.design|;
    NormalIffStationary(s, alpha, gram, rhs, c);
    var h := seq(s.width, k requires 0 <= k < s.width => other[k] - c[k]);
    assert Plus(c, h) == other;
    ObjectiveAround(s, alpha, c, h);
    SpreadNonNegative(s, h, m);
    PenaltyNonNegative(h, s.width);
    var p := Penalty(h, s.width);
    NonNegativeProduct(alpha, p, alpha * p);
    if Spread(s, h, m) + alpha * p == 0.0 {
      FlatStepIsStationary(s, alpha, c, h);
      NormalIffStationary(s, alpha, gram, rhs, other);
      assert false;
    }
  }

  // ---- The estimator ----

  /** The design matrix: every feature row with a leading one. */
  function Designed(features: Matrix, target: Vector, weights: Vector, width: nat): (s: Sample)
    requires Validate(features, target, weights, width).None?
    ensures s.Valid() && s.width == width + 1
  {
    Sample(seq(|features|, i requires 0 <= i < |features| => [1.0] + features[i]), target, weights, width + 1)
  }

  lemma {:induction false} DotIsPrediction(x: Vector, c: Vector, n: nat)
    requires n <= |x| && n < |c|
    ensures Dot([1.0] + x, c, n + 1) == Predicted(c[0], c[1..], x, n)
  {
    if n > 0 {
      DotIsPrediction(x, c, n - 1);
      var row := [1.0] + x;
      assert row[n] == x[n - 1] && c[1..][n - 1] == c[n];
      Commutes(x[n - 1], c[n]);
    } else {
      assert Dot([1.0] + x, c, 0) == 0.0;
    }
  }

  lemma Commutes(a: real, b: real)
    ensures a * b == b * a
  {
  }

  lemma {:induction false} ErrorIsLoss(features: Matrix, target: Vector, weights: Vector, c: Vector, m: nat)
    requires |c| >= 1 && Validate(features, target, weights, |c| - 1).None? && m <= |features|
    ensures AllWide(features, |c[1..]|)
    ensures SquaredError(Designed(features, target, weights, |c| - 1), c, m) ==
            Loss(features, target, weights, c[0], c[1..], m)
  {
    hide Dot, Predicted;
    if m > 0 {
      ErrorIsLoss(features, target, weights, c, m - 1);
      DotIsPrediction(features[m - 1], c, |c| - 1);
    }
  }

  lemma {:induction false} PenaltyIsSquares(c: Vector, k: nat)
    requires 1 <= k <= |c|
    ensures Penalty(c, k) == Squares(c[1..], k - 1)
  {
    if k > 1 {
      PenaltyIsSquares(c, k - 1);
      assert c[1..][k - 2] == c[k - 1];
    }
  }

  /** The loss of an intercept and slopes over the training set, plus the ridge on the slopes. */
  ghost function RidgeLoss(features: Matrix, target: Vector, weights: Vector, alpha: real, intercept: real,
                           slopes: Vector): real
    requires |features| == |target| == |weights| && AllWide(features, |slopes|)
  {
    Loss(features, target, weights, intercept, slopes, |features|) + alpha * Squares(slopes, |slopes|)
  }

  lemma ObjectiveIsLoss(features: Matrix, target: Vector, weights: Vector, alpha: real, c: Vector)
    requires |c| >= 1 && Validate(features, target, weights, |c| - 1).None?
    ensures AllWide(features, |c[1..]|)
    ensures Objective(Designed(features, target, weights, |c| - 1), alpha, c) ==
            RidgeLoss(features, target, weights, alpha, c[0], c[1..])
  {
    hide SquaredError, Penalty, Loss, Squares;
    ErrorIsLoss(features, target, weights, c, |features|);
    PenaltyIsSquares(c, |c|);
  }

  // ---- The system itself ----

  ghost function NormalMatrix(s: Sample, alpha: real): (gram: Matrix)
    requires s.Valid()
    ensures |gram| == s.width && forall l :: 0 <= l < s.width ==> |gram[l]| == s.width
  {
    seq(s.width, l requires 0 <= l < s.width =>
      seq(s.width, r requires 0 <= r < s.width => GramEntry(s, l, r, |s.design|) + if l == r && l >= 1 then alpha
          else 0.0))
  }

  ghost function NormalRhs(s: Sample): (rhs: Vector)
    requires s.Valid()
    ensures |rhs| == s.width
  {
    seq(s.width, l requires 0 <= l < s.width => RhsEntry(s, l, |s.design|))
  }

  /** The normal equations as one augmented system. */
  ghost function NormalSystem(s: Sample, alpha: real): (rows: Matrix)
    requires s.Valid()
    ensures Shaped(rows, s.width)
  {
    Augment(NormalMatrix(s, alpha), NormalRhs(s))
  }

  lemma NormalIsUnique(s: Sample, alpha: real, gram: Matrix, rhs: Vector)
    requires IsNormalSystem(s, alpha, gram, rhs)
    ensures gram == NormalMatrix(s, alpha) && rhs == NormalRhs(s)
  {
    hide GramEntry, RhsEntry;
    forall l | 0 <= l < s.width
      ensures gram[l] == NormalMatrix(s, alpha)[l]
    {
    }
  }

  /** The same design and weights without anything to fit. */
  ghost function Homogeneous(s: Sample): (t: Sample)
    requires s.Valid()
    ensures t.Valid() && t.width == s.width
  {
    s.(target := seq(|s.target|, i requires 0 <= i < |s.target| => 0.0))
  }

  lemma {:induction false} HomogeneousGram(s: Sample, l: nat, r: nat, m: nat)
    requires s.Valid() && l < s.width && r < s.width && m <= |s.design|
    ensures GramEntry(Homogeneous(s), l, r, m) == GramEntry(s, l, r, m)
  {
    if m > 0 {
      HomogeneousGram(s, l, r, m - 1);
    }
  }

  lemma {:induction false} HomogeneousRhs(s: Sample, l: nat, m: nat)
    requires s.Valid() && l < s.width && m <= |s.design|
    ensures RhsEntry(Homogeneous(s), l, m) == 0.0
  {
    if m > 0 {
      HomogeneousRhs(s, l, m - 1);
    }
  }

  ghost function ZeroVector(n: nat): (z: Vector)
    ensures |z| == n
  {
    seq(n, k => 0.0)
  }

  lemma HomogeneousSystem(s: Sample, alpha: real)
    requires s.Valid() && s.width >= 1
    ensures IsNormalSystem(Homogeneous(s), alpha, NormalMatrix(s, alpha), ZeroVector(s.width))
  {
    hide GramEntry, RhsEntry;
    forall l, r | 0 <= l < s.width && 0 <= r < s.width
      ensures NormalMatrix(s, alpha)[l][r] == GramEntry(Homogeneous(s), l, r, |s.design|) + if l == r && l >= 1
              then alpha else 0.0
    {
      HomogeneousGram(s, l, r, |s.design|);
    }
    forall l | 0 <= l < s.width
      ensures ZeroVector(s.width)[l] == RhsEntry(Homogeneous(s), l, |s.design|)
    {
      HomogeneousRhs(s, l, |s.design|);
    }
  }

  /** A vector the matrix maps to zero is stationary when there is nothing to fit. */
  lemma KernelIsStationary(s: Sample, alpha: real, z: Vector)
    requires s.Valid() && s.width >= 1 && |z| == s.width
    requires forall i :: 0 <= i < s.width ==> Dot(NormalMatrix(s, alpha)[i], z, s.width) == 0.0
    ensures Stationary(Homogeneous(s), alpha, z)
  {
    hide Dot, GramEntry, RhsEntry, Stationary;
    var gram, zero := NormalMatrix(s, alpha), ZeroVector(s.width);
    HomogeneousSystem(s, alpha);
    forall i | 0 <= i < s.width
      ensures RowHolds(Augment(gram, zero)[i], z)
    {
      DotLonger(gram[i], zero[i], z, s.width);
    }
    NormalIffStationary(Homogeneous(s), alpha, gram, zero, z);
  }

  /** Two stationary points differ by a step that the quadratic terms do not see. */
  lemma StationaryDifference(s: Sample, alpha: real, z: Vector)
    requires s.Valid() && s.width >= 1 && |z| == s.width && alpha > 0.0
    requires Stationary(s, alpha, z) && Stationary(s, alpha, ZeroVector(s.width))
    ensures Spread(s, z, |s.design|) == 0.0 && Penalty(z, s.width) == 0.0
  {
    hide Spread, Penalty, SquaredError, Stationary, Square;
    var zero := ZeroVector(s.width);
    var back := seq(s.width, k requires 0 <= k < s.width => -z[k]);
    assert Plus(zero, z) == z && Plus(z, back) == zero;
    ObjectiveAround(s, alpha, zero, z);
    ObjectiveAround(s, alpha, z, back);
    SpreadNonNegative(s, z, |s.design|);
    SpreadNonNegative(s, back, |s.design|);
    PenaltyNonNegative(z, s.width);
    PenaltyNonNegative(back, s.width);
    NonNegativeProduct(alpha, Penalty(z, s.width), alpha * Penalty(z, s.width));
    NonNegativeProduct(alpha, Penalty(back, s.width), alpha * Penalty(back, s.width));
  }

  lemma {:induction false} DotOfFirst(a: Vector, z: Vector, n: nat)
    requires 1 <= n <= |a| && n <= |z| && forall k :: 1 <= k < n ==> z[k] == 0.0
    ensures Dot(a, z, n) == a[0] * z[0]
  {
    if n > 1 {
      DotOfFirst(a, z, n - 1);
    } else {
      assert Dot(a, z, 1) == Dot(a, z, 0) + a[0] * z[0];
    }
  }

  lemma ZeroIsStationary(s: Sample, alpha: real)
    requires s.Valid() && s.width >= 1
    ensures Stationary(Homogeneous(s), alpha, ZeroVector(s.width))
  {
    var gram, zero := NormalMatrix(s, alpha), ZeroVector(s.width);
    forall i | 0 <= i < s.width
      ensures Dot(gram[i], zero, s.width) == 0.0
    {
      DotZero(gram[i], zero, s.width);
    }
    KernelIsStationary(s, alpha, zero);
  }

  lemma {:induction false} DotZero(a: Vector, z: Vector, n: nat)
    requires n <= |a| && n <= |z| && forall k :: 0 <= k < n ==> z[k] == 0.0
    ensures Dot(a, z, n) == 0.0
  {
    if n > 0 {
      DotZero(a, z, n - 1);
    }
  }

  /**
   With a positive ridge the normal equations of a non-empty design with an intercept are regular: every right-hand
   side has exactly one solution, so a best coefficient vector always exists, whether or not the solver's tolerance
   accepts it.
   */
  lemma RidgeIsRegular(s: Sample, alpha: real) returns (solution: Vector)
    requires s.Valid() && s.width >= 1 && alpha > 0.0
    requires s.design != [] && forall i :: 0 <= i < |s.design| ==> s.design[i][0] == 1.0
    ensures Injective(NormalMatrix(s, alpha), s.width)
    ensures forall x :: Holds(NormalSystem(s, alpha), s.width, x) <==> x == solution
  {
    hide Spread, Penalty, SquaredError, Stationary, NormalMatrix, Dot, Holds;
    var gram := NormalMatrix(s, alpha);
    forall z: Vector | |z| == s.width && forall i :: 0 <= i < s.width ==> Dot(gram[i], z, s.width) == 0.0
      ensures forall k :: 0 <= k < s.width ==> z[k] == 0.0
    {
      KernelIsStationary(s, alpha, z);
      ZeroIsStationary(s, alpha);
      StationaryDifference(Homogeneous(s), alpha, z);
      PenaltyNonNegative(z, s.width);
      SpreadNonNegative(Homogeneous(s), z, |s.design|);
      DotOfFirst(s.design[0], z, s.width);
    }
    solution := InjectiveIsRegular(gram, NormalRhs(s), s.width);
  }

  class LinearRegressor {
    const featureCount: nat
    const ridgeAlpha: real
    var coefficients: Option<Vector>

    ghost predicate Valid()
      reads this
    {
      ridgeAlpha >= 0.0
    }

    /** The source raises on a negative `ridge_alpha`. */
    constructor (featureCount: nat, ridgeAlpha: real)
      requires ridgeAlpha >= 0.0
      ensures Valid() && coefficients == None
      ensures this.featureCount == featureCount && this.ridgeAlpha == ridgeAlpha
    {
      this.featureCount := featureCount;
      this.ridgeAlpha := ridgeAlpha;
      coefficients := None;
    }

    /**
     On success the stored coefficients beat every other coefficient vector; on failure nothing is stored, and the input
     checks come before the solver. Valid inputs fail exactly when the elimination of the normal equations runs out of
     pivots under the tolerance, so never when their columns are dominated by the diagonal with that margin.
     */
    method Fit(features: Matrix, target: Vector, weights: Vector) returns (r: Result<(), FitError>)
      requires Valid()
      modifies this
      ensures Valid()
      ensures r.Err? ==> coefficients == old(coefficients)
      ensures forall e :: e != SingularSystem ==>
                (r == Err(e) <==> IsProblem(features, target, weights, featureCount, e))
      ensures Validate(features, target, weights, featureCount).None? ==>
                var s := Designed(features, target, weights, featureCount);
                && (r.Err? <==> RunsOut(NormalSystem(s, ridgeAlpha), s.width, PIVOT_TOLERANCE))
                && (Dominant(NormalSystem(s, ridgeAlpha), s.width, 0, PIVOT_TOLERANCE) ==> r.Ok?)
      ensures r.Ok? ==>
                && Validate(features, target, weights, featureCount).None?
                && coefficients.Some? && |coefficients.value| == featureCount + 1
                && |features| == |target| == |weights| && AllWide(features, featureCount)
                && var fitted := coefficients.value;
                   forall other | |other| == featureCount + 1 && other != fitted ::
                     RidgeLoss(features, target, weights, ridgeAlpha, fitted[0], fitted[1..]) <
                     RidgeLoss(features, target, weights, ridgeAlpha, other[0], other[1..])
    {
      hide RunsOut, Dominant, NormalMatrix, NormalRhs, Objective, RidgeLoss;
      forall e: FitError
        ensures Validate(features, target, weights, featureCount) == Some(e) <==>
                IsProblem(features, target, weights, featureCount, e)
      {
        ValidateIs(features, target, weights, featureCount, e);
      }
      var problem := Validate(features, target, weights, featureCount);
      if problem.Some? {
        return Err(problem.value);
      }
      var s := Sample(seq(|features|, i requires 0 <= i < |features| => [1.0] + features[i]), target, weights,
                      featureCount + 1);
      var gram, rhs := BuildNormal(s, ridgeAlpha);
      var solved := Solve(gram, rhs);
      NormalIsUnique(s, ridgeAlpha, gram, rhs);
      if Dominant(NormalSystem(s, ridgeAlpha), s.width, 0, PIVOT_TOLERANCE) {
        DominantIsSolved(NormalSystem(s, ridgeAlpha), s.width);
      }
      if solved.Err? {
        return Err(SingularSystem);
      }
      assert Holds(Augment(gram, rhs), s.width, solved.value);
      ObjectiveIsLoss(features, target, weights, ridgeAlpha, solved.value);
      forall other | |other| == s.width && other != solved.value
        ensures RidgeLoss(features, target, weights, ridgeAlpha, solved.value[0], solved.value[1..]) <
                RidgeLoss(features, target, weights, ridgeAlpha, other[0], other[1..])
      {
        ObjectiveIsLoss(features, target, weights, ridgeAlpha, other);
        NormalSolutionIsBest(s, ridgeAlpha, gram, rhs, solved.value, other);
      }
      coefficients := Some(solved.value);
      r := Ok(());
    }
  }

  /** `target[k] += f * row[k]` for every `k`. */
  method AddMultiple(target: Vector, f: real, row: Vector) returns (r: Vector)
    requires |target| == |row|
    ensures |r| == |row| && forall k :: 0 <= k < |row| ==> r[k] == target[k] + f * row[k]
  {
    r := target;
    for k := 0 to |row|
      invariant |r| == |row|
      invariant forall j :: 0 <= j < |row| ==> r[j] == if j < k then target[j] + f * row[j] else target[j]
    {
      r := r[k := r[k] + f * row[k]];
    }
  }

  /** What sample `i` adds to row `left` of the normal equations. */
  ghost predicate AddedRow(s: Sample, i: nat, left: nat, entries0: Vector, entries: Vector)
    requires s.Valid() && i < |s.design| && left < s.width
    requires |entries0| == s.width
  {
    && |entries| == s.width
    && forall r :: 0 <= r < s.width ==>
         entries[r] == entries0[r] + s.weights[i] * s.design[i][left] * s.design[i][r]
  }

  /** What sample `i` adds to the right-hand side of row `left`. */
  ghost predicate AddedRhs(s: Sample, i: nat, left: nat, rhs0: real, rhs: real)
    requires s.Valid() && i < |s.design| && left < s.width
  {
    rhs == rhs0 + s.weights[i] * s.design[i][left] * s.target[i]
  }

  /** Adding sample `i` to row `left`. */
  method AddToRow(s: Sample, i: nat, left: nat, entries0: Vector, rhs0: real)
    returns (entries: Vector, rhs: real)
    requires s.Valid() && i < |s.design| && left < s.width && |entries0| == s.width
    ensures |entries| == s.width
    ensures AddedRow(s, i, left, entries0, entries) && AddedRhs(s, i, left, rhs0, rhs)
  {
    rhs := rhs0 + s.weights[i] * s.design[i][left] * s.target[i];
    entries := AddMultiple(entries0, s.weights[i] * s.design[i][left], s.design[i]);
  }

  /** Adding sample `i` to the sums over the samples before it. */
  method AddSample(s: Sample, i: nat, gram0: Matrix, rhs0: Vector) returns (gram: Matrix, rhs: Vector)
    requires s.Valid() && i < |s.design|
    requires |gram0| == |rhs0| == s.width && forall l :: 0 <= l < s.width ==> |gram0[l]| == s.width
    ensures |gram| == |rhs| == s.width && forall l :: 0 <= l < s.width ==> |gram[l]| == s.width
    ensures forall l :: 0 <= l < s.width ==> AddedRhs(s, i, l, rhs0[l], rhs[l])
    ensures forall l :: 0 <= l < s.width ==> AddedRow(s, i, l, gram0[l], gram[l])
  {
    hide AddedRow, AddedRhs;
    gram, rhs := gram0, rhs0;
    for left := 0 to s.width
      invariant |gram| == |rhs| == s.width && forall l :: 0 <= l < s.width ==> |gram[l]| == s.width
      invariant forall l :: left <= l < s.width ==> rhs[l] == rhs0[l] && gram[l] == gram0[l]
      invariant forall l :: 0 <= l < left ==> AddedRhs(s, i, l, rhs0[l], rhs[l])
      invariant forall l :: 0 <= l < left ==> AddedRow(s, i, l, gram0[l], gram[l])
    {
      var entries, value := AddToRow(s, i, left, gram[left], rhs[left]);
      gram, rhs := gram[left := entries], rhs[left := value];
    }
  }

  lemma RowAdvances(s: Sample, i: nat, l: nat, entries0: Vector, rhs0: real, entries: Vector, rhs: real)
    requires s.Valid() && i < |s.design| && l < s.width && |entries0| == s.width
    requires AddedRow(s, i, l, entries0, entries) && AddedRhs(s, i, l, rhs0, rhs)
    requires rhs0 == RhsEntry(s, l, i) && forall r :: 0 <= r < s.width ==> entries0[r] == GramEntry(s, l, r, i)
    ensures rhs == RhsEntry(s, l, i + 1) && forall r :: 0 <= r < s.width ==> entries[r] == GramEntry(s, l, r, i + 1)
  {
  }

  /** The accumulation loops over the samples, then the ridge on the diagonal after the intercept. */
  method BuildNormal(s: Sample, alpha: real) returns (gram: Matrix, rhs: Vector)
    requires s.Valid() && s.width >= 1
    ensures IsNormalSystem(s, alpha, gram, rhs)
  {
    hide AddedRow, AddedRhs;
    var width := s.width;
    rhs := seq(width, _ => 0.0);
    gram := seq(width, _ => seq(width, _ => 0.0));
    for i := 0 to |s.design|
      invariant |gram| == |rhs| == width && forall l :: 0 <= l < width ==> |gram[l]| == width
      invariant forall l :: 0 <= l < width ==> rhs[l] == RhsEntry(s, l, i)
      invariant forall l, r :: 0 <= l < width && 0 <= r < width ==> gram[l][r] == GramEntry(s, l, r, i)
    {
      ghost var gram0, rhs0 := gram, rhs;
      gram, rhs := AddSample(s, i, gram, rhs);
      forall l | 0 <= l < width
        ensures rhs[l] == RhsEntry(s, l, i + 1) && forall r :: 0 <= r < width ==>
                  gram[l][r] == GramEntry(s, l, r, i + 1)
      {
        RowAdvances(s, i, l, gram0[l], rhs0[l], gram[l], rhs[l]);
      }
    }
    gram := AddRidge(gram, width, alpha);
  }

  method AddRidge(plain: Matrix, width: nat, alpha: real) returns (gram: Matrix)
    requires width >= 1 && |plain| == width && forall l :: 0 <= l < width ==> |plain[l]| == width
    ensures |gram| == width && forall l :: 0 <= l < width ==> |gram[l]| == width
    ensures forall l, r :: 0 <= l < width && 0 <= r < width ==>
              gram[l][r] == plain[l][r] + if l == r && l >= 1 then alpha else 0.0
  {
    gram := plain;
    for index := 1 to width
      invariant |gram| == width && forall l :: 0 <= l < width ==> |gram[l]| == width
      invariant forall l :: index <= l < width ==> gram[l] == plain[l]
      invariant forall l, r :: 0 <= l < index && 0 <= r < width ==>
                  gram[l][r] == plain[l][r] + if l == r && l >= 1 then alpha else 0.0
    {
      gram := gram[index := gram[index][index := gram[index][index] + alpha]];
    }
  }
}
