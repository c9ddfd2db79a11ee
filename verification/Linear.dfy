/** Exact real vectors and matrices, with the few algebraic facts the solvers need. */
module Linear {

  type Vector = seq<real>

  type Matrix = seq<Vector>

  function Abs(v: real): real {
    if v < 0.0 then -v else v
  }

  function Square(v: real): real {
    v * v
  }

  /** A product the proofs keep folded. */
  function Times(a: real, b: real): real {
    a * b
  }

  /** The sum of `a[k] * x[k]` over `k < n`. */
  function Dot(a: Vector, x: Vector, n: nat): real
    requires n <= |a| && n <= |x|
  {
    if n == 0 then 0.0 else Dot(a, x, n - 1) + a[n - 1] * x[n - 1]
  }

  /** A dot product is linear in its first argument: `c = a - f * b`. */
  lemma {:induction false} DotCombination(c: Vector, a: Vector, f: real, b: Vector, x: Vector, n: nat)
    requires n <= |a| && n <= |b| && n <= |c| && n <= |x|
    requires forall k :: 0 <= k < n ==> c[k] == a[k] - f * b[k]
    ensures Dot(c, x, n) == Dot(a, x, n) - f * Dot(b, x, n)
  {
    if n > 0 {
      DotCombination(c, a, f, b, x, n - 1);
      var ak, bk, xk := a[n - 1], b[n - 1], x[n - 1];
      assert c[n - 1] * xk == ak * xk - f * (bk * xk);
    }
  }

  lemma {:induction false} DotScaled(c: Vector, a: Vector, d: real, x: Vector, n: nat)
    requires n <= |a| && n <= |c| && n <= |x|
    requires forall k :: 0 <= k < n ==> c[k] * d == a[k]
    ensures Dot(c, x, n) * d == Dot(a, x, n)
  {
    if n > 0 {
      DotScaled(c, a, d, x, n - 1);
      var ck, xk := c[n - 1], x[n - 1];
      assert (ck * xk) * d == (ck * d) * xk;
    }
  }

  lemma {:induction false} DotSum(a: Vector, x: Vector, z: Vector, y: Vector, n: nat)
    requires n <= |a| && n <= |x| && n <= |z| && n <= |y|
    requires forall k :: 0 <= k < n ==> y[k] == x[k] + z[k]
    ensures Dot(a, y, n) == Dot(a, x, n) + Dot(a, z, n)
  {
    if n > 0 {
      DotSum(a, x, z, y, n - 1);
      var ak, xk, zk := a[n - 1], x[n - 1], z[n - 1];
      assert ak * y[n - 1] == ak * xk + ak * zk;
    }
  }

  /** A row with a single one, at `at`, selects that component. */
  lemma {:induction false} DotUnit(a: Vector, x: Vector, n: nat, at: nat)
    requires n <= |a| && n <= |x|
    requires forall k :: 0 <= k < n ==> a[k] == if k == at then 1.0 else 0.0
    ensures Dot(a, x, n) == if at < n then x[at] else 0.0
  {
    if n > 0 {
      DotUnit(a, x, n - 1, at);
    }
  }

  lemma PositiveProduct(a: real, b: real, c: real)
    requires a > 0.0 && b > 0.0 && c == a * b
    ensures c > 0.0
  {
  }

  lemma SquareIsPositive(v: real)
    ensures Square(v) >= 0.0
    ensures Square(v) == 0.0 <==> v == 0.0
  {
    if v > 0.0 {
      PositiveProduct(v, v, Square(v));
    } else if v < 0.0 {
      assert (-v) * (-v) == v * v;
      PositiveProduct(-v, -v, Square(v));
    }
  }

  lemma NonNegativeProduct(a: real, b: real, c: real)
    requires a >= 0.0 && b >= 0.0 && c == a * b
    ensures c >= 0.0
    ensures c == 0.0 <==> a == 0.0 || b == 0.0
  {
    if a > 0.0 && b > 0.0 {
      PositiveProduct(a, b, c);
    }
  }

  lemma Distribute(a: real, b: real, c: real, s: real)
    requires s == b + c
    ensures a * s == a * b + a * c
  {
  }

  /** Dividing by a positive number keeps the order. */
  lemma Divide(x: real, d: real, level: real)
    requires d > 0.0
    ensures x / d <= level <==> x <= level * d
    ensures x / d >= level <==> x >= level * d
  {
    var q := x / d;
    assert q * d == x;
    if q < level {
      PositiveProduct(level - q, d, (level - q) * d);
    } else if q > level {
      PositiveProduct(q - level, d, (q - level) * d);
    }
  }
}
