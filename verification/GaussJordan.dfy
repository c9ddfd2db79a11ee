/**
 Gauss-Jordan elimination with partial pivoting, over exact reals.

 A system is kept as a list of augmented rows: `n` coefficients and a right-hand side.
 */
module GaussJordan {
  import opened Linear
  import opened Wrappers

  datatype SolveError = Singular

  const PIVOT_TOLERANCE := 0.000000000001

  predicate Shaped(rows: Matrix, n: nat) {
    |rows| == n && forall i :: 0 <= i < n ==> |rows[i]| == n + 1
  }

  predicate RowHolds(row: Vector, x: Vector)
    requires |row| == |x| + 1
  {
    Dot(row, x, |x|) == row[|x|]
  }

  predicate Holds(rows: Matrix, n: nat, x: Vector)
    requires Shaped(rows, n)
  {
    |x| == n && forall i :: 0 <= i < n ==> RowHolds(rows[i], x)
  }

  predicate Vanishes(row: Vector, y: Vector)
    requires |row| == |y|
  {
    Dot(row, y, |y|) == 0.0
  }

  /** Every augmented row is orthogonal to `y`: with a last entry of minus one, the others solve the system. */
  predicate Kernel(rows: Matrix, n: nat, y: Vector)
    requires Shaped(rows, n)
  {
    |y| == n + 1 && forall i :: 0 <= i < n ==> Vanishes(rows[i], y)
  }

  ghost predicate SameKernel(p: Matrix, q: Matrix, n: nat)
    requires Shaped(p, n) && Shaped(q, n)
  {
    forall y :: Kernel(p, n, y) <==> Kernel(q, n, y)
  }

  lemma {:induction false} DotPrefix(a: Vector, x: Vector, last: real, n: nat)
    requires n <= |a| && n <= |x|
    ensures Dot(a, x + [last], n) == Dot(a, x, n)
  {
    if n > 0 {
      DotPrefix(a, x, last, n - 1);
    }
  }

  lemma RowIsKernel(row: Vector, x: Vector)
    requires |row| == |x| + 1
    ensures RowHolds(row, x) <==> Vanishes(row, x + [-1.0])
  {
    DotPrefix(row, x, -1.0, |x|);
  }

  lemma HoldsIsKernel(rows: Matrix, n: nat, x: Vector)
    requires Shaped(rows, n) && |x| == n
    ensures Holds(rows, n, x) <==> Kernel(rows, n, x + [-1.0])
  {
    forall i | 0 <= i < n
      ensures RowHolds(rows[i], x) <==> Vanishes(rows[i], x + [-1.0])
    {
      RowIsKernel(rows[i], x);
    }
  }

  /** Systems with the same kernel have the same solutions. */
  lemma KernelGivesSolutions(p: Matrix, q: Matrix, n: nat, x: Vector)
    requires Shaped(p, n) && Shaped(q, n) && SameKernel(p, q, n)
    ensures Holds(p, n, x) <==> Holds(q, n, x)
  {
    hide Kernel;
    if |x| == n {
      HoldsIsKernel(p, n, x);
      HoldsIsKernel(q, n, x);
      assert Kernel(p, n, x + [-1.0]) <==> Kernel(q, n, x + [-1.0]);
    }
  }

  /** The first `c` columns are those of the identity matrix. */
  predicate IdentityUpTo(rows: Matrix, n: nat, c: nat)
    requires Shaped(rows, n) && c <= n
  {
    forall i, k :: 0 <= i < n && 0 <= k < c ==> rows[i][k] == if i == k then 1.0 else 0.0
  }

  /** Every entry of column `c` at or below the diagonal is zero or under the tolerance. */
  predicate NegligiblePivots(rows: Matrix, n: nat, c: nat, tolerance: real)
    requires Shaped(rows, n) && c < n
  {
    forall i :: c <= i < n ==> rows[i][c] == 0.0 || Abs(rows[i][c]) < tolerance
  }

  function Augment(matrix: Matrix, vector: Vector): (rows: Matrix)
    requires |matrix| == |vector| && forall i :: 0 <= i < |matrix| ==> |matrix[i]| == |vector|
    ensures Shaped(rows, |vector|)
  {
    seq(|vector|, i requires 0 <= i < |vector| => matrix[i] + [vector[i]])
  }

  function Divided(row: Vector, d: real): (r: Vector)
    requires d != 0.0
  {
    seq(|row|, k requires 0 <= k < |row| => row[k] / d)
  }

  function Minus(row: Vector, f: real, pivot: Vector): (r: Vector)
    requires |row| == |pivot|
  {
    seq(|row|, k requires 0 <= k < |row| => row[k] - f * pivot[k])
  }

  function Swapped(rows: Matrix, i: nat, j: nat): Matrix
    requires i < |rows| && j < |rows|
  {
    rows[i := rows[j]][j := rows[i]]
  }

  lemma DividedVanishes(row: Vector, d: real, y: Vector)
    requires d != 0.0 && |row| == |y|
    ensures Vanishes(Divided(row, d), y) <==> Vanishes(row, y)
  {
    var r := Divided(row, d);
    forall k | 0 <= k < |row|
      ensures r[k] * d == row[k]
    {
    }
    DotScaled(r, row, d, y, |y|);
    Cancel(Dot(r, y, |y|), 0.0, d);
  }

  lemma Cancel(a: real, b: real, d: real)
    requires d != 0.0
    ensures a * d == b * d <==> a == b
  {
    if a * d == b * d {
      assert (a - b) * d == 0.0;
    }
  }

  lemma MinusVanishes(row: Vector, f: real, pivot: Vector, y: Vector)
    requires |row| == |pivot| == |y| && Vanishes(pivot, y)
    ensures Vanishes(Minus(row, f, pivot), y) <==> Vanishes(row, y)
  {
    DotCombination(Minus(row, f, pivot), row, f, pivot, y, |y|);
  }

  /** Exchanging two rows keeps the kernel. */
  lemma SwapKeeps(rows: Matrix, n: nat, i: nat, j: nat)
    requires Shaped(rows, n) && i < n && j < n
    ensures Shaped(Swapped(rows, i, j), n)
    ensures SameKernel(rows, Swapped(rows, i, j), n)
  {
    hide Vanishes;
    var q := Swapped(rows, i, j);
    forall y
      ensures Kernel(rows, n, y) <==> Kernel(q, n, y)
    {
      if Kernel(q, n, y) {
        assert Vanishes(q[i], y) && Vanishes(q[j], y);
        forall k | 0 <= k < n
          ensures Vanishes(rows[k], y)
        {
          assert Vanishes(q[k], y);
        }
      }
    }
  }

  /** Dividing one row by a non-zero number keeps the kernel. */
  lemma ScaleKeeps(rows: Matrix, n: nat, c: nat, d: real)
    requires Shaped(rows, n) && c < n && d != 0.0
    ensures Shaped(rows[c := Divided(rows[c], d)], n)
    ensures SameKernel(rows, rows[c := Divided(rows[c], d)], n)
  {
    hide Vanishes;
    var q := rows[c := Divided(rows[c], d)];
    forall y
      ensures Kernel(rows, n, y) <==> Kernel(q, n, y)
    {
      if |y| == n + 1 {
        DividedVanishes(rows[c], d, y);
        assert q[c] == Divided(rows[c], d);
        if Kernel(q, n, y) {
          assert Vanishes(q[c], y);
          forall k | 0 <= k < n
            ensures Vanishes(rows[k], y)
          {
            assert Vanishes(q[k], y);
          }
        }
      }
    }
  }

  /** Row `k` minus its own entry in column `c` times row `c`. */
  function Reduced(rows: Matrix, n: nat, c: nat, k: nat): (row: Vector)
    requires Shaped(rows, n) && c < n && k < n
    ensures |row| == n + 1
  {
    if k == c then rows[k] else Minus(rows[k], rows[k][c], rows[c])
  }

  /** Subtracting multiples of row `c` from the other rows keeps the kernel. */
  lemma EliminateKeeps(rows: Matrix, q: Matrix, n: nat, c: nat)
    requires Shaped(rows, n) && Shaped(q, n) && c < n
    requires forall k :: 0 <= k < n ==> q[k] == Reduced(rows, n, c, k)
    ensures SameKernel(rows, q, n)
  {
    hide Vanishes;
    forall y
      ensures Kernel(rows, n, y) <==> Kernel(q, n, y)
    {
      if |y| == n + 1 && Vanishes(rows[c], y) {
        forall k | 0 <= k < n
          ensures Vanishes(rows[k], y) <==> Vanishes(q[k], y)
        {
          if k != c {
            MinusVanishes(rows[k], rows[k][c], rows[c], y);
          }
        }
      } else if |y| == n + 1 {
        assert q[c] == rows[c];
      }
    }
  }

  // ---- One step of the elimination ----

  /** The first row of largest magnitude in column `c` among the rows from `c` up to `m`. */
  function Largest(rows: Matrix, n: nat, c: nat, m: nat): (pivot: nat)
    requires Shaped(rows, n) && c < m <= n
    ensures c <= pivot < m
    decreases m
  {
    if m == c + 1 then c
    else
      var best := Largest(rows, n, c, m - 1);
      if Abs(rows[m - 1][c]) > Abs(rows[best][c]) then m - 1 else best
  }

  lemma {:induction false} LargestIsFirst(rows: Matrix, n: nat, c: nat, m: nat)
    requires Shaped(rows, n) && c < m <= n
    ensures var pivot := Largest(rows, n, c, m);
      && (forall i :: c <= i < m ==> Abs(rows[i][c]) <= Abs(rows[pivot][c]))
      && (forall i :: c <= i < pivot ==> Abs(rows[i][c]) < Abs(rows[pivot][c]))
    decreases m
  {
    if m > c + 1 {
      LargestIsFirst(rows, n, c, m - 1);
    }
  }

  /** The pivots are negligible exactly when the largest one is. */
  lemma LargestDecides(rows: Matrix, n: nat, c: nat, tolerance: real)
    requires Shaped(rows, n) && c < n
    ensures var best := rows[Largest(rows, n, c, n)][c];
            NegligiblePivots(rows, n, c, tolerance) <==> best == 0.0 || Abs(best) < tolerance
  {
    LargestIsFirst(rows, n, c, n);
  }

  /** Row `c` swapped with its pivot row and divided by the pivot. */
  function Normalised(rows: Matrix, n: nat, c: nat): (q: Matrix)
    requires Shaped(rows, n) && c < n && rows[Largest(rows, n, c, n)][c] != 0.0
    ensures Shaped(q, n)
  {
    var swapped := Swapped(rows, c, Largest(rows, n, c, n));
    swapped[c := Divided(swapped[c], rows[Largest(rows, n, c, n)][c])]
  }

  lemma SelfQuotient(d: real)
    requires d != 0.0
    ensures d / d == 1.0
  {
  }

  lemma NormalisedPivot(rows: Matrix, n: nat, c: nat)
    requires Shaped(rows, n) && c < n && rows[Largest(rows, n, c, n)][c] != 0.0
    ensures Normalised(rows, n, c)[c][c] == 1.0
  {
    hide Largest;
    var divisor := rows[Largest(rows, n, c, n)][c];
    SelfQuotient(divisor);
    assert Normalised(rows, n, c)[c][c] == divisor / divisor;
  }

  /** One column of the elimination. */
  function Step(rows: Matrix, n: nat, c: nat): (q: Matrix)
    requires Shaped(rows, n) && c < n && rows[Largest(rows, n, c, n)][c] != 0.0
    ensures Shaped(q, n)
  {
    var normal := Normalised(rows, n, c);
    seq(n, k requires 0 <= k < n => Reduced(normal, n, c, k))
  }

  /** One column, unless its pivots are negligible. */
  function NextStep(rows: Matrix, n: nat, c: nat, tolerance: real): (q: Option<Matrix>)
    requires Shaped(rows, n) && c < n
    ensures q.Some? ==> Shaped(q.value, n)
  {
    var best := rows[Largest(rows, n, c, n)][c];
    if best == 0.0 || Abs(best) < tolerance then None else Some(Step(rows, n, c))
  }

  /** The system after `c` columns, unless the pivots of one of them were negligible. */
  function Steps(rows: Matrix, n: nat, c: nat, tolerance: real): (q: Option<Matrix>)
    requires Shaped(rows, n) && c <= n
    ensures q.Some? ==> Shaped(q.value, n)
    decreases c
  {
    if c == 0 then Some(rows)
    else
      match Steps(rows, n, c - 1, tolerance)
      case None => None
      case Some(before) => NextStep(before, n, c - 1, tolerance)
  }

  /** The elimination meets a column without a usable pivot. */
  ghost predicate RunsOut(rows: Matrix, n: nat, tolerance: real)
    requires Shaped(rows, n)
  {
    exists c :: 0 <= c < n && IsStuck(rows, n, c, tolerance)
  }

  predicate IsStuck(rows: Matrix, n: nat, c: nat, tolerance: real)
    requires Shaped(rows, n) && c < n
  {
    Steps(rows, n, c, tolerance).Some? && NegligiblePivots(Steps(rows, n, c, tolerance).value, n, c, tolerance)
  }

  lemma StepKeeps(rows: Matrix, n: nat, c: nat)
    requires Shaped(rows, n) && c < n && rows[Largest(rows, n, c, n)][c] != 0.0
    ensures SameKernel(rows, Step(rows, n, c), n)
    ensures IdentityUpTo(rows, n, c) ==> IdentityUpTo(Step(rows, n, c), n, c + 1)
  {
    hide SameKernel, Largest;
    NormalKeeps(rows, n, c);
    NormalisedPivot(rows, n, c);
    var normal := Normalised(rows, n, c);
    EliminateKeeps(normal, Step(rows, n, c), n, c);
    KernelThrough(rows, normal, Step(rows, n, c), n);
    if IdentityUpTo(rows, n, c) {
      NormalIdentity(rows, n, c);
      ReducedIdentity(normal, Step(rows, n, c), n, c);
    }
  }

  lemma KernelThrough(p: Matrix, q: Matrix, r: Matrix, n: nat)
    requires Shaped(p, n) && Shaped(q, n) && Shaped(r, n) && SameKernel(p, q, n) && SameKernel(q, r, n)
    ensures SameKernel(p, r, n)
  {
    hide Kernel;
  }

  lemma NormalKeeps(rows: Matrix, n: nat, c: nat)
    requires Shaped(rows, n) && c < n && rows[Largest(rows, n, c, n)][c] != 0.0
    ensures SameKernel(rows, Normalised(rows, n, c), n)
  {
    hide SameKernel, Largest;
    var swapped := Swapped(rows, c, Largest(rows, n, c, n));
    SwapKeeps(rows, n, c, Largest(rows, n, c, n));
    ScaleKeeps(swapped, n, c, rows[Largest(rows, n, c, n)][c]);
    KernelThrough(rows, swapped, Normalised(rows, n, c), n);
  }

  lemma NormalIdentity(rows: Matrix, n: nat, c: nat)
    requires Shaped(rows, n) && c < n && rows[Largest(rows, n, c, n)][c] != 0.0 && IdentityUpTo(rows, n, c)
    ensures IdentityUpTo(Normalised(rows, n, c), n, c)
  {
    hide Largest;
    var divisor, pivot := rows[Largest(rows, n, c, n)][c], Largest(rows, n, c, n);
    forall k | 0 <= k < c
      ensures Normalised(rows, n, c)[c][k] == 0.0
    {
      assert rows[pivot][k] == 0.0;
      ZeroQuotient(divisor);
    }
  }

  lemma ZeroQuotient(d: real)
    requires d != 0.0
    ensures 0.0 / d == 0.0
  {
  }

  lemma ReducedIdentity(normal: Matrix, q: Matrix, n: nat, c: nat)
    requires Shaped(normal, n) && Shaped(q, n) && c < n && IdentityUpTo(normal, n, c) && normal[c][c] == 1.0
    requires forall k :: 0 <= k < n ==> q[k] == Reduced(normal, n, c, k)
    ensures IdentityUpTo(q, n, c + 1)
  {
    forall i, k | 0 <= i < n && 0 <= k < c + 1
      ensures q[i][k] == if i == k then 1.0 else 0.0
    {
      assert k < c ==> normal[c][k] == 0.0;
    }
  }

  lemma {:induction false} StepsKeep(rows: Matrix, n: nat, c: nat, tolerance: real)
    requires Shaped(rows, n) && c <= n && Steps(rows, n, c, tolerance).Some?
    ensures SameKernel(rows, Steps(rows, n, c, tolerance).value, n)
            && IdentityUpTo(Steps(rows, n, c, tolerance).value, n, c)
    decreases c
  {
    hide Kernel, Step;
    if c > 0 {
      var before := Steps(rows, n, c - 1, tolerance).value;
      StepsKeep(rows, n, c - 1, tolerance);
      LargestDecides(before, n, c - 1, tolerance);
      StepKeeps(before, n, c - 1);
    }
  }

  /** The elimination is carried through, or it runs out of pivots. */
  lemma {:induction false} StepsOrStuck(rows: Matrix, n: nat, c: nat, tolerance: real)
    requires Shaped(rows, n) && c <= n
    ensures Steps(rows, n, c, tolerance).None? <==> exists k :: 0 <= k < c && IsStuck(rows, n, k, tolerance)
    decreases c
  {
    hide Step, NegligiblePivots, Largest;
    if c > 0 {
      StepsOrStuck(rows, n, c - 1, tolerance);
      if Steps(rows, n, c - 1, tolerance).Some? {
        LargestDecides(Steps(rows, n, c - 1, tolerance).value, n, c - 1, tolerance);
      }
      if k :| 0 <= k < c && IsStuck(rows, n, k, tolerance) {
        if k < c - 1 {
          assert Steps(rows, n, c - 1, tolerance).None?;
        }
      }
      if Steps(rows, n, c, tolerance).None? && Steps(rows, n, c - 1, tolerance).Some? {
        assert IsStuck(rows, n, c - 1, tolerance);
      }
    }
  }

  // ---- The solver ----

  /** `max(range(column, width), key=abs)`: the first row of largest magnitude. */
  method LargestPivot(rows: Matrix, n: nat, column: nat) returns (pivot: nat)
    requires Shaped(rows, n) && column < n
    ensures pivot == Largest(rows, n, column, n)
  {
    pivot := column;
    for row := column + 1 to n
      invariant pivot == Largest(rows, n, column, row)
    {
      if Abs(rows[row][column]) > Abs(rows[pivot][column]) {
        pivot := row;
      }
    }
  }

  /** Clears column `c` outside row `c`. */
  method Eliminate(rows: Matrix, n: nat, c: nat) returns (q: Matrix)
    requires Shaped(rows, n) && c < n
    ensures |q| == n && forall k :: 0 <= k < n ==> q[k] == Reduced(rows, n, c, k)
  {
    q := rows;
    for row := 0 to n
      invariant Shaped(q, n)
      invariant forall k :: 0 <= k < n ==> q[k] == if k < row then Reduced(rows, n, c, k) else rows[k]
    {
      if row == c {
        continue;
      }
      var factor := q[row][c];
      assert q[c] == rows[c];
      q := q[row := Minus(q[row], factor, q[c])];
    }
  }

  /** The body of the loop: exchange, divide and eliminate. */
  method ReduceColumn(rows: Matrix, n: nat, column: nat, pivot: nat) returns (q: Matrix)
    requires Shaped(rows, n) && column < n && pivot == Largest(rows, n, column, n) && rows[pivot][column] != 0.0
    ensures Shaped(q, n) && q == Step(rows, n, column)
  {
    hide Largest;
    q := Swapped(rows, column, pivot);
    var divisor := q[column][column];
    q := q[column := Divided(q[column], divisor)];
    q := Eliminate(q, n, column);
  }

  lemma StepsNext(rows: Matrix, n: nat, c: nat, tolerance: real)
    requires Shaped(rows, n) && c < n && Steps(rows, n, c, tolerance).Some?
    ensures var before := Steps(rows, n, c, tolerance).value;
      && (NegligiblePivots(before, n, c, tolerance) ==> RunsOut(rows, n, tolerance))
      && (!NegligiblePivots(before, n, c, tolerance) ==>
            before[Largest(before, n, c, n)][c] != 0.0 && Steps(rows, n, c + 1, tolerance) == Some(Step(before, n, c)))
  {
    hide Step, Largest, NegligiblePivots;
    LargestDecides(Steps(rows, n, c, tolerance).value, n, c, tolerance);
    if NegligiblePivots(Steps(rows, n, c, tolerance).value, n, c, tolerance) {
      assert IsStuck(rows, n, c, tolerance);
    }
  }

  lemma NothingReduced(rows: Matrix, n: nat, tolerance: real)
    requires Shaped(rows, n)
    ensures Steps(rows, n, 0, tolerance) == Some(rows)
  {
  }

  /**
   `_solve`: it fails exactly when the elimination runs out of pivots under the tolerance; otherwise the result is the
   one and only solution of the given system.
   */
  method Solve(matrix: Matrix, vector: Vector) returns (r: Result<Vector, SolveError>)
    requires |matrix| == |vector| && forall i :: 0 <= i < |matrix| ==> |matrix[i]| == |vector|
    ensures r.Ok? ==> forall x :: Holds(Augment(matrix, vector), |vector|, x) <==> x == r.value
    ensures r.Err? <==> RunsOut(Augment(matrix, vector), |vector|, PIVOT_TOLERANCE)
  {
    hide SameKernel, Kernel, NegligiblePivots, IdentityUpTo, Holds, Steps, Step, Largest, RunsOut;
    var width := |vector|;
    var augmented := Augment(matrix, vector);
    ghost var original := augmented;
    NothingReduced(original, width, PIVOT_TOLERANCE);
    for column := 0 to width
      invariant Shaped(augmented, width) && Steps(original, width, column, PIVOT_TOLERANCE) == Some(augmented)
    {
      var pivot := LargestPivot(augmented, width, column);
      LargestDecides(augmented, width, column, PIVOT_TOLERANCE);
      StepsNext(original, width, column, PIVOT_TOLERANCE);
      if Abs(augmented[pivot][column]) < PIVOT_TOLERANCE {
        return Err(Singular);
      }
      augmented := ReduceColumn(augmented, width, column, pivot);
    }
    var solution := seq(width, row requires 0 <= row < |augmented| && |augmented[row]| > width =>
                          augmented[row][width]);
    Carried(original, augmented, width);
    ReadOff(augmented, width, solution);
    forall x
      ensures Holds(original, width, x) <==> x == solution
    {
      KernelGivesSolutions(original, augmented, width, x);
    }
    r := Ok(solution);
  }

  lemma Carried(rows: Matrix, reached: Matrix, n: nat)
    requires Shaped(rows, n) && Steps(rows, n, n, PIVOT_TOLERANCE) == Some(reached)
    ensures Shaped(reached, n) && SameKernel(rows, reached, n) && IdentityUpTo(reached, n, n)
    ensures !RunsOut(rows, n, PIVOT_TOLERANCE)
  {
    hide Steps, SameKernel;
    StepsKeep(rows, n, n, PIVOT_TOLERANCE);
    StepsOrStuck(rows, n, n, PIVOT_TOLERANCE);
  }

  /** With an identity on the left, the last column is the only solution. */
  lemma ReadOff(rows: Matrix, n: nat, solution: Vector)
    requires Shaped(rows, n) && IdentityUpTo(rows, n, n)
    requires |solution| == n && forall i :: 0 <= i < n ==> solution[i] == rows[i][n]
    ensures forall x :: Holds(rows, n, x) <==> x == solution
  {
    forall x
      ensures Holds(rows, n, x) <==> x == solution
    {
      if |x| == n {
        forall i | 0 <= i < n
          ensures RowHolds(rows[i], x) <==> x[i] == solution[i]
        {
          DotUnit(rows[i], x, n, i);
        }
        if Holds(rows, n, x) {
          forall i | 0 <= i < n
            ensures x[i] == solution[i]
          {
            assert RowHolds(rows[i], x);
          }
        }
      }
    }
  }

  /** The direction that column `c` of a partly reduced system cannot see: `e_c` minus the pivot columns. */
  function BlindDirection(rows: Matrix, n: nat, c: nat): (z: Vector)
    requires Shaped(rows, n) && c < n
    ensures |z| == n && z[c] == 1.0
  {
    seq(n, k requires 0 <= k < n => if k < c then -rows[k][c] else if k == c then 1.0 else 0.0)
  }

  /** Row `i` maps the blind direction to zero above column `c`, and to its own entry of column `c` below. */
  lemma {:induction false} BlindDot(rows: Matrix, n: nat, c: nat, i: nat, m: nat)
    requires Shaped(rows, n) && c < n && IdentityUpTo(rows, n, c) && i < n && m <= n
    ensures Dot(rows[i], BlindDirection(rows, n, c), m) ==
            (if i < c && i < m then -rows[i][c] else 0.0) + (if c < m then rows[i][c] else 0.0)
  {
    if m > 0 {
      BlindDot(rows, n, c, i, m - 1);
      assert m - 1 < c ==> rows[i][m - 1] == if i == m - 1 then 1.0 else 0.0;
    }
  }

  /**
   When the elimination runs out at column `c`, the system it has reached, which has the solutions of the given one,
   moves along a non-zero direction by less than the tolerance in every equation.
   */
  lemma RejectedIsNearlyBlind(rows: Matrix, n: nat, c: nat)
    requires Shaped(rows, n) && c < n && IsStuck(rows, n, c, PIVOT_TOLERANCE)
    ensures var reached := Steps(rows, n, c, PIVOT_TOLERANCE).value;
      && SameKernel(rows, reached, n)
      && forall i :: 0 <= i < n ==> Abs(Dot(reached[i], BlindDirection(reached, n, c), n)) < PIVOT_TOLERANCE
  {
    hide Kernel;
    StepsKeep(rows, n, c, PIVOT_TOLERANCE);
    var reached := Steps(rows, n, c, PIVOT_TOLERANCE).value;
    forall i | 0 <= i < n
      ensures Abs(Dot(reached[i], BlindDirection(reached, n, c), n)) < PIVOT_TOLERANCE
    {
      BlindDot(reached, n, c, i, n);
    }
  }

  // ---- Regular systems ----

  /** Only the zero vector is mapped to zero. */
  ghost predicate Injective(matrix: Matrix, n: nat)
    requires |matrix| == n && forall i :: 0 <= i < n ==> |matrix[i]| == n
  {
    forall z: Vector :: |z| == n && (forall i :: 0 <= i < n ==> Dot(matrix[i], z, n) == 0.0) ==>
      forall k :: 0 <= k < n ==> z[k] == 0.0
  }

  /** Where all pivots of a column are exactly zero, the matrix maps a non-zero vector to zero. */
  lemma ZeroPivotsAreSingular(matrix: Matrix, vector: Vector, n: nat, c: nat)
    requires |matrix| == |vector| == n && (forall i :: 0 <= i < n ==> |matrix[i]| == n)
    requires c < n && IsStuck(Augment(matrix, vector), n, c, 0.0)
    ensures !Injective(matrix, n)
  {
    hide SameKernel, Steps, Kernel, Vanishes, IdentityUpTo, NegligiblePivots, IsStuck, Dot;
    var rows := Augment(matrix, vector);
    var reached := ZeroPivotsReached(rows, n, c);
    var z := BlindDirection(reached, n, c);
    BlindKernel(reached, n, c);
    KernelMember(rows, reached, n, z + [0.0]);
    forall i | 0 <= i < n
      ensures Dot(matrix[i], z, n) == 0.0
    {
      KernelRow(rows, n, z + [0.0], i);
      assert rows[i] == matrix[i] + [vector[i]];
      HomogeneousRow(matrix[i], vector[i], z, n);
    }
    assert z[c] == 1.0;
  }

  lemma ZeroPivotsReached(rows: Matrix, n: nat, c: nat) returns (reached: Matrix)
    requires Shaped(rows, n) && c < n && IsStuck(rows, n, c, 0.0)
    ensures Shaped(reached, n) && SameKernel(rows, reached, n) && IdentityUpTo(reached, n, c)
    ensures forall i :: c <= i < n ==> reached[i][c] == 0.0
  {
    hide Steps, SameKernel, IdentityUpTo;
    StepsKeep(rows, n, c, 0.0);
    reached := Steps(rows, n, c, 0.0).value;
  }

  lemma BlindKernel(rows: Matrix, n: nat, c: nat)
    requires Shaped(rows, n) && c < n && IdentityUpTo(rows, n, c) && forall i :: c <= i < n ==> rows[i][c] == 0.0
    ensures Kernel(rows, n, BlindDirection(rows, n, c) + [0.0])
  {
    hide IdentityUpTo, Dot;
    var z := BlindDirection(rows, n, c);
    forall i | 0 <= i < n
      ensures Vanishes(rows[i], z + [0.0])
    {
      BlindDot(rows, n, c, i, n);
      ExtendedRow(rows[i], z, n);
    }
  }

  lemma ExtendedRow(row: Vector, z: Vector, n: nat)
    requires |row| == n + 1 && |z| == n
    ensures Dot(row, z + [0.0], n + 1) == Dot(row, z, n)
  {
    DotPrefix(row, z, 0.0, n);
  }

  lemma HomogeneousRow(a: Vector, last: real, z: Vector, n: nat)
    requires |a| == |z| == n && Vanishes(a + [last], z + [0.0])
    ensures Dot(a, z, n) == 0.0
  {
    ExtendedRow(a + [last], z, n);
    DotLonger(a, last, z, n);
  }

  lemma KernelRow(rows: Matrix, n: nat, y: Vector, i: nat)
    requires Shaped(rows, n) && Kernel(rows, n, y) && i < n
    ensures Vanishes(rows[i], y)
  {
  }

  lemma KernelMember(p: Matrix, q: Matrix, n: nat, y: Vector)
    requires Shaped(p, n) && Shaped(q, n) && SameKernel(p, q, n) && Kernel(q, n, y)
    ensures Kernel(p, n, y)
  {
    hide Kernel;
  }

  lemma {:induction false} DotLonger(a: Vector, last: real, x: Vector, n: nat)
    requires n <= |a| && n <= |x|
    ensures Dot(a + [last], x, n) == Dot(a, x, n)
  {
    if n > 0 {
      DotLonger(a, last, x, n - 1);
    }
  }

  /** A matrix that maps only zero to zero gives every right-hand side exactly one solution. */
  lemma InjectiveIsRegular(matrix: Matrix, vector: Vector, n: nat) returns (solution: Vector)
    requires |matrix| == |vector| == n && (forall i :: 0 <= i < n ==> |matrix[i]| == n) && Injective(matrix, n)
    ensures forall x :: Holds(Augment(matrix, vector), n, x) <==> x == solution
  {
    hide SameKernel, Kernel, IdentityUpTo, Holds, Injective, NegligiblePivots, Step, Steps, IsStuck;
    var rows := Augment(matrix, vector);
    StepsOrStuck(rows, n, n, 0.0);
    if Steps(rows, n, n, 0.0).None? {
      var c :| 0 <= c < n && IsStuck(rows, n, c, 0.0);
      ZeroPivotsAreSingular(matrix, vector, n, c);
      solution := [];
    } else {
      var reached := Steps(rows, n, n, 0.0).value;
      solution := seq(n, i requires 0 <= i < n => reached[i][n]);
      StepsKeep(rows, n, n, 0.0);
      ReadOff(reached, n, solution);
      forall x
        ensures Holds(rows, n, x) <==> x == solution
      {
        KernelGivesSolutions(rows, reached, n, x);
      }
    }
  }

  /** The tolerance is absolute: a regular system with small entries is rejected as well. */
  lemma SmallRegularSystemIsRejected(tiny: real)
    requires 0.0 < tiny < PIVOT_TOLERANCE
    ensures RunsOut(Augment([[tiny]], [0.0]), 1, PIVOT_TOLERANCE) && Injective([[tiny]], 1)
  {
    var rows := Augment([[tiny]], [0.0]);
    assert rows[0] == [tiny, 0.0];
    assert IsStuck(rows, 1, 0, PIVOT_TOLERANCE);
    forall z: Vector | |z| == 1 && Dot([tiny], z, 1) == 0.0
      ensures z[0] == 0.0
    {
      assert Dot([tiny], z, 1) == Dot([tiny], z, 0) + tiny * z[0];
      Cancel(z[0], 0.0, tiny);
    }
  }

  // ---- A condition for success ----

  /** The magnitudes of column `j` in the rows from `c` up to `m`, without its diagonal. */
  function OffDiagonal(rows: Matrix, n: nat, j: nat, c: nat, m: nat): (sum: real)
    requires Shaped(rows, n) && j < n && c <= m <= n
    ensures sum >= 0.0
    decreases m
  {
    if m == c then 0.0 else OffDiagonal(rows, n, j, c, m - 1) + if m - 1 == j then 0.0 else Abs(rows[m - 1][j])
  }

  /**
    * From column `c` on, every diagonal entry exceeds the other entries at or below row `c` together by the
    * tolerance.
    */
  predicate Dominant(rows: Matrix, n: nat, c: nat, tolerance: real)
    requires Shaped(rows, n) && c <= n
  {
    forall j :: c <= j < n ==> Abs(rows[j][j]) >= OffDiagonal(rows, n, j, c, n) + tolerance
  }

  lemma {:induction false} OneOfMany(rows: Matrix, n: nat, j: nat, c: nat, m: nat, i: nat)
    requires Shaped(rows, n) && j < n && c <= i < m <= n && i != j
    ensures Abs(rows[i][j]) <= OffDiagonal(rows, n, j, c, m)
    decreases m
  {
    if i < m - 1 {
      OneOfMany(rows, n, j, c, m - 1, i);
    }
  }

  /** Leaving out the first row leaves out its entry. */
  lemma {:induction false} WithoutFirst(rows: Matrix, n: nat, j: nat, c: nat, m: nat)
    requires Shaped(rows, n) && j < n && c < m <= n
    ensures OffDiagonal(rows, n, j, c, m) == OffDiagonal(rows, n, j, c + 1, m) + if c == j then 0.0 else Abs(rows[c][j])
    decreases m
  {
    if m == c + 1 {
      assert OffDiagonal(rows, n, j, c, c) == 0.0;
    } else {
      WithoutFirst(rows, n, j, c, m - 1);
    }
  }

  /** The pivot of a dominant column is its diagonal entry. */
  lemma DominantPivot(rows: Matrix, n: nat, c: nat, tolerance: real)
    requires Shaped(rows, n) && c < n && tolerance > 0.0 && Dominant(rows, n, c, tolerance)
    ensures Largest(rows, n, c, n) == c && Abs(rows[c][c]) >= tolerance && !NegligiblePivots(rows, n, c, tolerance)
  {
    var pivot := Largest(rows, n, c, n);
    LargestIsFirst(rows, n, c, n);
    if pivot != c {
      OneOfMany(rows, n, c, c, n, pivot);
    }
  }

  lemma AbsTimes(a: real, b: real)
    ensures Abs(a * b) == Abs(a) * Abs(b)
  {
  }

  lemma AbsDivides(a: real, d: real)
    requires d != 0.0
    ensures Times(Abs(a / d), Abs(d)) == Abs(a)
  {
    AbsTimes(a / d, d);
  }

  /** One entry below row `c` after a step whose pivot is the diagonal entry. */
  lemma StepEntry(rows: Matrix, n: nat, c: nat, i: nat, j: nat)
    requires Shaped(rows, n) && c < n && rows[c][c] != 0.0 && Largest(rows, n, c, n) == c && c < i < n && c < j < n
    ensures Step(rows, n, c)[i][j] == rows[i][j] - rows[i][c] * (rows[c][j] / rows[c][c])
  {
    hide Largest;
    assert Swapped(rows, c, c) == rows;
    var normal := Normalised(rows, n, c);
    assert normal[i] == rows[i] && normal[c] == Divided(rows[c], rows[c][c]);
    assert Step(rows, n, c)[i] == Reduced(normal, n, c, i);
  }

  /** What a step adds to an entry is bounded by the two entries it is made of. */
  lemma StepEntryBound(rows: Matrix, n: nat, c: nat, i: nat, j: nat, f: real)
    requires Shaped(rows, n) && c < n && rows[c][c] != 0.0 && Largest(rows, n, c, n) == c && c < i < n && c < j < n
    requires f == Abs(rows[c][j] / rows[c][c])
    ensures Abs(rows[i][j]) - Times(f, Abs(rows[i][c])) <= Abs(Step(rows, n, c)[i][j])
    ensures Abs(Step(rows, n, c)[i][j]) <= Abs(rows[i][j]) + Times(f, Abs(rows[i][c]))
  {
    hide Step, Largest;
    StepEntry(rows, n, c, i, j);
    AbsTimes(rows[i][c], rows[c][j] / rows[c][c]);
    var moved := rows[i][c] * (rows[c][j] / rows[c][c]);
    assert Abs(moved) == Times(f, Abs(rows[i][c]));
  }

  /**
    * The off-diagonal sum of a column grows by at most `f` times that of the pivot column, without the diagonal's
    * row.
    */
  lemma {:induction false} StepSum(rows: Matrix, n: nat, c: nat, j: nat, m: nat, f: real, others: real)
    requires Shaped(rows, n) && c < j < n && rows[c][c] != 0.0 && Largest(rows, n, c, n) == c && c < m <= n
    requires f == Abs(rows[c][j] / rows[c][c])
    requires others == OffDiagonal(rows, n, c, c + 1, m) - if j < m then Abs(rows[j][c]) else 0.0
    ensures OffDiagonal(Step(rows, n, c), n, j, c + 1, m) <= OffDiagonal(rows, n, j, c + 1, m) + Times(f, others)
    decreases m
  {
    hide Step, Largest, Abs, Times;
    if m == c + 1 {
      TimesZero(f);
    } else {
      var i := m - 1;
      var before := OffDiagonal(rows, n, c, c + 1, i) - if j < i then Abs(rows[j][c]) else 0.0;
      StepSum(rows, n, c, j, i, f, before);
      if i != j {
        StepEntryBound(rows, n, c, i, j, f);
        TimesDistributes(f, before, Abs(rows[i][c]));
      }
    }
  }

  lemma TimesZero(f: real)
    ensures Times(f, 0.0) == 0.0
  {
  }

  lemma TimesDistributes(f: real, a: real, b: real)
    ensures Times(f, a + b) == Times(f, a) + Times(f, b)
  {
  }

  lemma TimesPositive(f: real, a: real)
    requires f >= 0.0 && a >= 0.0
    ensures Times(f, a) >= 0.0
  {
    NonNegativeProduct(f, a, f * a);
  }

  /** The arithmetic of one dominant column. */
  lemma MarginStays(diagonal: real, after: real, sum: real, sumAfter: real, above: real, pivot: real, mine: real,
                    others: real,
                    f: real, tolerance: real)
    requires tolerance >= 0.0 && f >= 0.0 && Times(f, pivot) == above && pivot >= mine + others + tolerance
    requires diagonal >= above + sum + tolerance
    requires after >= diagonal - Times(f, mine) && sumAfter <= sum + Times(f, others)
    ensures after >= sumAfter + tolerance
  {
    hide Times;
    var extra := pivot - mine - others;
    TimesPositive(f, extra);
    TimesDistributes(f, mine, others);
    TimesDistributes(f, mine + others, extra);
    assert mine + others + extra == pivot;
  }

  /** A step keeps the rest of the system dominant. */
  lemma StepKeepsDominant(rows: Matrix, n: nat, c: nat, tolerance: real)
    requires Shaped(rows, n) && c < n && tolerance > 0.0 && Dominant(rows, n, c, tolerance)
    ensures Largest(rows, n, c, n) == c && rows[c][c] != 0.0
    ensures Dominant(Step(rows, n, c), n, c + 1, tolerance)
  {
    hide Step, Largest, Abs, Times, OffDiagonal;
    DominantPivot(rows, n, c, tolerance);
    AbsOfZero();
    forall j | c + 1 <= j < n
      ensures Abs(Step(rows, n, c)[j][j]) >= OffDiagonal(Step(rows, n, c), n, j, c + 1, n) + tolerance
    {
      var f := Abs(rows[c][j] / rows[c][c]);
      AbsIsPositive(rows[c][j] / rows[c][c]);
      AbsDivides(rows[c][j], rows[c][c]);
      var mine := Abs(rows[j][c]);
      var others := OffDiagonal(rows, n, c, c + 1, n) - mine;
      WithoutFirst(rows, n, j, c, n);
      WithoutFirst(rows, n, c, c, n);
      StepSum(rows, n, c, j, n, f, others);
      StepEntryBound(rows, n, c, j, j, f);
      MarginStays(Abs(rows[j][j]), Abs(Step(rows, n, c)[j][j]), OffDiagonal(rows, n, j, c + 1, n),
                  OffDiagonal(Step(rows, n, c), n, j, c + 1, n), Abs(rows[c][j]), Abs(rows[c][c]), mine, others, f,
                      tolerance);
    }
  }

  lemma AbsOfZero()
    ensures Abs(0.0) == 0.0
  {
  }

  lemma AbsIsPositive(v: real)
    ensures Abs(v) >= 0.0
  {
  }

  lemma {:induction false} DominantSteps(rows: Matrix, n: nat, c: nat, tolerance: real)
    requires Shaped(rows, n) && c <= n && tolerance > 0.0 && Dominant(rows, n, 0, tolerance)
    ensures Steps(rows, n, c, tolerance).Some? && Dominant(Steps(rows, n, c, tolerance).value, n, c, tolerance)
    decreases c
  {
    hide Step, Dominant, NegligiblePivots;
    if c > 0 {
      DominantSteps(rows, n, c - 1, tolerance);
      var before := Steps(rows, n, c - 1, tolerance).value;
      LargestDecides(before, n, c - 1, tolerance);
      DominantPivot(before, n, c - 1, tolerance);
      StepKeepsDominant(before, n, c - 1, tolerance);
    }
  }

  /** A system whose columns are dominated by their diagonals with the tolerance as margin is solved. */
  lemma DominantIsSolved(rows: Matrix, n: nat)
    requires Shaped(rows, n) && Dominant(rows, n, 0, PIVOT_TOLERANCE)
    ensures !RunsOut(rows, n, PIVOT_TOLERANCE)
  {
    hide Dominant;
    DominantSteps(rows, n, n, PIVOT_TOLERANCE);
    StepsOrStuck(rows, n, n, PIVOT_TOLERANCE);
  }
}
