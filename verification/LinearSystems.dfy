/** Gauss-Jordan elimination with pivoting, over the reals: a pivot is too small when
    it is zero. */
module LinearSystems {
  import opened Outcomes

  type Vector = seq<real>
  type Matrix = seq<seq<real>>

  predicate Square(a: Matrix, n: nat) {
    |a| == n && forall r | 0 <= r < n :: |a[r]| == n
  }

  function Abs(x: real): real {
    if x < 0.0 then -x else x
  }

  /** The sum of the first `k` products. */
  function Dot(u: Vector, v: Vector, k: nat): real
    requires k <= |u| && k <= |v|
  {
    if k == 0 then 0.0 else Dot(u, v, k - 1) + u[k - 1] * v[k - 1]
  }

  /** `x` satisfies every equation. */
  ghost predicate Solves(a: Matrix, b: Vector, x: Vector)
    requires Square(a, |b|)
  {
    |x| == |b| && forall r | 0 <= r < |b| :: Dot(a[r], x, |b|) == b[r]
  }

  function Zeros(n: nat): (r: Vector)
    ensures |r| == n && forall k | 0 <= k < n :: r[k] == 0.0
  {
    seq(n, _ => 0.0)
  }

  /** A direction no equation notices. */
  ghost predicate Kernel(a: Matrix, n: nat, d: Vector)
    requires Square(a, n)
  {
    Solves(a, Zeros(n), d) && exists k :: 0 <= k < n && d[k] != 0.0
  }

  // ---- One column ----

  /** The row from `col` on with the entry furthest from zero; the last such. */
  function PivotFrom(a: Matrix, col: nat, n: nat, best: nat, r: nat): (piv: nat)
    requires Square(a, n) && col <= best < r <= n && col < n
    ensures col <= piv < n && Abs(a[best][col]) <= Abs(a[piv][col])
    ensures forall s | r <= s < n :: Abs(a[s][col]) <= Abs(a[piv][col])
    decreases n - r
  {
    if r == n then best
    else PivotFrom(a, col, n, if Abs(a[best][col]) <= Abs(a[r][col]) then r else best, r + 1)
  }

  function Swapped<T>(s: seq<T>, i: nat, j: nat): (r: seq<T>)
    requires i < |s| && j < |s|
    ensures |r| == |s|
  {
    s[i := s[j]][j := s[i]]
  }

  /** `f` times `y` less than `x`. */
  function Less(x: real, f: real, y: real): real {
    x - f * y
  }

  /** `row` minus `f` times `pivot`, from entry `from` on. */
  function RowMinus(row: Vector, pivot: Vector, f: real, from: nat): (r: Vector)
    requires |row| == |pivot|
    ensures |r| == |row|
    ensures forall k | 0 <= k < |row| :: r[k] == if k < from then row[k] else Less(row[k], f, pivot[k])
  {
    seq(|row|, k requires 0 <= k < |row| => if k < from then row[k] else Less(row[k], f, pivot[k]))
  }

  /** How many times the pivot row goes into row `r`. */
  function Factor(a: Matrix, n: nat, col: nat, r: nat): real
    requires Square(a, n) && col < n && r < n && a[col][col] != 0.0
  {
    a[r][col] / a[col][col]
  }

  /** Column `col` cleared from the rows before `upto`, but its own. */
  function Cleared(a: Matrix, col: nat, n: nat, upto: nat): (r: Matrix)
    requires Square(a, n) && col < n && upto <= n && a[col][col] != 0.0
    ensures Square(r, n) && r[col] == a[col]
    ensures forall s | 0 <= s < n ::
      r[s] == if s < upto && s != col then RowMinus(a[s], a[col], Factor(a, n, col, s), col) else a[s]
  {
    seq(n, s requires 0 <= s < n =>
      if s < upto && s != col then RowMinus(a[s], a[col], Factor(a, n, col, s), col) else a[s])
  }

  function ClearedSide(a: Matrix, b: Vector, col: nat, upto: nat): (r: Vector)
    requires Square(a, |b|) && col < |b| && upto <= |b| && a[col][col] != 0.0
    ensures |r| == |b| && r[col] == b[col]
    ensures forall s | 0 <= s < |b| ::
      r[s] == if s < upto && s != col then Less(b[s], Factor(a, |b|, col, s), b[col]) else b[s]
  {
    seq(|b|, s requires 0 <= s < |b| =>
      if s < upto && s != col then Less(b[s], Factor(a, |b|, col, s), b[col]) else b[s])
  }

  predicate Reduced(a: Matrix, n: nat, col: nat)
    requires Square(a, n) && col <= n
  {
    forall c | 0 <= c < col :: a[c][c] != 0.0 && forall r | 0 <= r < n && r != c :: a[r][c] == 0.0
  }

  function Diagonal(a: Matrix, b: Vector): (x: Vector)
    requires Square(a, |b|) && Reduced(a, |b|, |b|)
    ensures |x| == |b| && forall i | 0 <= i < |b| :: x[i] == b[i] / a[i][i]
  {
    seq(|b|, i requires 0 <= i < |b| => b[i] / a[i][i])
  }

  lemma ReducesOneMore(a: Matrix, n: nat, col: nat, piv: nat)
    requires Square(a, n) && col <= piv < n && Reduced(a, n, col) && a[piv][col] != 0.0
    ensures var s := Swapped(a, col, piv);
            Square(s, n) && s[col][col] != 0.0 && Reduced(Cleared(s, col, n, n), n, col + 1)
  {
    var s := Swapped(a, col, piv);
    var t := Cleared(s, col, n, n);
    forall c | 0 <= c < col + 1
      ensures t[c][c] != 0.0 && forall r | 0 <= r < n && r != c :: t[r][c] == 0.0
    {
      if c < col {
        assert s[col][c] == 0.0;
      }
    }
  }

  /** The elimination from column `col` on. */
  function SolveFrom(a: Matrix, b: Vector, col: nat): (x: Option<Vector>)
    requires Square(a, |b|) && col <= |b| && Reduced(a, |b|, col)
    ensures x.Some? ==> |x.value| == |b|
    decreases |b| - col
  {
    if col == |b| then Some(Diagonal(a, b))
    else
      var piv := PivotFrom(a, col, |b|, col, col + 1);
      var (a', b') := (Swapped(a, col, piv), Swapped(b, col, piv));
      if a'[col][col] == 0.0 then None
      else
        ReducesOneMore(a, |b|, col, piv);
        SolveFrom(Cleared(a', col, |b|, |b|), ClearedSide(a', b', col, |b|), col + 1)
  }

  method PivotRow(a: Matrix, col: nat, n: nat) returns (piv: nat)
    requires Square(a, n) && col < n
    ensures piv == PivotFrom(a, col, n, col, col + 1)
  {
    piv := col;
    var r := col + 1;
    while r < n
      invariant col <= piv < r <= n
      invariant PivotFrom(a, col, n, col, col + 1) == PivotFrom(a, col, n, piv, r)
    {
      if Abs(a[piv][col]) <= Abs(a[r][col]) {
        piv := r;
      }
      r := r + 1;
    }
  }

  method SubtractRow(row: Vector, pivot: Vector, f: real, from: nat) returns (r: Vector)
    requires |row| == |pivot| && from <= |row|
    ensures r == RowMinus(row, pivot, f, from)
  {
    r := row;
    var c := from;
    while c < |row|
      invariant from <= c <= |row| == |r|
      invariant forall k | 0 <= k < |row| :: r[k] == if from <= k < c then Less(row[k], f, pivot[k]) else row[k]
    {
      r := r[c := r[c] - f * pivot[c]];
      c := c + 1;
    }
  }

  method ClearColumn(a0: Matrix, b0: Vector, col: nat) returns (a: Matrix, b: Vector)
    requires Square(a0, |b0|) && col < |b0| && a0[col][col] != 0.0
    ensures a == Cleared(a0, col, |b0|, |b0|) && b == ClearedSide(a0, b0, col, |b0|)
  {
    a, b := a0, b0;
    var n, r := |b0|, 0;
    while r < n
      invariant 0 <= r <= n
      invariant a == Cleared(a0, col, n, r) && b == ClearedSide(a0, b0, col, r)
    {
      assert a[r] == a0[r] && b[r] == b0[r] && a[col] == a0[col];
      if r != col {
        var f := a[r][col] / a[col][col];
        assert f == Factor(a0, n, col, r);
        var row := SubtractRow(a[r], a[col], f, col);
        var side := b[r] - f * b[col];
        assert side == Less(b[r], f, b[col]) == ClearedSide(a0, b0, col, r + 1)[r];
        a, b := a[r := row], b[r := side];
      }
      r := r + 1;
      assert a == Cleared(a0, col, n, r);
      assert b == ClearedSide(a0, b0, col, r);
    }
  }

  method Solve(a0: Matrix, b0: Vector) returns (x: Option<Vector>)
    requires Square(a0, |b0|)
    ensures x == SolveFrom(a0, b0, 0)
  {
    hide Cleared, ClearedSide, PivotFrom;
    var n, a, b := |b0|, a0, b0;
    var col := 0;
    while col < n
      invariant 0 <= col <= n == |b| && Square(a, n) && Reduced(a, n, col)
      invariant SolveFrom(a0, b0, 0) == SolveFrom(a, b, col)
    {
      var piv := PivotRow(a, col, n);
      ghost var before := a;
      a, b := a[col := a[piv]][piv := a[col]], b[col := b[piv]][piv := b[col]];
      if a[col][col] == 0.0 {
        return None;
      }
      ReducesOneMore(before, n, col, piv);
      a, b := ClearColumn(a, b, col);
      col := col + 1;
    }
    x := Some(Diagonal(a, b));
  }

  // ---- What elimination keeps ----

  lemma {:induction false} DotMinus(row: Vector, pivot: Vector, f: real, from: nat, x: Vector, k: nat)
    requires |row| == |pivot| == |x| && k <= |row|
    requires forall c | 0 <= c < from && c < |row| :: pivot[c] == 0.0
    ensures Dot(RowMinus(row, pivot, f, from), x, k) == Dot(row, x, k) - f * Dot(pivot, x, k)
  {
    if k > 0 {
      DotMinus(row, pivot, f, from, x, k - 1);
      var i := k - 1;
      assert RowMinus(row, pivot, f, from)[i] == row[i] - f * pivot[i] by {
        if i < from {
          assert pivot[i] == 0.0 && f * 0.0 == 0.0;
        }
      }
      assert (row[i] - f * pivot[i]) * x[i] == row[i] * x[i] - f * (pivot[i] * x[i]);
      assert f * (Dot(pivot, x, i) + pivot[i] * x[i]) == f * Dot(pivot, x, i) + f * (pivot[i] * x[i]);
    }
  }

  lemma SwapKeeps(a: Matrix, b: Vector, i: nat, j: nat, x: Vector)
    requires Square(a, |b|) && i < |b| && j < |b|
    ensures Solves(a, b, x) <==> Solves(Swapped(a, i, j), Swapped(b, i, j), x)
  {
    var a', b' := Swapped(a, i, j), Swapped(b, i, j);
    if Solves(a', b', x) {
      forall r | 0 <= r < |b|
        ensures Dot(a[r], x, |b|) == b[r]
      {
        var r' := if r == i then j else if r == j then i else r;
        assert a'[r'] == a[r] && b'[r'] == b[r];
      }
    }
  }

  lemma ReducedAt(a: Matrix, n: nat, col: nat, c: nat, r: nat)
    requires Square(a, n) && col <= n && Reduced(a, n, col) && c < col && r < n && r != c
    ensures a[r][c] == 0.0
  {
    assert a[c][c] != 0.0;
  }

  /** Taking a multiple of a satisfied equation from another keeps its solutions. */
  lemma EquationKept(row: Vector, pivot: Vector, f: real, from: nat, x: Vector, side: real, pivotSide: real)
    requires |row| == |pivot| == |x| && Dot(pivot, x, |x|) == pivotSide
    requires forall c | 0 <= c < from && c < |row| :: pivot[c] == 0.0
    ensures Dot(RowMinus(row, pivot, f, from), x, |x|) == Less(side, f, pivotSide) <==> Dot(row, x, |x|) == side
  {
    hide Dot, RowMinus;
    DotMinus(row, pivot, f, from, x, |x|);
    Difference(Dot(row, x, |x|), side, f * pivotSide);
  }

  lemma Difference(x: real, y: real, m: real)
    ensures x - m == y - m <==> x == y
  {}

  lemma ClearedRow(a: Matrix, b: Vector, col: nat, x: Vector, r: nat)
    requires Square(a, |b|) && |x| == |b| && r < |b| && col < |b| && Reduced(a, |b|, col) && a[col][col] != 0.0
    requires Dot(a[col], x, |b|) == b[col]
    ensures Dot(Cleared(a, col, |b|, |b|)[r], x, |b|) == ClearedSide(a, b, col, |b|)[r] <==> Dot(a[r], x, |b|) == b[r]
  {
    hide Dot, RowMinus, Reduced, Cleared, ClearedSide, Factor, Less;
    if r != col {
      var f := Factor(a, |b|, col, r);
      assert Cleared(a, col, |b|, |b|)[r] == RowMinus(a[r], a[col], f, col);
      assert ClearedSide(a, b, col, |b|)[r] == Less(b[r], f, b[col]);
      forall c | 0 <= c < col
        ensures a[col][c] == 0.0
      {
        ReducedAt(a, |b|, col, c, col);
      }
      EquationKept(a[r], a[col], f, col, x, b[r], b[col]);
    }
  }

  lemma ClearKeeps(a: Matrix, b: Vector, col: nat, x: Vector)
    requires Square(a, |b|) && col < |b| && Reduced(a, |b|, col) && a[col][col] != 0.0
    ensures Solves(a, b, x) <==> Solves(Cleared(a, col, |b|, |b|), ClearedSide(a, b, col, |b|), x)
  {
    hide Cleared, ClearedSide, Reduced, Dot;
    var n := |b|;
    var a', b' := Cleared(a, col, n, n), ClearedSide(a, b, col, n);
    assert a'[col] == a[col] && b'[col] == b[col];
    if |x| == n && Dot(a[col], x, n) == b[col] {
      forall r | 0 <= r < n
        ensures Dot(a'[r], x, n) == b'[r] <==> Dot(a[r], x, n) == b[r]
      {
        ClearedRow(a, b, col, x, r);
      }
      if Solves(a', b', x) {
        forall r | 0 <= r < n
          ensures Dot(a[r], x, n) == b[r]
        {
          assert Dot(a'[r], x, n) == b'[r];
        }
      }
    }
  }

  /** With a single entry that can count, a row is that entry times the unknown. */
  lemma {:induction false} DotSingle(row: Vector, x: Vector, i: nat, k: nat)
    requires |row| == |x| && k <= |row| && i < |row|
    requires forall c | 0 <= c < |row| && c != i :: row[c] == 0.0
    ensures Dot(row, x, k) == if i < k then row[i] * x[i] else 0.0
  {
    if k > 0 {
      DotSingle(row, x, i, k - 1);
    }
  }

  lemma {:induction false} DotPair(row: Vector, x: Vector, i: nat, j: nat, k: nat)
    requires |row| == |x| && k <= |row| && i < j < |row|
    requires forall c | 0 <= c < |row| && c != i && c != j :: row[c] == 0.0 || x[c] == 0.0
    ensures Dot(row, x, k) == (if i < k then row[i] * x[i] else 0.0) + if j < k then row[j] * x[j] else 0.0
  {
    if k > 0 {
      DotPair(row, x, i, j, k - 1);
    }
  }

  lemma {:induction false} DotNone(row: Vector, x: Vector, k: nat)
    requires |row| == |x| && k <= |row|
    requires forall c | 0 <= c < |row| :: row[c] == 0.0 || x[c] == 0.0
    ensures Dot(row, x, k) == 0.0
  {
    if k > 0 {
      DotNone(row, x, k - 1);
    }
  }

  /** Once diagonal, the system has the one solution. */
  lemma DiagonalSolves(a: Matrix, b: Vector, x: Vector)
    requires Square(a, |b|) && Reduced(a, |b|, |b|)
    ensures Solves(a, b, x) <==> x == Diagonal(a, b)
  {
    var n := |b|;
    if |x| == n {
      forall r | 0 <= r < n
        ensures Dot(a[r], x, n) == a[r][r] * x[r]
        ensures Dot(a[r], x, n) == b[r] <==> x[r] == b[r] / a[r][r]
      {
        forall c | 0 <= c < n && c != r
          ensures a[r][c] == 0.0
        {
          assert a[c][c] != 0.0;
        }
        DotSingle(a[r], x, r, n);
        Quotient(a[r][r], x[r], b[r]);
      }
    }
  }

  lemma Quotient(a: real, x: real, b: real)
    requires a != 0.0
    ensures a * x == b <==> x == b / a
  {
    if x == b / a {
      assert a * (b / a) == b;
    }
    if a * x == b {
      assert x == (a * x) / a;
    }
  }

  /** Without a pivot in column `col`, a direction along it no equation notices. */
  function Escape(a: Matrix, n: nat, col: nat): (d: Vector)
    requires Square(a, n) && col < n && Reduced(a, n, col)
    ensures |d| == n
    ensures forall k | 0 <= k < n ::
      d[k] == if k < col then -a[k][col] / a[k][k] else if k == col then 1.0 else 0.0
  {
    seq(n, k requires 0 <= k < n => if k < col then -a[k][col] / a[k][k] else if k == col then 1.0 else 0.0)
  }

  lemma EscapeIsKernel(a: Matrix, n: nat, col: nat)
    requires Square(a, n) && col < n && Reduced(a, n, col)
    requires forall r | col <= r < n :: a[r][col] == 0.0
    ensures Kernel(a, n, Escape(a, n, col))
  {
    var d := Escape(a, n, col);
    forall r | 0 <= r < n
      ensures Dot(a[r], d, n) == 0.0
    {
      forall c | 0 <= c < n && c < col && c != r
        ensures a[r][c] == 0.0
      {
        assert a[c][c] != 0.0;
      }
      if r < col {
        assert a[r][r] != 0.0;
        DotPair(a[r], d, r, col, n);
        Quotient(a[r][r], d[r], -a[r][col]);
      } else {
        DotNone(a[r], d, n);
      }
    }
    assert d[col] == 1.0;
  }

  /** Elimination answers the one solution when it answers, and when it does not the
      system has none or many. */
  lemma {:induction false} SolveFromIsExact(a: Matrix, b: Vector, col: nat)
    requires Square(a, |b|) && col <= |b| && Reduced(a, |b|, col)
    ensures var x := SolveFrom(a, b, col);
            && (x.Some? ==> forall y :: Solves(a, b, y) <==> y == x.value)
            && (x.None? ==> exists d :: Kernel(a, |b|, d))
    decreases |b| - col
  {
    var n := |b|;
    if col == n {
      forall y {
        DiagonalSolves(a, b, y);
      }
    } else {
      var piv := PivotFrom(a, col, n, col, col + 1);
      var a', b' := Swapped(a, col, piv), Swapped(b, col, piv);
      if a'[col][col] == 0.0 {
        EscapeIsKernel(a, n, col);
      } else {
        ReducesOneMore(a, n, col, piv);
        var a'', b'' := Cleared(a', col, n, n), ClearedSide(a', b', col, n);
        SolveFromIsExact(a'', b'', col + 1);
        if SolveFrom(a, b, col).Some? {
          forall y
            ensures Solves(a, b, y) <==> Solves(a'', b'', y)
          {
            SwapKeeps(a, b, col, piv, y);
            SwappedReduced(a, n, col, piv);
            ClearKeeps(a', b', col, y);
          }
        } else {
          var d :| Kernel(a'', n, d);
          KernelKept(a, n, col, piv, d);
        }
      }
    }
  }

  lemma SwappedReduced(a: Matrix, n: nat, col: nat, piv: nat)
    requires Square(a, n) && col <= piv < n && Reduced(a, n, col)
    ensures Square(Swapped(a, col, piv), n) && Reduced(Swapped(a, col, piv), n, col)
  {
    var s := Swapped(a, col, piv);
    forall c | 0 <= c < col
      ensures s[c][c] != 0.0 && forall r | 0 <= r < n && r != c :: s[r][c] == 0.0
    {
      assert a[c][c] != 0.0 && s[c] == a[c];
      forall r | 0 <= r < n && r != c
        ensures s[r][c] == 0.0
      {
        var was := if r == col then piv else if r == piv then col else r;
        assert s[r] == a[was] && a[was][c] == 0.0;
      }
    }
  }

  lemma KernelKept(a: Matrix, n: nat, col: nat, piv: nat, d: Vector)
    requires Square(a, n) && col <= piv < n && Reduced(a, n, col) && a[piv][col] != 0.0
    requires Kernel(Cleared(Swapped(a, col, piv), col, n, n), n, d)
    ensures Kernel(a, n, d)
  {
    var zeros := Zeros(n);
    var a' := Swapped(a, col, piv);
    SwappedReduced(a, n, col, piv);
    assert Swapped(zeros, col, piv) == zeros;
    assert ClearedSide(a', zeros, col, n) == zeros;
    SwapKeeps(a, zeros, col, piv, d);
    ClearKeeps(a', zeros, col, d);
  }

  /** Two solutions differ by a direction no equation notices. */
  lemma KernelNotUnique(a: Matrix, b: Vector, d: Vector, x: Vector)
    requires Square(a, |b|) && Kernel(a, |b|, d) && Solves(a, b, x)
    ensures exists y :: y != x && Solves(a, b, y)
  {
    var n := |b|;
    var y := seq(n, k requires 0 <= k < n && |x| == n && |d| == n => x[k] + d[k]);
    forall r | 0 <= r < n
      ensures Dot(a[r], y, n) == b[r]
    {
      DotSum(a[r], x, d, y, n);
      assert Dot(a[r], d, n) == Zeros(n)[r];
    }
    var k :| 0 <= k < n && d[k] != 0.0;
    assert y[k] != x[k];
    assert Solves(a, b, y);
  }

  lemma {:induction false} DotSum(row: Vector, x: Vector, d: Vector, y: Vector, k: nat)
    requires |row| == |x| == |d| == |y| && k <= |row| && forall c | 0 <= c < |row| :: y[c] == x[c] + d[c]
    ensures Dot(row, y, k) == Dot(row, x, k) + Dot(row, d, k)
  {
    if k > 0 {
      DotSum(row, x, d, y, k - 1);
      assert row[k - 1] * (x[k - 1] + d[k - 1]) == row[k - 1] * x[k - 1] + row[k - 1] * d[k - 1];
    }
  }

  /** `solve` answers exactly when the system has exactly one solution, and answers
      that one. */
  lemma SolveIsExact(a: Matrix, b: Vector)
    requires Square(a, |b|)
    ensures var x := SolveFrom(a, b, 0);
            && (x.Some? <==> (exists y :: Solves(a, b, y) && forall z :: Solves(a, b, z) ==> z == y))
            && (x.Some? ==> Solves(a, b, x.value))
            && (x.None? ==> exists d :: Kernel(a, |b|, d))
  {
    SolveFromIsExact(a, b, 0);
    var x := SolveFrom(a, b, 0);
    if x.None? {
      var d :| Kernel(a, |b|, d);
      forall y | Solves(a, b, y)
        ensures exists z :: z != y && Solves(a, b, z)
      {
        KernelNotUnique(a, b, d, y);
      }
    } else {
      assert Solves(a, b, x.value);
    }
  }
}
