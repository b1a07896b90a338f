/** Non-negative least squares on three features: the residual of every face of the
    orthant, and why the best feasible one is the best of all. */
module LeastSquares {
  import opened Outcomes
  import opened LinearSystems

  type Triple = v: seq<real> | |v| == 3 witness [0.0, 0.0, 0.0]

  /** One measure: its features, its time, its weight. */
  datatype Row = Row(x: Triple, y: real, w: real)

  function Inner(u: Triple, v: Triple): real {
    u[0] * v[0] + u[1] * v[1] + u[2] * v[2]
  }

  /** One measure's weighted squared error. */
  function Miss(w: real, predicted: real, y: real): real {
    w * (predicted - y) * (predicted - y)
  }

  /** The weighted sum of squared errors of `c`. */
  function Residual(rows: seq<Row>, c: Triple): real {
    if rows == [] then 0.0
    else
      var r := rows[|rows| - 1];
      Residual(rows[..|rows| - 1], c) + Miss(r.w, Inner(r.x, c), r.y)
  }

  // ---- What the fit accumulates ----

  /** The accumulated `g` and one measure's share. */
  function Plus(g: real, w: real, x: real, z: real): real {
    g + w * x * z
  }

  function Gram(rows: seq<Row>, i: nat, j: nat): real
    requires i < 3 && j < 3
  {
    if rows == [] then 0.0
    else var r := rows[|rows| - 1]; Plus(Gram(rows[..|rows| - 1], i, j), r.w, r.x[i], r.x[j])
  }

  function Moment(rows: seq<Row>, i: nat): real
    requires i < 3
  {
    if rows == [] then 0.0
    else var r := rows[|rows| - 1]; Plus(Moment(rows[..|rows| - 1], i), r.w, r.x[i], r.y)
  }

  predicate Normal(a: Matrix, b: Vector) {
    Square(a, 3) && |b| == 3
  }

  function GramMatrix(rows: seq<Row>): (a: Matrix)
    ensures Square(a, 3) && forall i, j | 0 <= i < 3 && 0 <= j < 3 :: a[i][j] == Gram(rows, i, j)
  {
    [[Gram(rows, 0, 0), Gram(rows, 0, 1), Gram(rows, 0, 2)],
     [Gram(rows, 1, 0), Gram(rows, 1, 1), Gram(rows, 1, 2)],
     [Gram(rows, 2, 0), Gram(rows, 2, 1), Gram(rows, 2, 2)]]
  }

  function Moments(rows: seq<Row>): (b: Vector)
    ensures |b| == 3 && forall i | 0 <= i < 3 :: b[i] == Moment(rows, i)
  {
    [Moment(rows, 0), Moment(rows, 1), Moment(rows, 2)]
  }

  // ---- One face ----

  predicate Features(idx: seq<nat>) {
    forall k | 0 <= k < |idx| :: idx[k] < 3
  }

  /** The features of a mask, `1 << i` standing for feature `i`. */
  function Members(mask: nat): (idx: seq<nat>)
    ensures Features(idx)
  {
    (if mask % 2 == 1 then [0] else []) + (if mask / 2 % 2 == 1 then [1] else [])
    + if mask / 4 % 2 == 1 then [2] else []
  }

  function Sub(a: Matrix, idx: seq<nat>): (r: Matrix)
    requires Square(a, 3) && Features(idx)
    ensures Square(r, |idx|)
  {
    seq(|idx|, k requires 0 <= k < |idx| => SubRow(a[idx[k]], idx))
  }

  function SubRow(row: Vector, idx: seq<nat>): (r: Vector)
    requires |row| == 3 && Features(idx)
    ensures |r| == |idx| && forall k | 0 <= k < |idx| :: r[k] == row[idx[k]]
  {
    seq(|idx|, k requires 0 <= k < |idx| => row[idx[k]])
  }

  /** The coefficients with the face's own in place and zero elsewhere. */
  function Scattered(idx: seq<nat>, sol: Vector, k: nat): Triple
    requires k <= |idx| == |sol| && Features(idx)
  {
    if k == 0 then [0.0, 0.0, 0.0] else Scattered(idx, sol, k - 1)[idx[k - 1] := sol[k - 1]]
  }

  predicate SomeNegative(v: Vector) {
    exists k :: 0 <= k < |v| && v[k] < 0.0
  }

  /** What the fit takes from the face of `mask`: its stationary point, if it has a
      single one and that is feasible. */
  function Candidate(a: Matrix, b: Vector, mask: nat): Option<Triple>
    requires Normal(a, b)
  {
    var idx := Members(mask);
    match SolveFrom(Sub(a, idx), SubRow(b, idx), 0)
    case None => None
    case Some(sol) => if SomeNegative(sol) then None else Some(Scattered(idx, sol, |idx|))
  }

  function Product(x: real, y: real, z: real): real {
    x * y * z
  }

  function RowEnergy(a: Matrix, c: Triple, i: nat, j: nat): real
    requires Square(a, 3) && i < 3 && j <= 3
  {
    if j == 0 then 0.0 else RowEnergy(a, c, i, j - 1) + Product(c[i], a[i][j - 1], c[j - 1])
  }

  function Energy(a: Matrix, c: Triple, i: nat): real
    requires Square(a, 3) && i <= 3
  {
    if i == 0 then 0.0 else Energy(a, c, i - 1) + RowEnergy(a, c, i - 1, 3)
  }

  /** The residual up to a constant. */
  function Cost(a: Matrix, b: Vector, c: Triple): real
    requires Normal(a, b)
  {
    -2.0 * Inner(c, b) + Energy(a, c, 3)
  }

  /** The best of the masks before `k`, the first of equals. */
  function BestBefore(a: Matrix, b: Vector, k: nat): Option<Triple>
    requires Normal(a, b)
  {
    if k <= 1 then None
    else
      var best := BestBefore(a, b, k - 1);
      var here := Candidate(a, b, k - 1);
      if here.Some? && (best.None? || Cost(a, b, here.value) < Cost(a, b, best.value)) then here else best
  }

  // ---- The fit as it runs ----

  /** One measure into the sums. */
  method Add(a0: Matrix, b0: Vector, r: Row) returns (a: Matrix, b: Vector)
    requires Normal(a0, b0)
    ensures Normal(a, b)
    ensures forall p, q | 0 <= p < 3 && 0 <= q < 3 :: a[p][q] == Plus(a0[p][q], r.w, r.x[p], r.x[q])
    ensures forall p | 0 <= p < 3 :: b[p] == Plus(b0[p], r.w, r.x[p], r.y)
  {
    a, b := a0, b0;
    var i := 0;
    while i < 3
      invariant 0 <= i <= 3 && Normal(a, b)
      invariant forall p, q | 0 <= p < i && 0 <= q < 3 :: a[p][q] == Plus(a0[p][q], r.w, r.x[p], r.x[q])
      invariant forall p | i <= p < 3 :: a[p] == a0[p]
      invariant forall p | 0 <= p < 3 :: b[p] == if p < i then Plus(b0[p], r.w, r.x[p], r.y) else b0[p]
    {
      var j, row := 0, a[i];
      while j < 3
        invariant 0 <= j <= 3 == |row|
        invariant forall q | 0 <= q < 3 :: row[q] == if q < j then Plus(a0[i][q], r.w, r.x[i], r.x[q]) else a0[i][q]
      {
        row := row[j := row[j] + r.w * r.x[i] * r.x[j]];
        j := j + 1;
      }
      a := a[i := row];
      b := b[i := b[i] + r.w * r.x[i] * r.y];
      i := i + 1;
    }
  }

  method Accumulate(rows: seq<Row>) returns (a: Matrix, b: Vector)
    ensures a == GramMatrix(rows) && b == Moments(rows)
  {
    hide Plus;
    a, b := GramMatrix([]), Moments([]);
    var n := 0;
    while n < |rows|
      invariant 0 <= n <= |rows|
      invariant a == GramMatrix(rows[..n]) && b == Moments(rows[..n])
    {
      assert rows[..n + 1][..n] == rows[..n] && rows[..n + 1][n] == rows[n];
      a, b := Add(a, b, rows[n]);
      n := n + 1;
      SameSums(a, b, rows[..n]);
    }
    assert rows[..n] == rows;
  }

  lemma SameSums(a: Matrix, b: Vector, rows: seq<Row>)
    requires Normal(a, b)
    requires forall p, q | 0 <= p < 3 && 0 <= q < 3 :: a[p][q] == Gram(rows, p, q)
    requires forall p | 0 <= p < 3 :: b[p] == Moment(rows, p)
    ensures a == GramMatrix(rows) && b == Moments(rows)
  {
    forall p | 0 <= p < 3
      ensures a[p] == GramMatrix(rows)[p]
    {
      forall q | 0 <= q < 3
        ensures a[p][q] == GramMatrix(rows)[p][q]
      {}
    }
  }

  method CostOf(a: Matrix, b: Vector, c: Triple) returns (resid: real)
    requires Normal(a, b)
    ensures resid == Cost(a, b, c)
  {
    resid := -2.0 * (c[0] * b[0] + c[1] * b[1] + c[2] * b[2]);
    ghost var start := resid;
    var i := 0;
    while i < 3
      invariant 0 <= i <= 3 && resid == start + Energy(a, c, i)
    {
      var j := 0;
      while j < 3
        invariant 0 <= j <= 3 && resid == start + Energy(a, c, i) + RowEnergy(a, c, i, j)
      {
        resid := resid + c[i] * a[i][j] * c[j];
        j := j + 1;
      }
      i := i + 1;
    }
  }

  method FaceOf(a: Matrix, b: Vector, mask: nat) returns (r: Option<Triple>)
    requires Normal(a, b)
    ensures r == Candidate(a, b, mask)
  {
    var idx := Members(mask);
    var sol := Solve(Sub(a, idx), SubRow(b, idx));
    if sol.None? || SomeNegative(sol.value) {
      return None;
    }
    var c: Triple := [0.0, 0.0, 0.0];
    var k := 0;
    while k < |idx|
      invariant 0 <= k <= |idx| == |sol.value| && c == Scattered(idx, sol.value, k)
    {
      assert idx[k] in idx;
      c := c[idx[k] := sol.value[k]];
      k := k + 1;
    }
    r := Some(c);
  }

  /** `fit_nnls`: no non-negative coefficients have a smaller weighted residual. */
  method FitNnls(rows: seq<Row>) returns (c: Triple)
    ensures Feasible(c) && c == Fitted(rows)
    ensures (forall r | r in rows :: r.w >= 0.0) ==> forall other: Triple | Feasible(other) :: Residual(rows, c) <= Residual(rows, other)
  {
    var a, b := Accumulate(rows);
    var best: Option<Triple> := None;
    var bestCost := 0.0;
    var mask := 1;
    while mask < 8
      invariant 1 <= mask <= 8 && best == BestBefore(a, b, mask)
      invariant best.Some? ==> bestCost == Cost(a, b, best.value)
    {
      var here := FaceOf(a, b, mask);
      if here.Some? {
        var cost := CostOf(a, b, here.value);
        if best.None? || cost < bestCost {
          best, bestCost := here, cost;
        }
      }
      mask := mask + 1;
    }
    BestIsFeasible(a, b, 8);
    c := if best.Some? then best.value else [0.0, 0.0, 0.0];
    if forall r | r in rows :: r.w >= 0.0 {
      forall other: Triple | Feasible(other)
        ensures Residual(rows, c) <= Residual(rows, other)
      {
        FitIsOptimal(rows, other);
      }
    }
  }

  predicate Feasible(c: Triple) {
    c[0] >= 0.0 && c[1] >= 0.0 && c[2] >= 0.0
  }

  /** The fit's answer. */
  function Fitted(rows: seq<Row>): Triple {
    var best := BestBefore(GramMatrix(rows), Moments(rows), 8);
    if best.Some? then best.value else [0.0, 0.0, 0.0]
  }

  lemma {:induction false} ScatteredFeasible(idx: seq<nat>, sol: Vector, k: nat)
    requires k <= |idx| == |sol| && Features(idx) && !SomeNegative(sol)
    ensures Feasible(Scattered(idx, sol, k))
  {
    if k > 0 {
      ScatteredFeasible(idx, sol, k - 1);
    }
  }

  lemma {:induction false} BestIsFeasible(a: Matrix, b: Vector, k: nat)
    requires Normal(a, b)
    ensures BestBefore(a, b, k).Some? ==> Feasible(BestBefore(a, b, k).value)
  {
    hide SolveFrom, Cost;
    if k > 1 {
      BestIsFeasible(a, b, k - 1);
      var idx := Members(k - 1);
      var sol := SolveFrom(Sub(a, idx), SubRow(b, idx), 0);
      if sol.Some? && !SomeNegative(sol.value) {
        ScatteredFeasible(idx, sol.value, |idx|);
      }
    }
  }

  // ---- The residual as a quadratic ----

  /** The weighted products of what two directions predict. */
  function Cross(rows: seq<Row>, u: Triple, v: Triple): real {
    if rows == [] then 0.0
    else var r := rows[|rows| - 1]; Plus(Cross(rows[..|rows| - 1], u, v), r.w, Inner(r.x, u), Inner(r.x, v))
  }

  /** The weighted products of what a direction predicts and the times. */
  function Pull(rows: seq<Row>, u: Triple): real {
    if rows == [] then 0.0
    else var r := rows[|rows| - 1]; Plus(Pull(rows[..|rows| - 1], u), r.w, Inner(r.x, u), r.y)
  }

  function Shift(c: Triple, t: real, v: Triple): Triple {
    [c[0] + t * v[0], c[1] + t * v[1], c[2] + t * v[2]]
  }

  lemma InnerShift(x: Triple, c: Triple, t: real, v: Triple)
    ensures Inner(x, Shift(c, t, v)) == Inner(x, c) + t * Inner(x, v)
  {
    Distribute(x[0], c[0], t, v[0]);
    Distribute(x[1], c[1], t, v[1]);
    Distribute(x[2], c[2], t, v[2]);
    Triple3(t, x[0] * v[0], x[1] * v[1], x[2] * v[2]);
  }

  lemma Distribute(x: real, c: real, t: real, v: real)
    ensures x * (c + t * v) == x * c + t * (x * v)
  {
    assert x * (t * v) == t * (x * v);
  }

  lemma Triple3(t: real, p: real, q: real, r: real)
    ensures t * (p + q + r) == t * p + t * q + t * r
  {}

  lemma RowAlong(w: real, d: real, e: real, y: real, t: real)
    ensures w * (d + t * e - y) * (d + t * e - y)
            == w * (d - y) * (d - y) + 2.0 * t * (w * d * e - w * e * y) + t * t * (w * e * e)
  {
    var g, h := d - y, t * e;
    assert (g + h) * (g + h) == g * g + 2.0 * (g * h) + h * h;
    assert w * (g + h) * (g + h) == w * (g * g) + 2.0 * (w * (g * h)) + w * (h * h);
    assert w * (g * h) == t * (w * d * e - w * e * y);
    assert w * (h * h) == t * t * (w * e * e);
  }

  /** A quadratic in `t`. */
  function Line(still: real, c: real, p: real, g: real, t: real): real {
    still + 2.0 * t * (c - p) + t * t * g
  }

  lemma AlongStep(moved: real, still: real, c: real, p: real, g: real, w: real, d: real, e: real, m: real, y: real,
                  t: real)
    requires moved == Line(still, c, p, g, t) && m == d + t * e
    ensures moved + Miss(w, m, y)
            == Line(still + Miss(w, d, y), Plus(c, w, d, e), Plus(p, w, e, y), Plus(g, w, e, e), t)
  {
    RowAlong(w, d, e, y, t);
  }

  lemma LineAtZero(t: real)
    ensures Line(0.0, 0.0, 0.0, 0.0, t) == 0.0
  {}

  /** The residual along a line. */
  lemma {:induction false} Along(rows: seq<Row>, c: Triple, v: Triple, t: real)
    ensures Residual(rows, Shift(c, t, v))
            == Line(Residual(rows, c), Cross(rows, c, v), Pull(rows, v), Cross(rows, v, v), t)
  {
    hide Inner, Shift, Miss, Plus, Line;
    if rows == [] {
      assert Line(0.0, 0.0, 0.0, 0.0, t) == 0.0 by { LineAtZero(t); }
    } else {
      var r, rest := rows[|rows| - 1], rows[..|rows| - 1];
      Along(rest, c, v, t);
      InnerShift(r.x, c, t, v);
      AlongStep(Residual(rest, Shift(c, t, v)), Residual(rest, c), Cross(rest, c, v), Pull(rest, v), Cross(rest, v, v),
                r.w, Inner(r.x, c), Inner(r.x, v), Inner(r.x, Shift(c, t, v)), r.y, t);
    }
  }

  lemma {:induction false} CrossIsNonNegative(rows: seq<Row>, v: Triple)
    requires forall r | r in rows :: r.w >= 0.0
    ensures Cross(rows, v, v) >= 0.0
  {
    if rows != [] {
      var r := rows[|rows| - 1];
      CrossIsNonNegative(rows[..|rows| - 1], v);
      SquareTimes(r.w, Inner(r.x, v));
    }
  }

  lemma ProductSign(a: real, b: real)
    requires a >= 0.0 && b >= 0.0
    ensures a * b >= 0.0
    ensures a > 0.0 && b > 0.0 ==> a * b > 0.0
  {}

  lemma SquareTimes(w: real, e: real)
    requires w >= 0.0
    ensures w * e * e >= 0.0
    ensures w != 0.0 && e != 0.0 ==> w * e * e > 0.0
  {
    var f := if e < 0.0 then -e else e;
    ProductSign(f, f);
    ProductSign(w, f * f);
    assert w * e * e == w * (f * f);
    if w != 0.0 && e != 0.0 {
      assert f * f > 0.0;
      assert w * (f * f) > 0.0;
    }
  }

  /** A direction predicting nothing on any measure that weighs changes nothing. */
  lemma {:induction false} NothingPredicted(rows: seq<Row>, c: Triple, d: Triple)
    requires forall r | r in rows :: r.w >= 0.0
    requires Cross(rows, d, d) == 0.0
    ensures Cross(rows, c, d) == 0.0 && Pull(rows, d) == 0.0
  {
    if rows != [] {
      var r, rest := rows[|rows| - 1], rows[..|rows| - 1];
      CrossIsNonNegative(rest, d);
      SquareTimes(r.w, Inner(r.x, d));
      NothingPredicted(rest, c, d);
    }
  }

  /** What `s` predicts of each normal equation. */
  function Predicted(a: Matrix, s: Triple): (p: Triple)
    requires Square(a, 3)
    ensures forall i | 0 <= i < 3 :: p[i] == Inner(a[i], s)
  {
    [Inner(a[0], s), Inner(a[1], s), Inner(a[2], s)]
  }

  lemma InnerGrows(w: real, d: real, p: Triple, q: Triple, v: Triple, x: Triple)
    requires forall i | 0 <= i < 3 :: q[i] == p[i] + w * x[i] * d
    ensures Inner(v, q) == Inner(v, p) + w * d * Inner(x, v)
  {
    Weighs(v[0], p[0], w, x[0], d);
    Weighs(v[1], p[1], w, x[1], d);
    Weighs(v[2], p[2], w, x[2], d);
    Gathers(w, d, x[0] * v[0], x[1] * v[1], x[2] * v[2]);
  }

  lemma InnerOrigin(v: Triple)
    ensures Inner(v, ORIGIN) == 0.0 == Inner(ORIGIN, v)
  {}

  /** The sums of the normal equations. */
  lemma {:induction false} CrossOfRows(rows: seq<Row>, s: Triple, v: Triple)
    ensures Cross(rows, s, v) == Inner(v, Predicted(GramMatrix(rows), s))
  {
    hide Inner, Gram;
    if rows == [] {
      NoSums(s);
      InnerOrigin(v);
    } else {
      var r, rest := rows[|rows| - 1], rows[..|rows| - 1];
      CrossOfRows(rest, s, v);
      GramGrows(rows, s, 0);
      GramGrows(rows, s, 1);
      GramGrows(rows, s, 2);
      InnerGrows(r.w, Inner(r.x, s), Predicted(GramMatrix(rest), s), Predicted(GramMatrix(rows), s), v, r.x);
    }
  }

  lemma NoSums(s: Triple)
    ensures Predicted(GramMatrix([]), s) == ORIGIN
  {
    var a := GramMatrix([]);
    assert a == [[0.0, 0.0, 0.0], [0.0, 0.0, 0.0], [0.0, 0.0, 0.0]];
  }

  lemma GramGrows(rows: seq<Row>, s: Triple, i: nat)
    requires rows != [] && i < 3
    ensures var r, rest := rows[|rows| - 1], rows[..|rows| - 1];
            Inner(GramMatrix(rows)[i], s) == Inner(GramMatrix(rest)[i], s) + r.w * r.x[i] * Inner(r.x, s)
  {
    hide Inner, GramMatrix;
    var r, rest := rows[|rows| - 1], rows[..|rows| - 1];
    RowGrows(GramMatrix(rows)[i], GramMatrix(rest)[i], r.w * r.x[i], r.x, s);
  }

  lemma RowGrows(row: Vector, row': Vector, f: real, x: Triple, s: Triple)
    requires |row| == |row'| == 3 && forall j | 0 <= j < 3 :: row[j] == row'[j] + f * x[j]
    ensures Inner(row, s) == Inner(row', s) + f * Inner(x, s)
  {
    One(row'[0], f, x[0], s[0]);
    One(row'[1], f, x[1], s[1]);
    One(row'[2], f, x[2], s[2]);
    Triple3(f, x[0] * s[0], x[1] * s[1], x[2] * s[2]);
  }

  lemma One(p: real, f: real, x: real, s: real)
    ensures (p + f * x) * s == p * s + f * (x * s)
  {
    assert (f * x) * s == f * (x * s);
  }

  lemma Weighs(v: real, p: real, w: real, x: real, d: real)
    ensures v * (p + w * x * d) == v * p + w * d * (x * v)
  {
    assert v * (w * x * d) == w * d * (x * v);
  }

  lemma Gathers(w: real, d: real, p: real, q: real, r: real)
    ensures w * d * p + w * d * q + w * d * r == w * d * (p + q + r)
  {}

  lemma {:induction false} PullOfMoments(rows: seq<Row>, v: Triple)
    ensures Pull(rows, v) == Inner(v, Moments(rows))
  {
    hide Inner;
    if rows == [] {
      assert Moments(rows) == ORIGIN;
      InnerOrigin(v);
    } else {
      var r, rest := rows[|rows| - 1], rows[..|rows| - 1];
      PullOfMoments(rest, v);
      InnerGrows(r.w, r.y, Moments(rest), Moments(rows), v, r.x);
    }
  }

  const ORIGIN: Triple := [0.0, 0.0, 0.0]

  lemma {:induction false} CrossOrigin(rows: seq<Row>, v: Triple)
    ensures Cross(rows, ORIGIN, v) == 0.0
  {
    if rows != [] {
      CrossOrigin(rows[..|rows| - 1], v);
      assert Inner(rows[|rows| - 1].x, ORIGIN) == 0.0;
    }
  }

  lemma EnergyIsCross(rows: seq<Row>, c: Triple)
    ensures Energy(GramMatrix(rows), c, 3) == Cross(rows, c, c)
  {
    hide Cross, Gram, GramMatrix, Inner, RowEnergy, Energy;
    var a := GramMatrix(rows);
    CrossOfRows(rows, c, c);
    RowEnergyIs(a, c, 0);
    RowEnergyIs(a, c, 1);
    RowEnergyIs(a, c, 2);
    EnergyIs(a, c, Predicted(a, c));
  }

  lemma EnergyIs(a: Matrix, c: Triple, p: Triple)
    requires Square(a, 3) && forall i | 0 <= i < 3 :: RowEnergy(a, c, i, 3) == c[i] * p[i]
    ensures Energy(a, c, 3) == Inner(c, p)
  {
    hide RowEnergy;
    assert Energy(a, c, 3) == Energy(a, c, 2) + RowEnergy(a, c, 2, 3);
    assert Energy(a, c, 2) == Energy(a, c, 1) + RowEnergy(a, c, 1, 3);
  }

  lemma Products(f: real, row: Vector, c: Triple)
    requires |row| == 3
    ensures Product(f, row[0], c[0]) + Product(f, row[1], c[1]) + Product(f, row[2], c[2]) == f * Inner(row, c)
  {
    assert Product(f, row[0], c[0]) == f * (row[0] * c[0]);
    assert Product(f, row[1], c[1]) == f * (row[1] * c[1]);
    assert Product(f, row[2], c[2]) == f * (row[2] * c[2]);
    Triple3(f, row[0] * c[0], row[1] * c[1], row[2] * c[2]);
  }

  lemma RowEnergyIs(a: Matrix, c: Triple, i: nat)
    requires Square(a, 3) && i < 3
    ensures RowEnergy(a, c, i, 3) == c[i] * Inner(a[i], c)
  {
    hide Product, Inner;
    assert RowEnergy(a, c, i, 1) == RowEnergy(a, c, i, 0) + Product(c[i], a[i][0], c[0]);
    assert RowEnergy(a, c, i, 2) == RowEnergy(a, c, i, 1) + Product(c[i], a[i][1], c[1]);
    assert RowEnergy(a, c, i, 3) == RowEnergy(a, c, i, 2) + Product(c[i], a[i][2], c[2]);
    Products(c[i], a[i], c);
  }

  /** What the fit compares is the residual less that of no coefficients at all. */
  lemma CostIsResidual(rows: seq<Row>, c: Triple)
    ensures Cost(GramMatrix(rows), Moments(rows), c) == Residual(rows, c) - Residual(rows, ORIGIN)
  {
    hide Residual, Cross, Pull, Energy, Inner;
    assert Shift(ORIGIN, 1.0, c) == c;
    Along(rows, ORIGIN, c, 1.0);
    CrossOrigin(rows, c);
    PullOfMoments(rows, c);
    EnergyIsCross(rows, c);
  }

  // ---- Stationary points ----

  predicate On(mask: nat, c: Triple) {
    forall i | 0 <= i < 3 && i !in Members(mask) :: c[i] == 0.0
  }

  /** `s` is on the face and meets its normal equations. */
  predicate Stationary(a: Matrix, b: Vector, mask: nat, s: Triple)
    requires Normal(a, b)
  {
    On(mask, s) && forall i | i in Members(mask) :: Inner(a[i], s) == b[i]
  }

  lemma SameInner(u: Triple, p: Triple, q: Triple)
    requires forall i | 0 <= i < 3 :: u[i] == 0.0 || p[i] == q[i]
    ensures Inner(u, p) == Inner(u, q)
  {}

  lemma StationaryIsOrthogonal(rows: seq<Row>, mask: nat, s: Triple, u: Triple)
    requires Stationary(GramMatrix(rows), Moments(rows), mask, s) && On(mask, u)
    ensures Cross(rows, s, u) == Pull(rows, u)
  {
    hide Cross, Pull, Gram, Moment, Inner, Members;
    CrossOfRows(rows, s, u);
    PullOfMoments(rows, u);
    SameInner(u, Predicted(GramMatrix(rows), s), Moments(rows));
  }

  /** On its face, moving toward a stationary point only lowers the residual. */
  lemma TowardStationary(rows: seq<Row>, mask: nat, s: Triple, c: Triple, t: real)
    requires forall r | r in rows :: r.w >= 0.0
    requires Stationary(GramMatrix(rows), Moments(rows), mask, s) && On(mask, c) && 0.0 <= t <= 1.0
    ensures Residual(rows, Shift(c, t, Shift(s, -1.0, c))) <= Residual(rows, c)
  {
    hide Residual, Cross, Pull, Stationary, Gram, Moment, Line;
    var u := Shift(c, -1.0, s);
    assert On(mask, s) by { StationaryOn(GramMatrix(rows), Moments(rows), mask, s); }
    OnShift(mask, c, s);
    StationaryIsOrthogonal(rows, mask, s, u);
    Along(rows, s, u, 1.0);
    assert Shift(s, 1.0, u) == c;
    Along(rows, s, u, 1.0 - t);
    ShiftBack(s, c, t);
    CrossIsNonNegative(rows, u);
    Shrinks(t, Cross(rows, u, u));
    Lowers(Residual(rows, s), Cross(rows, s, u), Pull(rows, u), Cross(rows, u, u), t);
  }

  lemma Lowers(still: real, c: real, p: real, g: real, t: real)
    requires c == p && (1.0 - t) * (1.0 - t) * g <= g
    ensures Line(still, c, p, g, 1.0 - t) <= Line(still, c, p, g, 1.0)
  {
    assert c - p == 0.0;
  }

  lemma StationaryOn(a: Matrix, b: Vector, mask: nat, s: Triple)
    requires Normal(a, b) && Stationary(a, b, mask, s)
    ensures On(mask, s)
  {}

  lemma OnShift(mask: nat, c: Triple, s: Triple)
    requires On(mask, c) && On(mask, s)
    ensures On(mask, Shift(c, -1.0, s))
  {}

  lemma ShiftBack(s: Triple, c: Triple, t: real)
    ensures Shift(s, 1.0 - t, Shift(c, -1.0, s)) == Shift(c, t, Shift(s, -1.0, c))
  {
    Between(s[0], c[0], t);
    Between(s[1], c[1], t);
    Between(s[2], c[2], t);
    var here, there := Shift(s, 1.0 - t, Shift(c, -1.0, s)), Shift(c, t, Shift(s, -1.0, c));
    assert here[0] == there[0] && here[1] == there[1] && here[2] == there[2];
    assert here == there;
  }

  lemma Between(s: real, c: real, t: real)
    ensures s + (1.0 - t) * (c + -1.0 * s) == c + t * (s + -1.0 * c)
  {}

  lemma Shrinks(t: real, g: real)
    requires 0.0 <= t <= 1.0 && g >= 0.0
    ensures (1.0 - t) * (1.0 - t) * g <= g
  {
    var q := 1.0 - t;
    ProductSign(q, t);
    assert q * t == q - q * q;
    ProductSign(1.0 - q * q, g);
    assert (1.0 - q * q) * g == g - q * q * g;
  }

  /** Along a direction no equation of the face notices the residual does not move. */
  lemma KernelIsFlat(rows: seq<Row>, mask: nat, d: Triple, c: Triple, t: real)
    requires forall r | r in rows :: r.w >= 0.0
    requires Stationary(GramMatrix(rows), ORIGIN, mask, d)
    ensures Residual(rows, Shift(c, t, d)) == Residual(rows, c)
  {
    hide Residual, Cross, Pull, Gram, Moment, Inner, Members;
    CrossOfRows(rows, d, d);
    SameInner(d, Predicted(GramMatrix(rows), d), ORIGIN);
    InnerOrigin(d);
    NothingPredicted(rows, c, d);
    Along(rows, c, d, t);
  }

  // ---- The face's system and the face ----

  lemma MembersDistinct(mask: nat)
    ensures forall i, j | 0 <= i < j < |Members(mask)| :: Members(mask)[i] != Members(mask)[j]
  {}

  lemma {:induction false} ScatteredAt(idx: seq<nat>, sol: Vector, k: nat)
    requires k <= |idx| == |sol| && Features(idx)
    requires forall i, j | 0 <= i < j < |idx| :: idx[i] != idx[j]
    ensures forall j | 0 <= j < k :: Scattered(idx, sol, k)[idx[j]] == sol[j]
    ensures forall i | 0 <= i < 3 && i !in idx[..k] :: Scattered(idx, sol, k)[i] == 0.0
  {
    if k > 0 {
      ScatteredAt(idx, sol, k - 1);
      assert idx[..k] == idx[..k - 1] + [idx[k - 1]];
    }
  }

  lemma {:induction false} ScatteredDot(row: Vector, idx: seq<nat>, sol: Vector, k: nat)
    requires |row| == 3 && k <= |idx| == |sol| && Features(idx)
    requires forall i, j | 0 <= i < j < |idx| :: idx[i] != idx[j]
    ensures Inner(row, Scattered(idx, sol, k)) == Dot(SubRow(row, idx), sol, k)
  {
    if k == 0 {
      assert Inner(row, ORIGIN) == 0.0;
    } else {
      hide Inner, SubRow, Features;
      ScatteredDot(row, idx, sol, k - 1);
      ZeroBefore(idx, sol, k);
      PutIn(row, Scattered(idx, sol, k - 1), idx[k - 1], sol[k - 1]);
    }
  }

  lemma ZeroBefore(idx: seq<nat>, sol: Vector, k: nat)
    requires 0 < k <= |idx| == |sol| && Features(idx) && forall i, j | 0 <= i < j < |idx| :: idx[i] != idx[j]
    ensures idx[k - 1] < 3 && Scattered(idx, sol, k - 1)[idx[k - 1]] == 0.0
  {
    ScatteredAt(idx, sol, k - 1);
    assert idx[k - 1] !in idx[..k - 1];
  }

  lemma PutIn(row: Vector, c: Triple, at: nat, x: real)
    requires |row| == 3 && at < 3 && c[at] == 0.0
    ensures Inner(row, c[at := x]) == Inner(row, c) + row[at] * x
  {}

  lemma SolutionIsStationary(a: Matrix, b: Vector, mask: nat, sol: Vector)
    requires Normal(a, b) && Solves(Sub(a, Members(mask)), SubRow(b, Members(mask)), sol)
    ensures Stationary(a, b, mask, Scattered(Members(mask), sol, |sol|))
  {
    hide Inner, Dot;
    var idx := Members(mask);
    MembersDistinct(mask);
    ScatteredAt(idx, sol, |sol|);
    assert idx[..|sol|] == idx;
    forall i | i in idx
      ensures Inner(a[i], Scattered(idx, sol, |sol|)) == b[i]
    {
      var k :| 0 <= k < |idx| && idx[k] == i;
      ScatteredDot(a[i], idx, sol, |sol|);
      assert Sub(a, idx)[k] == SubRow(a[i], idx) && SubRow(b, idx)[k] == b[i];
    }
  }

  // ---- Descending to a face ----

  function Support(c: Triple): nat {
    (if c[0] != 0.0 then 1 else 0) + (if c[1] != 0.0 then 1 else 0) + if c[2] != 0.0 then 1 else 0
  }

  function MaskOf(c: Triple): (mask: nat)
    ensures mask < 8 && forall i | 0 <= i < 3 :: i in Members(mask) <==> c[i] != 0.0
  {
    (if c[0] != 0.0 then 1 else 0) + (if c[1] != 0.0 then 2 else 0) + if c[2] != 0.0 then 4 else 0
  }

  function Reach(c: Triple, v: Triple, i: nat): real
    requires i < 3 && v[i] < 0.0
  {
    c[i] / -v[i]
  }

  /** The coefficient going to zero first along `v`. */
  lemma FirstOut(c: Triple, v: Triple) returns (i: nat)
    requires SomeNegative(v)
    ensures i < 3 && v[i] < 0.0
    ensures forall k | 0 <= k < 3 && v[k] < 0.0 :: Reach(c, v, i) <= Reach(c, v, k)
  {
    hide Reach;
    i :| 0 <= i < 3 && v[i] < 0.0;
    if v[0] < 0.0 && Reach(c, v, 0) < Reach(c, v, i) { i := 0; }
    if v[1] < 0.0 && Reach(c, v, 1) < Reach(c, v, i) { i := 1; }
    if v[2] < 0.0 && Reach(c, v, 2) < Reach(c, v, i) { i := 2; }
  }

  /** How far `c` can go along `v`, and the coefficient it runs out of first. */
  lemma Boundary(c: Triple, v: Triple) returns (t: real, i: nat)
    requires Feasible(c) && On(MaskOf(c), v) && SomeNegative(v)
    ensures i < 3 && v[i] < 0.0 && t == Reach(c, v, i) && t > 0.0
    ensures forall k | 0 <= k < 3 && v[k] < 0.0 :: t <= Reach(c, v, k)
    ensures Feasible(Shift(c, t, v)) && Support(Shift(c, t, v)) < Support(c)
  {
    hide Reach, Members, MaskOf;
    i := FirstOut(c, v);
    t := Reach(c, v, i);
    assert c[i] > 0.0 by { OnSupport(c, v, i); }
    ReachEmpties(c, v, i);
    StaysFeasible(c, v, t, 0);
    StaysFeasible(c, v, t, 1);
    StaysFeasible(c, v, t, 2);
    assert Shift(c, t, v)[i] == 0.0;
  }

  lemma OnSupport(c: Triple, v: Triple, k: nat)
    requires On(MaskOf(c), v) && k < 3
    ensures c[k] == 0.0 ==> v[k] == 0.0
  {}

  lemma StaysFeasible(c: Triple, v: Triple, t: real, k: nat)
    requires Feasible(c) && On(MaskOf(c), v) && k < 3 && t > 0.0 && (v[k] < 0.0 ==> t <= Reach(c, v, k))
    ensures Shift(c, t, v)[k] >= 0.0 && (c[k] == 0.0 ==> Shift(c, t, v)[k] == 0.0)
  {
    hide Reach;
    OnSupport(c, v, k);
    if v[k] < 0.0 {
      WithinReach(c, v, k, t);
    } else {
      ProductSign(t, v[k]);
    }
  }

  lemma ReachEmpties(c: Triple, v: Triple, i: nat)
    requires i < 3 && v[i] < 0.0 && c[i] > 0.0
    ensures Reach(c, v, i) > 0.0 && c[i] + Reach(c, v, i) * v[i] == 0.0
  {
    var n := -v[i];
    assert (c[i] / n) * n == c[i];
  }

  lemma WithinReach(c: Triple, v: Triple, k: nat, t: real)
    requires k < 3 && v[k] < 0.0 && t <= Reach(c, v, k)
    ensures c[k] + t * v[k] >= 0.0
  {
    var n := -v[k];
    assert (c[k] / n) * n == c[k];
    assert t * n <= (c[k] / n) * n;
  }

  function Minus(d: Triple): Triple {
    [-d[0], -d[1], -d[2]]
  }

  /** Where the face's system has no single solution, some point with fewer coefficients
      is as good. */
  lemma SlideOff(rows: seq<Row>, c: Triple) returns (less: Triple)
    requires forall r | r in rows :: r.w >= 0.0
    requires Feasible(c) && Support(c) > 0
    requires var idx := Members(MaskOf(c));
             exists d :: Kernel(Sub(GramMatrix(rows), idx), |idx|, d)
    ensures Feasible(less) && Support(less) < Support(c) && Residual(rows, less) == Residual(rows, c)
  {
    var mask, a := MaskOf(c), GramMatrix(rows);
    var idx := Members(mask);
    var d :| Kernel(Sub(a, idx), |idx|, d);
    var v := KernelDirection(a, mask, d);
    var t, i := Boundary(c, v);
    KernelIsFlat(rows, mask, v, c, t);
    less := Shift(c, t, v);
  }

  lemma KernelDirection(a: Matrix, mask: nat, d: Vector) returns (v: Triple)
    requires Square(a, 3) && Kernel(Sub(a, Members(mask)), |Members(mask)|, d)
    ensures Stationary(a, ORIGIN, mask, v) && SomeNegative(v)
  {
    hide Inner, Members, Dot, Sub, SubRow;
    var idx := Members(mask);
    assert SubRow(ORIGIN, idx) == Zeros(|idx|);
    SolutionIsStationary(a, ORIGIN, mask, d);
    v := Scattered(idx, d, |d|);
    MembersDistinct(mask);
    ScatteredAt(idx, d, |d|);
    var k :| 0 <= k < |idx| && d[k] != 0.0;
    var j := idx[k];
    assert v[j] != 0.0;
    if !SomeNegative(v) {
      assert v[j] > 0.0;
      MinusStationary(a, mask, v);
      v := Minus(v);
      assert v[j] < 0.0;
    }
  }

  lemma MinusStationary(a: Matrix, mask: nat, v: Triple)
    requires Square(a, 3) && Stationary(a, ORIGIN, mask, v)
    ensures Stationary(a, ORIGIN, mask, Minus(v))
  {
    hide Inner, Members;
    forall i | i in Members(mask)
      ensures Inner(a[i], Minus(v)) == 0.0
    {
      assert Inner(a[i], v) == 0.0;
      InnerMinus(a[i], v);
    }
  }

  lemma InnerMinus(row: Vector, v: Triple)
    requires |row| == 3
    ensures Inner(row, Minus(v)) == -Inner(row, v)
  {}

  /** Where it has one which is not feasible, some point with fewer coefficients is no
      worse. */
  lemma StepToward(rows: seq<Row>, c: Triple, sol: Vector) returns (less: Triple)
    requires forall r | r in rows :: r.w >= 0.0
    requires Feasible(c) && Support(c) > 0 && SomeNegative(sol)
    requires Solves(Sub(GramMatrix(rows), Members(MaskOf(c))), SubRow(Moments(rows), Members(MaskOf(c))), sol)
    ensures Feasible(less) && Support(less) < Support(c) && Residual(rows, less) <= Residual(rows, c)
  {
    hide Residual, Gram, Moment, Inner, Stationary, Members, MaskOf, Reach, Dot, Sub, SubRow, Support;
    var mask := MaskOf(c);
    var idx := Members(mask);
    SolutionIsStationary(GramMatrix(rows), Moments(rows), mask, sol);
    var s := Scattered(idx, sol, |sol|);
    MembersDistinct(mask);
    ScatteredAt(idx, sol, |sol|);
    var k :| 0 <= k < |sol| && sol[k] < 0.0;
    var j := idx[k];
    assert j in idx && s[j] < 0.0;
    var v := Shift(s, -1.0, c);
    assert v[j] < 0.0;
    assert On(mask, c) && On(mask, s) by { StationaryOn(GramMatrix(rows), Moments(rows), mask, s); OnOwn(c); }
    OnShift(mask, s, c);
    var t, i := Boundary(c, v);
    ReachBelowOne(c, s, v, j);
    TowardStationary(rows, mask, s, c, t);
    less := Shift(c, t, v);
  }

  lemma OnOwn(c: Triple)
    ensures On(MaskOf(c), c)
  {}

  lemma ReachBelowOne(c: Triple, s: Triple, v: Triple, j: nat)
    requires j < 3 && v[j] == s[j] - c[j] && s[j] < 0.0 && c[j] >= 0.0
    ensures v[j] < 0.0 && Reach(c, v, j) <= 1.0
  {
    var n := -v[j];
    assert c[j] <= n;
    assert c[j] / n <= n / n;
  }

  lemma MaskIsZero(c: Triple)
    ensures MaskOf(c) == 0 <==> Support(c) == 0
  {}

  /** Any feasible point can be brought down to the origin or to the candidate of some
      face without raising the residual. */
  lemma {:induction false} Descend(rows: seq<Row>, c: Triple) returns (mask: nat, s: Triple)
    requires Feasible(c) && forall r | r in rows :: r.w >= 0.0
    ensures mask < 8 && Residual(rows, s) <= Residual(rows, c)
    ensures if mask == 0 then s == ORIGIN else Candidate(GramMatrix(rows), Moments(rows), mask) == Some(s)
    decreases Support(c)
  {
    hide Residual, Gram, Moment, SolveFrom, Stationary, Inner, Dot, Kernel, Solves, Members, Sub, SubRow, MaskOf;
    MaskIsZero(c);
    var a, b := GramMatrix(rows), Moments(rows);
    mask := MaskOf(c);
    if Support(c) == 0 {
      s := ORIGIN;
      assert s == c;
    } else {
      var idx := Members(mask);
      var sol := SolveFrom(Sub(a, idx), SubRow(b, idx), 0);
      SolveIsExact(Sub(a, idx), SubRow(b, idx));
      if sol.None? {
        var less := SlideOff(rows, c);
        mask, s := Descend(rows, less);
      } else if SomeNegative(sol.value) {
        var less := StepToward(rows, c, sol.value);
        mask, s := Descend(rows, less);
      } else {
        s := Scattered(idx, sol.value, |idx|);
        SolutionIsStationary(a, b, mask, sol.value);
        TowardStationary(rows, mask, s, c, 1.0);
        assert Shift(c, 1.0, Shift(s, -1.0, c)) == s;
      }
    }
  }

  // ---- The best candidate ----

  lemma {:induction false} BestBeatsCandidates(a: Matrix, b: Vector, k: nat, mask: nat)
    requires Normal(a, b) && 1 <= mask < k && Candidate(a, b, mask).Some?
    ensures BestBefore(a, b, k).Some?
    ensures Cost(a, b, BestBefore(a, b, k).value) <= Cost(a, b, Candidate(a, b, mask).value)
  {
    hide Candidate, Cost;
    if mask < k - 1 {
      BestBeatsCandidates(a, b, k - 1, mask);
    }
  }

  lemma {:induction false} BestIsCandidate(a: Matrix, b: Vector, k: nat)
    requires Normal(a, b) && BestBefore(a, b, k).Some?
    ensures exists mask :: 1 <= mask < k && Candidate(a, b, mask) == BestBefore(a, b, k)
    decreases k
  {
    hide Candidate, Cost;
    if BestBefore(a, b, k) != Candidate(a, b, k - 1) {
      BestIsCandidate(a, b, k - 1);
    }
  }

  /** A candidate is never worse than no coefficients at all. */
  lemma CandidateBeatsOrigin(rows: seq<Row>, mask: nat, s: Triple)
    requires forall r | r in rows :: r.w >= 0.0
    requires Candidate(GramMatrix(rows), Moments(rows), mask) == Some(s)
    ensures Residual(rows, s) <= Residual(rows, ORIGIN)
  {
    hide Residual, SolveFrom, Gram, Moment;
    var a, b, idx := GramMatrix(rows), Moments(rows), Members(mask);
    SolveIsExact(Sub(a, idx), SubRow(b, idx));
    SolutionIsStationary(a, b, mask, SolveFrom(Sub(a, idx), SubRow(b, idx), 0).value);
    TowardStationary(rows, mask, s, ORIGIN, 1.0);
    assert Shift(ORIGIN, 1.0, Shift(s, -1.0, ORIGIN)) == s;
  }

  /** No non-negative coefficients do better than the fit's, whatever the measures:
      features that depend on one another make systems no face can solve, and some
      smaller face is as good. */
  lemma FitIsOptimal(rows: seq<Row>, other: Triple)
    requires Feasible(other) && forall r | r in rows :: r.w >= 0.0
    ensures Residual(rows, Fitted(rows)) <= Residual(rows, other)
  {
    hide Residual, Candidate, Cost, Gram, Moment;
    var a, b := GramMatrix(rows), Moments(rows);
    var mask, s := Descend(rows, other);
    var best := BestBefore(a, b, 8);
    if mask == 0 {
      if best.Some? {
        BestIsCandidate(a, b, 8);
        var m :| 1 <= m < 8 && Candidate(a, b, m) == best;
        CandidateBeatsOrigin(rows, m, best.value);
      }
    } else {
      BestBeatsCandidates(a, b, 8, mask);
      CostIsResidual(rows, best.value);
      CostIsResidual(rows, s);
    }
  }
}
