/** What an op reads when some of its inputs are stacks of the seats' and the others
    are the same for every seat. */
module Columns {
  import opened Tensors
  import opened Indexing

  function Shapes(xs: seq<Tensor>): (r: seq<Shape>)
    ensures |r| == |xs| && forall s | 0 <= s < |xs| :: r[s] == ShapeOf(xs[s])
  {
    if xs == [] then [] else [ShapeOf(xs[0])] + Shapes(xs[1..])
  }

  /** The shapes with a leading axis of `n` where flagged. */
  function Widened(shapes: seq<Shape>, flags: seq<bool>, n: nat): (r: seq<Shape>)
    requires |flags| == |shapes|
    ensures |r| == |shapes|
    ensures forall s | 0 <= s < |shapes| :: r[s] == if flags[s] then [n] + shapes[s] else shapes[s]
  {
    if shapes == [] then []
    else [if flags[0] then [n] + shapes[0] else shapes[0]] + Widened(shapes[1..], flags[1..], n)
  }

  /** What each seat has on input `s`. */
  function Column(seats: seq<seq<Tensor>>, s: nat): (r: seq<Tensor>)
    requires forall xs | xs in seats :: s < |xs|
    ensures |r| == |seats| && forall i | 0 <= i < |seats| :: r[i] == seats[i][s]
  {
    if seats == [] then [] else [seats[0][s]] + Column(seats[1..], s)
  }

  predicate Same(ts: seq<Tensor>) {
    |ts| > 0 && Sound(ts[0]) && forall i | 0 <= i < |ts| :: ts[i] == ts[0]
  }

  /** At least one seat, each with every input: of one shape where flagged, and the
      very same where not. */
  ghost predicate Seated(seats: seq<seq<Tensor>>, flags: seq<bool>) {
    && |seats| > 0
    && (forall xs | xs in seats :: |xs| == |flags|)
    && forall s | 0 <= s < |flags| :: if flags[s] then Alike(Column(seats, s)) else Same(Column(seats, s))
  }

  /** The inputs of the batched op. */
  function Gathered(seats: seq<seq<Tensor>>, flags: seq<bool>): (ys: seq<Tensor>)
    requires |seats| > 0 && forall xs | xs in seats :: |xs| == |flags|
    ensures |ys| == |flags|
    ensures forall s | 0 <= s < |flags| :: ys[s] == if flags[s] then Stack(Column(seats, s)) else seats[0][s]
  {
    GatheredFrom(seats, flags, 0)
  }

  function GatheredFrom(seats: seq<seq<Tensor>>, flags: seq<bool>, from: nat): (ys: seq<Tensor>)
    requires |seats| > 0 && (forall xs | xs in seats :: |xs| == |flags|) && from <= |flags|
    ensures |ys| == |flags| - from
    ensures forall s | 0 <= s < |ys| ::
      ys[s] == if flags[from + s] then Stack(Column(seats, from + s)) else seats[0][from + s]
    decreases |flags| - from
  {
    if from == |flags| then []
    else [if flags[from] then Stack(Column(seats, from)) else seats[0][from]] + GatheredFrom(seats, flags, from + 1)
  }

  /** `y` has the seat's `x` at row `i`, or is `x` itself. */
  ghost predicate HoldsSeat(y: Tensor, flag: bool, x: Tensor, n: nat, i: nat) {
    if flag then ShapeOf(y) == [n] + ShapeOf(x) && y.Rows? && i < |y.rows| && y.rows[i] == x else y == x
  }

  lemma SeatHeld(y: Tensor, x: Tensor, n: nat, i: nat, idx: Index)
    requires HoldsSeat(y, true, x, n, i)
    ensures At(y, [i] + idx) == At(x, idx)
  {
    assert ([i] + idx)[1..] == idx;
  }

  lemma SeatShapes(seats: seq<seq<Tensor>>, flags: seq<bool>, i: nat)
    requires Seated(seats, flags) && i < |seats|
    ensures Shapes(seats[i]) == Shapes(seats[0])
  {
    forall s | 0 <= s < |flags|
      ensures Shapes(seats[i])[s] == Shapes(seats[0])[s]
    {
      assert Column(seats, s)[i] == seats[i][s] && Column(seats, s)[0] == seats[0][s];
    }
  }

  lemma GatheredShapes(seats: seq<seq<Tensor>>, flags: seq<bool>)
    requires Seated(seats, flags)
    ensures Shapes(Gathered(seats, flags)) == Widened(Shapes(seats[0]), flags, |seats|)
  {
    forall s | 0 <= s < |flags|
      ensures Shapes(Gathered(seats, flags))[s] == Widened(Shapes(seats[0]), flags, |seats|)[s]
    {
      assert Column(seats, s)[0] == seats[0][s];
    }
  }

  lemma GatheredHolds(seats: seq<seq<Tensor>>, flags: seq<bool>, i: nat)
    requires Seated(seats, flags) && i < |seats|
    ensures forall s | 0 <= s < |flags| :: HoldsSeat(Gathered(seats, flags)[s], flags[s], seats[i][s], |seats|, i)
  {
    forall s | 0 <= s < |flags|
      ensures HoldsSeat(Gathered(seats, flags)[s], flags[s], seats[i][s], |seats|, i)
    {
      var column := Column(seats, s);
      assert column[i] == seats[i][s] && column[0] == seats[0][s];
    }
  }
}
