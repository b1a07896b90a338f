/** Tensors as nested rows: axis 0 outermost, every row of the same shape.

    Stacking along axis 0 and slicing axis 0 are then sequence operations on the
    rows, and two sound tensors are equal exactly when they agree index by index. */
module Tensors {
  import opened Outcomes

  type Shape = seq<nat>

  datatype Tensor =
    | Scalar(value: int)
    | Rows(inner: Shape, rows: seq<Tensor>)

  function ShapeOf(t: Tensor): Shape {
    match t
    case Scalar(_) => []
    case Rows(inner, rows) => [|rows|] + inner
  }

  /** Every row has the shape the tensor says its rows have. */
  predicate Sound(t: Tensor) {
    t.Rows? ==> forall r | r in t.rows :: ShapeOf(r) == t.inner && Sound(r)
  }

  /** `tensor` with an axis of extent one put in front. */
  function InsertAxis0(t: Tensor): Tensor {
    Rows(ShapeOf(t), [t])
  }

  /** The rows `from..to` of a tensor, keeping axis 0. */
  function SliceRows(t: Tensor, from: nat, to: nat): Tensor
    requires t.Rows? && from <= to <= |t.rows|
  {
    Rows(t.inner, t.rows[from..to])
  }

  function ConcatRows(ts: seq<Tensor>): seq<Tensor>
    requires forall t | t in ts :: t.Rows?
  {
    if ts == [] then [] else ts[0].rows + ConcatRows(ts[1..])
  }

  /** Whether `ts` can be stacked along axis 0: at least one of them, none a
      scalar, all agreeing off axis 0. */
  predicate Stackable(ts: seq<Tensor>) {
    && |ts| > 0
    && ts[0].Rows?
    && (forall t | t in ts :: t.Rows? && t.inner == ts[0].inner)
  }

  function StackRows(ts: seq<Tensor>): Option<Tensor> {
    if Stackable(ts) then Some(Rows(ts[0].inner, ConcatRows(ts))) else None
  }

  /** Row `i` of a stack of one-row tensors is the row of the `i`th of them. */
  lemma {:induction false} ConcatOfSingles(ts: seq<Tensor>)
    requires forall t | t in ts :: t.Rows? && |t.rows| == 1
    ensures |ConcatRows(ts)| == |ts|
    ensures forall i | 0 <= i < |ts| :: ConcatRows(ts)[i] == ts[i].rows[0]
  {
    if ts != [] {
      ConcatOfSingles(ts[1..]);
      forall i | 0 <= i < |ts|
        ensures ConcatRows(ts)[i] == ts[i].rows[0]
      {
        if i > 0 {
          assert ts[i] == ts[1..][i - 1];
        }
      }
    }
  }

  /** Stacking the rows of a tensor, sliced one at a time, gives it back. */
  lemma StackUndoesSlicing(t: Tensor)
    requires t.Rows? && |t.rows| > 0
    ensures StackRows(seq(|t.rows|, i requires 0 <= i < |t.rows| => SliceRows(t, i, i + 1))) == Some(t)
  {
    var ts := seq(|t.rows|, i requires 0 <= i < |t.rows| => SliceRows(t, i, i + 1));
    ConcatOfSingles(ts);
    assert ConcatRows(ts) == t.rows;
  }
}
