/** Tensors read index by index, built from a function of the index, and stacked
    seat by seat. */
module Indexing {
  import opened Tensors

  type Index = seq<nat>

  predicate InShape(idx: Index, shape: Shape) {
    |idx| == |shape| && forall k | 0 <= k < |shape| :: idx[k] < shape[k]
  }

  /** The element at `idx`; zero past the end of the tensor. */
  function At(t: Tensor, idx: Index): int {
    match t
    case Scalar(value) => value
    case Rows(_, rows) => if idx == [] || idx[0] >= |rows| then 0 else At(rows[idx[0]], idx[1..])
  }

  /** The tensor of `shape` holding `f` of each index, all starting with `prefix`. */
  function TabulateFrom(shape: Shape, f: Index -> int, prefix: Index): (t: Tensor)
    ensures ShapeOf(t) == shape
    decreases |shape|
  {
    if shape == [] then Scalar(f(prefix))
    else Rows(shape[1..], seq(shape[0], i requires 0 <= i < shape[0] => TabulateFrom(shape[1..], f, prefix + [i])))
  }

  lemma {:induction false} TabulatedIsSound(shape: Shape, f: Index -> int, prefix: Index)
    ensures Sound(TabulateFrom(shape, f, prefix))
    decreases |shape|
  {
    if shape != [] {
      forall i: nat | i < shape[0]
        ensures Sound(TabulateFrom(shape[1..], f, prefix + [i]))
      {
        TabulatedIsSound(shape[1..], f, prefix + [i]);
      }
    }
  }

  lemma {:induction false} AtTabulated(shape: Shape, f: Index -> int, prefix: Index, idx: Index)
    requires InShape(idx, shape)
    ensures At(TabulateFrom(shape, f, prefix), idx) == f(prefix + idx)
    decreases |shape|
  {
    hide Sound, ShapeOf;
    if shape == [] {
      assert prefix + idx == prefix;
    } else {
      assert InShape(idx[1..], shape[1..]);
      AtTabulated(shape[1..], f, prefix + [idx[0]], idx[1..]);
      assert prefix + [idx[0]] + idx[1..] == prefix + idx;
    }
  }

  /** `t` holds `f` of every index of `shape`. */
  ghost predicate IsTable(t: Tensor, shape: Shape, f: Index -> int) {
    && Sound(t) && ShapeOf(t) == shape
    && forall idx | InShape(idx, shape) :: At(t, idx) == f(idx)
  }

  lemma TabulatedIsTable(shape: Shape, f: Index -> int)
    ensures IsTable(TabulateFrom(shape, f, []), shape, f)
  {
    TabulatedIsSound(shape, f, []);
    forall idx | InShape(idx, shape)
      ensures At(TabulateFrom(shape, f, []), idx) == f(idx)
    {
      AtTabulated(shape, f, [], idx);
      assert [] + idx == idx;
    }
  }

  lemma TableAt(t: Tensor, shape: Shape, f: Index -> int, idx: Index)
    requires IsTable(t, shape, f) && InShape(idx, shape)
    ensures At(t, idx) == f(idx)
  {}

  function Tabulate(shape: Shape, f: Index -> int): (t: Tensor)
    ensures IsTable(t, shape, f)
  {
    TabulatedIsTable(shape, f);
    TabulateFrom(shape, f, [])
  }

  /** Sound tensors of one shape are equal when they agree at every index. */
  lemma {:induction false} Extensional(t: Tensor, u: Tensor)
    requires Sound(t) && Sound(u) && ShapeOf(t) == ShapeOf(u)
    requires forall idx | InShape(idx, ShapeOf(t)) :: At(t, idx) == At(u, idx)
    ensures t == u
    decreases t
  {
    match t {
      case Scalar(value) =>
        assert InShape([], ShapeOf(t));
        assert At(t, []) == At(u, []);
      case Rows(inner, rows) =>
        assert ShapeOf(t)[0] == ShapeOf(u)[0] && ShapeOf(t)[1..] == ShapeOf(u)[1..];
        assert u.inner == inner;
        forall i: nat | i < |rows|
          ensures rows[i] == u.rows[i]
        {
          assert rows[i] in rows && u.rows[i] in u.rows;
          forall idx | InShape(idx, inner)
            ensures At(rows[i], idx) == At(u.rows[i], idx)
          {
            var longer := [i] + idx;
            assert InShape(longer, ShapeOf(t));
            assert At(t, longer) == At(u, longer);
            assert longer[1..] == idx;
          }
          Extensional(rows[i], u.rows[i]);
        }
    }
  }

  /** Tensors of one shape, one per seat. */
  predicate Alike(ts: seq<Tensor>) {
    |ts| > 0 && forall i | 0 <= i < |ts| :: Sound(ts[i]) && ShapeOf(ts[i]) == ShapeOf(ts[0])
  }

  /** The seats' tensors on a new axis 0. */
  function Stack(ts: seq<Tensor>): (t: Tensor)
    requires |ts| > 0
  {
    Rows(ShapeOf(ts[0]), ts)
  }

  lemma StackIsSound(ts: seq<Tensor>)
    requires Alike(ts)
    ensures Sound(Stack(ts)) && ShapeOf(Stack(ts)) == [|ts|] + ShapeOf(ts[0])
  {}

  lemma AtStack(ts: seq<Tensor>, i: nat, idx: Index)
    requires i < |ts|
    ensures At(Stack(ts), [i] + idx) == At(ts[i], idx)
  {
    assert ([i] + idx)[1..] == idx;
  }

  /** `f` reads, in seat `i`, the elements of `t`. */
  ghost predicate ReadsSeat(f: Index -> int, i: nat, t: Tensor, shape: Shape) {
    && Sound(t) && ShapeOf(t) == shape
    && forall idx | InShape(idx, shape) :: f([i] + idx) == At(t, idx)
  }

  lemma SeatRead(f: Index -> int, i: nat, t: Tensor, shape: Shape, idx: Index)
    requires ReadsSeat(f, i, t, shape) && InShape(idx, shape)
    ensures f([i] + idx) == At(t, idx)
  {}

  lemma InRow(idx: Index, n: nat, shape: Shape)
    requires InShape(idx, [n] + shape)
    ensures idx[0] < n && InShape(idx[1..], shape) && [idx[0]] + idx[1..] == idx
  {
    assert idx[0] < ([n] + shape)[0];
    forall k | 0 <= k < |shape|
      ensures idx[1..][k] < shape[k]
    {
      assert idx[k + 1] < ([n] + shape)[k + 1];
    }
  }

  /** A table over the seats and an index is the stack of the seats' own tensors. */
  lemma TableStacks(t: Tensor, outs: seq<Tensor>, shape: Shape, f: Index -> int)
    requires |outs| > 0 && IsTable(t, [|outs|] + shape, f)
    requires forall i | 0 <= i < |outs| :: ReadsSeat(f, i, outs[i], shape)
    ensures Alike(outs) && t == Stack(outs)
  {
    assert Alike(outs) by {
      assert ReadsSeat(f, 0, outs[0], shape);
      forall i | 0 <= i < |outs|
        ensures Sound(outs[i]) && ShapeOf(outs[i]) == ShapeOf(outs[0])
      {
        assert ReadsSeat(f, i, outs[i], shape);
      }
    }
    forall idx | InShape(idx, [|outs|] + shape)
      ensures At(t, idx) == At(Stack(outs), idx)
    {
      InRow(idx, |outs|, shape);
      AtStack(outs, idx[0], idx[1..]);
      SeatRead(f, idx[0], outs[idx[0]], shape, idx[1..]);
      TableAt(t, [|outs|] + shape, f, idx);
    }
    Extensional(t, Stack(outs));
  }
}
