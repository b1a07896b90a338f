/** Ops taking any number of operands: elementwise ones, which broadcast an extent of
    one, and concatenation, which does not. */
module NaryOps {
  import opened Outcomes
  import opened Tensors
  import opened Indexing
  import opened Columns

  // ---- Elementwise ----

  function BroadcastDim(a: nat, b: nat): Option<nat> {
    if a == b || b == 1 then Some(a) else if a == 1 then Some(b) else None
  }

  function BroadcastPair(a: Shape, b: Shape): Option<Shape> {
    if |a| != |b| then None
    else if a == [] then Some([])
    else
      match (BroadcastDim(a[0], b[0]), BroadcastPair(a[1..], b[1..]))
      case (Some(d), Some(rest)) => Some([d] + rest)
      case _ => None
  }

  function BroadcastFrom(sofar: Shape, shapes: seq<Shape>): Option<Shape>
    decreases |shapes|
  {
    if shapes == [] then Some(sofar)
    else
      match BroadcastPair(sofar, shapes[0])
      case None => None
      case Some(joined) => BroadcastFrom(joined, shapes[1..])
  }

  /** Where an operand of `shape` is read for the output's `idx`. */
  function Clamped(shape: Shape, idx: Index): Index {
    if shape == [] || idx == [] then []
    else [if shape[0] == 1 then 0 else idx[0]] + Clamped(shape[1..], idx[1..])
  }

  function Operands(xs: seq<Tensor>, idx: Index): seq<int> {
    if xs == [] then [] else [At(xs[0], Clamped(ShapeOf(xs[0]), idx))] + Operands(xs[1..], idx)
  }

  function EachElement(kernel: seq<int> -> int, xs: seq<Tensor>): Index -> int {
    (idx: Index) => kernel(Operands(xs, idx))
  }

  function BroadcastShape(xs: seq<Tensor>): Option<Shape> {
    if xs == [] then None else BroadcastFrom(ShapeOf(xs[0]), Shapes(xs[1..]))
  }

  /** An elementwise op: operands of one rank, broadcast against each other. */
  function ApplyEach(kernel: seq<int> -> int, xs: seq<Tensor>): (r: Option<Tensor>)
    ensures r.Some? <==> BroadcastShape(xs).Some?
    ensures r.Some? ==> IsTable(r.value, BroadcastShape(xs).value, EachElement(kernel, xs))
  {
    match BroadcastShape(xs)
    case None => None
    case Some(shape) => Some(Tabulate(shape, EachElement(kernel, xs)))
  }

  /** The operands of the batched op: a padded one has a leading axis of one. */
  function Padded(seats: seq<seq<Tensor>>, flags: seq<bool>): (ys: seq<Tensor>)
    requires |seats| > 0 && forall xs | xs in seats :: |xs| == |flags|
    ensures |ys| == |flags|
    ensures forall s | 0 <= s < |flags| ::
      ys[s] == if flags[s] then Gathered(seats, flags)[s] else InsertAxis0(Gathered(seats, flags)[s])
  {
    var ys := Gathered(seats, flags);
    seq(|flags|, s requires 0 <= s < |flags| => if flags[s] then ys[s] else InsertAxis0(ys[s]))
  }

  /** `y` leads with the seats, or with an axis of one they all read; either way seat
      `i` finds `x` there. */
  ghost predicate Leads(y: Tensor, x: Tensor, n: nat, i: nat) {
    && ShapeOf(y) != [] && (ShapeOf(y)[0] == n || ShapeOf(y)[0] == 1) && ShapeOf(y)[1..] == ShapeOf(x)
    && i < n && y.Rows? && y.rows[if |y.rows| == 1 then 0 else i] == x
  }

  lemma {:induction false} OperandsLead(ys: seq<Tensor>, xs: seq<Tensor>, n: nat, i: nat, idx: Index)
    requires |ys| == |xs| && forall s | 0 <= s < |xs| :: Leads(ys[s], xs[s], n, i)
    ensures Operands(ys, [i] + idx) == Operands(xs, idx)
  {
    if xs != [] {
      assert Leads(ys[0], xs[0], n, i);
      assert ([i] + idx)[1..] == idx;
      var row := if |ys[0].rows| == 1 then 0 else i;
      assert Clamped(ShapeOf(ys[0]), [i] + idx) == [row] + Clamped(ShapeOf(xs[0]), idx);
      assert ([row] + Clamped(ShapeOf(xs[0]), idx))[1..] == Clamped(ShapeOf(xs[0]), idx);
      forall s | 0 <= s < |xs[1..]|
        ensures Leads(ys[1..][s], xs[1..][s], n, i)
      {
        assert Leads(ys[s + 1], xs[s + 1], n, i);
      }
      OperandsLead(ys[1..], xs[1..], n, i, idx);
    }
  }

  lemma {:induction false} BroadcastLeads(w: nat, sofar: Shape, leads: seq<nat>, shapes: seq<Shape>, wide: seq<Shape>,
                                          n: nat)
    requires |leads| == |shapes| == |wide| && (w == 1 || w == n) && forall d | d in leads :: d == 1 || d == n
    requires forall s | 0 <= s < |shapes| :: wide[s] == [leads[s]] + shapes[s]
    requires BroadcastFrom(sofar, shapes).Some?
    ensures BroadcastFrom([w] + sofar, wide)
            == Some([if w == n || n in leads then n else 1] + BroadcastFrom(sofar, shapes).value)
    decreases |shapes|
  {
    if shapes != [] {
      var joined := BroadcastPair(sofar, shapes[0]).value;
      assert leads[0] in leads && forall d | d in leads[1..] :: d in leads;
      assert wide[0] == [leads[0]] + shapes[0];
      assert ([w] + sofar)[1..] == sofar && wide[0][1..] == shapes[0];
      var w' := if w == n || leads[0] == n then n else 1;
      assert BroadcastPair([w] + sofar, wide[0]) == Some([w'] + joined);
      assert n in leads <==> leads[0] == n || n in leads[1..];
      BroadcastLeads(w', joined, leads[1..], shapes[1..], wide[1..], n);
    }
  }

  function Leading(flags: seq<bool>, n: nat): (r: seq<nat>)
    ensures |r| == |flags| && forall s | 0 <= s < |flags| :: r[s] == if flags[s] then n else 1
  {
    if flags == [] then [] else [if flags[0] then n else 1] + Leading(flags[1..], n)
  }

  lemma PaddedSlotShape(seats: seq<seq<Tensor>>, flags: seq<bool>, s: nat)
    requires Seated(seats, flags) && s < |flags|
    ensures ShapeOf(Padded(seats, flags)[s]) == [if flags[s] then |seats| else 1] + ShapeOf(seats[0][s])
  {
    assert Column(seats, s)[0] == seats[0][s];
  }

  lemma SomeLeads(flags: seq<bool>, n: nat)
    requires true in flags
    ensures n in Leading(flags, n)
  {
    var s :| 0 <= s < |flags| && flags[s];
    assert Leading(flags, n)[s] == n;
  }

  lemma LeadsBroadcast(leads: seq<nat>, xs: seq<Tensor>, ys: seq<Tensor>, n: nat)
    requires |leads| == |xs| == |ys| && n in leads && forall d | d in leads :: d == 1 || d == n
    requires forall s | 0 <= s < |xs| :: ShapeOf(ys[s]) == [leads[s]] + ShapeOf(xs[s])
    requires BroadcastShape(xs).Some?
    ensures BroadcastShape(ys) == Some([n] + BroadcastShape(xs).value)
  {
    assert leads[0] in leads && forall d | d in leads[1..] :: d in leads;
    BroadcastLeads(leads[0], ShapeOf(xs[0]), leads[1..], Shapes(xs[1..]), Shapes(ys[1..]), n);
  }

  lemma PaddedShape(seats: seq<seq<Tensor>>, flags: seq<bool>)
    requires Seated(seats, flags) && true in flags && BroadcastShape(seats[0]).Some?
    ensures BroadcastShape(Padded(seats, flags)) == Some([|seats|] + BroadcastShape(seats[0]).value)
  {
    hide Padded, Alike, Same, BroadcastFrom, Column, Shapes, Sound, Leading;
    var n := |seats|;
    assert seats[0] in seats && |seats[0]| == |flags|;
    var ys, xs := Padded(seats, flags), seats[0];
    var leads := Leading(flags, n);
    forall s | 0 <= s < |flags|
      ensures ShapeOf(ys[s]) == [leads[s]] + ShapeOf(xs[s])
    {
      PaddedSlotShape(seats, flags, s);
    }
    SomeLeads(flags, n);
    LeadsBroadcast(leads, xs, ys, n);
  }

  lemma PaddedLeads(seats: seq<seq<Tensor>>, flags: seq<bool>, i: nat)
    requires Seated(seats, flags) && i < |seats|
    ensures forall s | 0 <= s < |flags| :: Leads(Padded(seats, flags)[s], seats[i][s], |seats|, i)
  {
    forall s | 0 <= s < |flags|
      ensures Leads(Padded(seats, flags)[s], seats[i][s], |seats|, i)
    {
      var column := Column(seats, s);
      assert column[i] == seats[i][s] && column[0] == seats[0][s];
    }
  }

  lemma EachElementAt(kernel: seq<int> -> int, xs: seq<Tensor>, idx: Index)
    ensures EachElement(kernel, xs)(idx) == kernel(Operands(xs, idx))
  {}

  lemma BroadcastShapeOf(xs: seq<Tensor>, ys: seq<Tensor>)
    requires Shapes(xs) == Shapes(ys)
    ensures BroadcastShape(xs) == BroadcastShape(ys)
  {
    if xs != [] {
      assert Shapes(xs[1..]) == Shapes(xs)[1..] && Shapes(ys[1..]) == Shapes(ys)[1..];
      assert ShapeOf(xs[0]) == Shapes(xs)[0] == ShapeOf(ys[0]);
    }
  }

  lemma EachReadsSeat(kernel: seq<int> -> int, flags: seq<bool>, seats: seq<seq<Tensor>>, i: nat, out: Tensor,
                      after: Shape)
    requires Seated(seats, flags) && i < |seats|
    requires IsTable(out, after, EachElement(kernel, seats[i]))
    ensures ReadsSeat(EachElement(kernel, Padded(seats, flags)), i, out, after)
  {
    hide EachElement;
    var ys := Padded(seats, flags);
    PaddedLeads(seats, flags, i);
    forall idx | InShape(idx, after)
      ensures EachElement(kernel, ys)([i] + idx) == At(out, idx)
    {
      EachElementAt(kernel, ys, [i] + idx);
      EachElementAt(kernel, seats[i], idx);
      OperandsLead(ys, seats[i], |seats|, i, idx);
      TableAt(out, after, EachElement(kernel, seats[i]), idx);
    }
  }

  /** An elementwise op on stacked operands, the others padded to broadcast across the
      turn, is the stack of the op seat by seat. */
  lemma EachLifts(kernel: seq<int> -> int, flags: seq<bool>, seats: seq<seq<Tensor>>, outs: seq<Tensor>)
    requires Seated(seats, flags) && true in flags
    requires |outs| == |seats| && forall i | 0 <= i < |seats| :: ApplyEach(kernel, seats[i]) == Some(outs[i])
    ensures Alike(outs)
    ensures ApplyEach(kernel, Padded(seats, flags)) == Some(Stack(outs))
  {
    hide EachElement, BroadcastShape, ReadsSeat, IsTable, Padded, Shapes;
    assert ApplyEach(kernel, seats[0]) == Some(outs[0]);
    var after := BroadcastShape(seats[0]).value;
    PaddedShape(seats, flags);
    var ys := Padded(seats, flags);
    var f := EachElement(kernel, ys);
    forall i | 0 <= i < |seats|
      ensures ReadsSeat(f, i, outs[i], after)
    {
      assert ApplyEach(kernel, seats[i]) == Some(outs[i]);
      SeatShapes(seats, flags, i);
      BroadcastShapeOf(seats[i], seats[0]);
      EachReadsSeat(kernel, flags, seats, i, outs[i], after);
    }
    TableStacks(ApplyEach(kernel, ys).value, outs, after, f);
  }

  // ---- Concatenation ----

  predicate AgreeOff(axis: nat, a: Shape, b: Shape) {
    |a| == |b| && axis < |a| && a[axis := 0] == b[axis := 0]
  }

  function TotalExtent(axis: nat, shapes: seq<Shape>): nat {
    if shapes == [] then 0 else (if axis < |shapes[0]| then shapes[0][axis] else 0) + TotalExtent(axis, shapes[1..])
  }

  function ConcatShape(axis: nat, shapes: seq<Shape>): Option<Shape> {
    if |shapes| == 0 || (exists s :: 0 <= s < |shapes| && !AgreeOff(axis, shapes[s], shapes[0])) then None
    else assert AgreeOff(axis, shapes[0], shapes[0]); Some(shapes[0][axis := TotalExtent(axis, shapes)])
  }

  function ConcatAt(axis: nat, xs: seq<Tensor>, idx: Index): int
    decreases |xs|
  {
    if xs == [] || axis >= |idx| || axis >= |ShapeOf(xs[0])| then 0
    else
      var extent := ShapeOf(xs[0])[axis];
      if idx[axis] < extent then At(xs[0], idx) else ConcatAt(axis, xs[1..], idx[axis := idx[axis] - extent])
  }

  function ConcatElement(axis: nat, xs: seq<Tensor>): Index -> int {
    (idx: Index) => ConcatAt(axis, xs, idx)
  }

  /** The operands one after the other along `axis`, agreeing on every other. */
  function ApplyConcat(axis: nat, xs: seq<Tensor>): (r: Option<Tensor>)
    ensures r.Some? <==> ConcatShape(axis, Shapes(xs)).Some?
    ensures r.Some? ==> IsTable(r.value, ConcatShape(axis, Shapes(xs)).value, ConcatElement(axis, xs))
  {
    match ConcatShape(axis, Shapes(xs))
    case None => None
    case Some(shape) => Some(Tabulate(shape, ConcatElement(axis, xs)))
  }

  /** `MultiBroadcastTo` a leading axis of `n`. */
  function Spread(n: nat, t: Tensor): Option<Tensor> {
    if t.Rows? && |t.rows| == 1 then Some(Rows(t.inner, seq(n, _ => t.rows[0])))
    else if t.Rows? && |t.rows| == n then Some(t)
    else None
  }

  /** Every operand stacked, the unbatched ones as so many copies. */
  function AllStacked(seats: seq<seq<Tensor>>, flags: seq<bool>): (ys: seq<Tensor>)
    requires |seats| > 0 && forall xs | xs in seats :: |xs| == |flags|
    ensures |ys| == |flags| && forall s | 0 <= s < |flags| :: ys[s] == Stack(Column(seats, s))
  {
    seq(|flags|, s requires 0 <= s < |flags| => Stack(Column(seats, s)))
  }

  lemma SpreadCopies(seats: seq<seq<Tensor>>, flags: seq<bool>, s: nat)
    requires Seated(seats, flags) && s < |flags| && !flags[s]
    ensures Spread(|seats|, InsertAxis0(Gathered(seats, flags)[s])) == Some(AllStacked(seats, flags)[s])
  {
    var column := Column(seats, s);
    assert column[0] == seats[0][s];
    assert column == seq(|seats|, _ => seats[0][s]);
  }

  lemma StackedShape(seats: seq<seq<Tensor>>, flags: seq<bool>, s: nat)
    requires Seated(seats, flags) && s < |flags|
    ensures ShapeOf(AllStacked(seats, flags)[s]) == [|seats|] + ShapeOf(seats[0][s])
  {
    assert Column(seats, s)[0] == seats[0][s];
  }

  lemma {:induction false} TotalExtentLifts(axis: nat, shapes: seq<Shape>, wide: seq<Shape>, n: nat)
    requires |shapes| == |wide| && forall s | 0 <= s < |shapes| :: wide[s] == [n] + shapes[s]
    ensures TotalExtent(axis + 1, wide) == TotalExtent(axis, shapes)
  {
    if shapes != [] {
      TotalExtentLifts(axis, shapes[1..], wide[1..], n);
    }
  }

  lemma AgreeOffLifts(axis: nat, a: Shape, b: Shape, n: nat)
    requires AgreeOff(axis, a, b)
    ensures AgreeOff(axis + 1, [n] + a, [n] + b)
  {
    assert ([n] + a)[axis + 1 := 0] == [n] + a[axis := 0];
    assert ([n] + b)[axis + 1 := 0] == [n] + b[axis := 0];
  }

  lemma ConcatShapeLifts(axis: nat, shapes: seq<Shape>, wide: seq<Shape>, n: nat)
    requires |shapes| == |wide| && forall s | 0 <= s < |shapes| :: wide[s] == [n] + shapes[s]
    requires ConcatShape(axis, shapes).Some?
    ensures ConcatShape(axis + 1, wide) == Some([n] + ConcatShape(axis, shapes).value)
  {
    forall s | 0 <= s < |wide|
      ensures AgreeOff(axis + 1, wide[s], wide[0])
    {
      assert AgreeOff(axis, shapes[s], shapes[0]);
      AgreeOffLifts(axis, shapes[s], shapes[0], n);
    }
    TotalExtentLifts(axis, shapes, wide, n);
    assert AgreeOff(axis, shapes[0], shapes[0]);
    var total := TotalExtent(axis, shapes);
    assert ([n] + shapes[0])[axis + 1 := total] == [n] + shapes[0][axis := total];
  }

  lemma {:induction false} ConcatAtLifts(axis: nat, ys: seq<Tensor>, xs: seq<Tensor>, n: nat, i: nat, idx: Index)
    requires |ys| == |xs| && forall s | 0 <= s < |xs| :: HoldsSeat(ys[s], true, xs[s], n, i)
    ensures ConcatAt(axis + 1, ys, [i] + idx) == ConcatAt(axis, xs, idx)
    decreases |xs|
  {
    hide At, ShapeOf;
    if xs != [] && axis < |idx| && axis < |ShapeOf(xs[0])| {
      assert HoldsSeat(ys[0], true, xs[0], n, i);
      assert ShapeOf(ys[0]) == [n] + ShapeOf(xs[0]);
      SeatHeld(ys[0], xs[0], n, i, idx);
      var extent := ShapeOf(xs[0])[axis];
      if idx[axis] >= extent {
        var rest := idx[axis := idx[axis] - extent];
        assert ([i] + idx)[axis + 1 := idx[axis] - extent] == [i] + rest;
        forall s | 0 <= s < |xs[1..]|
          ensures HoldsSeat(ys[1..][s], true, xs[1..][s], n, i)
        {
          assert HoldsSeat(ys[s + 1], true, xs[s + 1], n, i);
        }
        ConcatAtLifts(axis, ys[1..], xs[1..], n, i, rest);
      }
    } else if xs != [] {
      assert HoldsSeat(ys[0], true, xs[0], n, i);
    }
  }

  lemma StackedHolds(seats: seq<seq<Tensor>>, flags: seq<bool>, i: nat)
    requires Seated(seats, flags) && i < |seats|
    ensures forall s | 0 <= s < |flags| :: HoldsSeat(AllStacked(seats, flags)[s], true, seats[i][s], |seats|, i)
  {
    forall s | 0 <= s < |flags|
      ensures HoldsSeat(AllStacked(seats, flags)[s], true, seats[i][s], |seats|, i)
    {
      var column := Column(seats, s);
      assert column[i] == seats[i][s] && column[0] == seats[0][s];
    }
  }

  lemma ConcatElementAt(axis: nat, xs: seq<Tensor>, idx: Index)
    ensures ConcatElement(axis, xs)(idx) == ConcatAt(axis, xs, idx)
  {}

  lemma ConcatReadsSeat(axis: nat, flags: seq<bool>, seats: seq<seq<Tensor>>, i: nat, out: Tensor, after: Shape)
    requires Seated(seats, flags) && i < |seats|
    requires IsTable(out, after, ConcatElement(axis, seats[i]))
    ensures ReadsSeat(ConcatElement(axis + 1, AllStacked(seats, flags)), i, out, after)
  {
    hide ConcatElement;
    var ys := AllStacked(seats, flags);
    StackedHolds(seats, flags, i);
    forall idx | InShape(idx, after)
      ensures ConcatElement(axis + 1, ys)([i] + idx) == At(out, idx)
    {
      ConcatElementAt(axis + 1, ys, [i] + idx);
      ConcatElementAt(axis, seats[i], idx);
      ConcatAtLifts(axis, ys, seats[i], |seats|, i, idx);
      TableAt(out, after, ConcatElement(axis, seats[i]), idx);
    }
  }

  lemma ConcatShapesLift(axis: nat, flags: seq<bool>, seats: seq<seq<Tensor>>)
    requires Seated(seats, flags) && ConcatShape(axis, Shapes(seats[0])).Some?
    ensures ConcatShape(axis + 1, Shapes(AllStacked(seats, flags)))
            == Some([|seats|] + ConcatShape(axis, Shapes(seats[0])).value)
  {
    hide ConcatShape;
    var ys := AllStacked(seats, flags);
    forall s | 0 <= s < |flags|
      ensures Shapes(ys)[s] == [|seats|] + Shapes(seats[0])[s]
    {
      StackedShape(seats, flags, s);
    }
    ConcatShapeLifts(axis, Shapes(seats[0]), Shapes(ys), |seats|);
  }

  /** Concatenating one axis further up the operands all stacked is the stack of the
      seats' concatenations. */
  lemma ConcatLifts(axis: nat, flags: seq<bool>, seats: seq<seq<Tensor>>, outs: seq<Tensor>)
    requires Seated(seats, flags)
    requires |outs| == |seats| && forall i | 0 <= i < |seats| :: ApplyConcat(axis, seats[i]) == Some(outs[i])
    ensures Alike(outs)
    ensures ApplyConcat(axis + 1, AllStacked(seats, flags)) == Some(Stack(outs))
  {
    hide ConcatElement, ConcatShape, ReadsSeat, IsTable, AllStacked, Shapes;
    assert ApplyConcat(axis, seats[0]) == Some(outs[0]);
    var ys := AllStacked(seats, flags);
    var after := ConcatShape(axis, Shapes(seats[0])).value;
    ConcatShapesLift(axis, flags, seats);
    var f := ConcatElement(axis + 1, ys);
    forall i | 0 <= i < |seats|
      ensures ReadsSeat(f, i, outs[i], after)
    {
      assert ApplyConcat(axis, seats[i]) == Some(outs[i]);
      SeatShapes(seats, flags, i);
      ConcatReadsSeat(axis, flags, seats, i, outs[i], after);
    }
    TableStacks(ApplyConcat(axis + 1, ys).value, outs, after, f);
  }
}
