/** Sums over label assignments, and the label of its own a batched one gets. */
module EinSums {
  import opened Outcomes
  import opened Tensors
  import opened Indexing
  import opened Columns

  type Label = nat

  /** The arithmetic of the operating datum type; nothing is asked of it. */
  datatype Arithmetic = Arithmetic(zero: int, one: int, add: (int, int) -> int, mul: (int, int) -> int)

  /** The label of every axis of every input, and of the output. A label may sit on
      several axes of one input; the output's labels are distinct. */
  datatype EinSum = EinSum(ins: seq<seq<Label>>, out: seq<Label>, acc: Arithmetic)

  // ---- Shapes ----

  /** The extents of the axes `l` labels in one input. */
  function Extents(labels: seq<Label>, shape: Shape, l: Label): seq<nat> {
    if labels == [] || shape == [] then []
    else (if labels[0] == l then [shape[0]] else []) + Extents(labels[1..], shape[1..], l)
  }

  function AllExtents(ins: seq<seq<Label>>, shapes: seq<Shape>, l: Label): seq<nat> {
    if ins == [] || shapes == [] then [] else Extents(ins[0], shapes[0], l) + AllExtents(ins[1..], shapes[1..], l)
  }

  function FirstNotOne(extents: seq<nat>): nat {
    if extents == [] then 1 else if extents[0] != 1 then extents[0] else FirstNotOne(extents[1..])
  }

  function OutShape(out: seq<Label>, ins: seq<seq<Label>>, shapes: seq<Shape>): (r: Shape)
    ensures |r| == |out|
  {
    if out == [] then []
    else [FirstNotOne(AllExtents(ins, shapes, out[0]))] + OutShape(out[1..], ins, shapes)
  }

  /** The labels summed away, in the order the inputs first mention them. */
  function SummedIn(labels: seq<Label>, out: seq<Label>, found: seq<Label>): seq<Label>
    decreases |labels|
  {
    if labels == [] then found
    else SummedIn(labels[1..], out, if labels[0] in out || labels[0] in found then found else found + [labels[0]])
  }

  function Summed(ins: seq<seq<Label>>, out: seq<Label>, found: seq<Label>): seq<Label>
    decreases |ins|
  {
    if ins == [] then found else Summed(ins[1..], out, SummedIn(ins[0], out, found))
  }

  function FirstExtent(extents: seq<nat>): nat {
    if extents == [] then 0 else extents[0]
  }

  function SumShape(summed: seq<Label>, ins: seq<seq<Label>>, shapes: seq<Shape>): Shape {
    if summed == [] then []
    else [FirstExtent(AllExtents(ins, shapes, summed[0]))] + SumShape(summed[1..], ins, shapes)
  }

  // ---- Elements ----

  function Lookup(labels: seq<Label>, idx: Index, l: Label): nat {
    if labels == [] || idx == [] then 0 else if labels[0] == l then idx[0] else Lookup(labels[1..], idx[1..], l)
  }

  /** Where one element of the sum reads an input: an output label broadcasts an
      extent of one, a summed label does not. */
  function InputIndex(labels: seq<Label>, shape: Shape, out: seq<Label>, at: Index, summed: seq<Label>, over: Index)
    : Index
  {
    if labels == [] || shape == [] then []
    else
      var l := labels[0];
      var x := if l !in out then Lookup(summed, over, l) else if shape[0] == 1 then 0 else Lookup(out, at, l);
      [x] + InputIndex(labels[1..], shape[1..], out, at, summed, over)
  }

  function Product(acc: Arithmetic, sofar: int, ins: seq<seq<Label>>, xs: seq<Tensor>, out: seq<Label>, at: Index,
                   summed: seq<Label>, over: Index): int
    decreases |ins|
  {
    if ins == [] || xs == [] then sofar
    else
      var x := At(xs[0], InputIndex(ins[0], ShapeOf(xs[0]), out, at, summed, over));
      Product(acc, acc.mul(sofar, x), ins[1..], xs[1..], out, at, summed, over)
  }

  function Prepended(i: nat, tails: seq<Index>): seq<Index> {
    if tails == [] then [] else [[i] + tails[0]] + Prepended(i, tails[1..])
  }

  /** The indices of `shape` in row-major order, those starting with `from` or more. */
  function Coordinates(shape: Shape, from: nat): seq<Index>
    decreases |shape|, if shape == [] then 0 else if from > shape[0] then 0 else shape[0] - from
  {
    if shape == [] then [[]]
    else if from >= shape[0] then []
    else Prepended(from, Coordinates(shape[1..], 0)) + Coordinates(shape, from + 1)
  }

  function Sum(acc: Arithmetic, sofar: int, overs: seq<Index>, ins: seq<seq<Label>>, xs: seq<Tensor>, out: seq<Label>,
               at: Index, summed: seq<Label>): int
    decreases |overs|
  {
    if overs == [] then sofar
    else
      var product := Product(acc, acc.one, ins, xs, out, at, summed, overs[0]);
      Sum(acc, acc.add(sofar, product), overs[1..], ins, xs, out, at, summed)
  }

  function Element(e: EinSum, xs: seq<Tensor>, at: Index): int {
    var summed := Summed(e.ins, e.out, []);
    var overs := Coordinates(SumShape(summed, e.ins, Shapes(xs)), 0);
    Sum(e.acc, e.acc.zero, overs, e.ins, xs, e.out, at, summed)
  }

  function Elements(e: EinSum, xs: seq<Tensor>): Index -> int {
    (at: Index) => Element(e, xs, at)
  }

  /** No read of this input can fall outside of it. */
  predicate InReach(labels: seq<Label>, shape: Shape, out: seq<Label>, ins: seq<seq<Label>>, shapes: seq<Shape>)
    decreases |labels|
  {
    |labels| == |shape|
    && (labels != [] ==>
      && (var extents := AllExtents(ins, shapes, labels[0]);
          if labels[0] in out then shape[0] == 1 || FirstNotOne(extents) <= shape[0] else FirstExtent(extents) <= shape[0])
      && InReach(labels[1..], shape[1..], out, ins, shapes))
  }

  predicate Reaches(e: EinSum, shapes: seq<Shape>) {
    |shapes| == |e.ins| && forall s | 0 <= s < |shapes| :: InReach(e.ins[s], shapes[s], e.out, e.ins, shapes)
  }

  function ApplyEinSum(e: EinSum, xs: seq<Tensor>): (r: Option<Tensor>)
    ensures r.Some? <==> Reaches(e, Shapes(xs))
    ensures r.Some? ==> IsTable(r.value, OutShape(e.out, e.ins, Shapes(xs)), Elements(e, xs))
  {
    if Reaches(e, Shapes(xs)) then Some(Tabulate(OutShape(e.out, e.ins, Shapes(xs)), Elements(e, xs))) else None
  }

  // ---- The batched one ----

  function LabelsOf(ins: seq<seq<Label>>): set<Label> {
    if ins == [] then {} else (set l | l in ins[0]) + LabelsOf(ins[1..])
  }

  /** The first label from `l` on that is not used. */
  function AvailableFrom(used: set<Label>, l: Label): (r: Label)
    ensures r !in used && r >= l
    decreases |used|
  {
    if l !in used then l else AvailableFrom(used - {l}, l + 1)
  }

  function Available(e: EinSum): (r: Label)
    ensures r !in LabelsOf(e.ins) && r !in e.out
  {
    AvailableFrom(LabelsOf(e.ins) + (set l | l in e.out), 0)
  }

  function Labelled(ins: seq<seq<Label>>, flags: seq<bool>, b: Label): (r: seq<seq<Label>>)
    requires |flags| == |ins|
    ensures |r| == |ins|
    ensures forall s | 0 <= s < |ins| :: r[s] == if flags[s] then [b] + ins[s] else ins[s]
  {
    if ins == [] then []
    else [if flags[0] then [b] + ins[0] else ins[0]] + Labelled(ins[1..], flags[1..], b)
  }

  /** `e` with a label of its own on axis 0 of the flagged inputs and the output. */
  function BatchedEinSum(e: EinSum, flags: seq<bool>): EinSum
    requires |flags| == |e.ins|
  {
    EinSum(Labelled(e.ins, flags, Available(e)), [Available(e)] + e.out, e.acc)
  }

  lemma {:induction false} LabelUsed(ins: seq<seq<Label>>, s: nat, l: Label)
    requires s < |ins| && l in ins[s]
    ensures l in LabelsOf(ins)
  {
    if s > 0 {
      LabelUsed(ins[1..], s - 1, l);
    }
  }

  lemma {:induction false} ExtentsLabelled(ins: seq<seq<Label>>, flags: seq<bool>, b: Label, shapes: seq<Shape>,
                                           n: nat, l: Label)
    requires |flags| == |ins| == |shapes| && l != b
    ensures AllExtents(Labelled(ins, flags, b), Widened(shapes, flags, n), l) == AllExtents(ins, shapes, l)
  {
    if ins != [] {
      ExtentsLabelled(ins[1..], flags[1..], b, shapes[1..], n, l);
      var wide := Widened(shapes, flags, n);
      assert wide[1..] == Widened(shapes[1..], flags[1..], n);
      if flags[0] {
        assert ([b] + ins[0])[1..] == ins[0] && ([n] + shapes[0])[1..] == shapes[0];
        assert [] + Extents(ins[0], shapes[0], l) == Extents(ins[0], shapes[0], l);
      }
    }
  }

  lemma {:induction false} ExtentsAbsent(labels: seq<Label>, shape: Shape, l: Label)
    requires l !in labels
    ensures Extents(labels, shape, l) == []
  {
    if labels != [] && shape != [] {
      ExtentsAbsent(labels[1..], shape[1..], l);
    }
  }

  /** The batch label's extents in one input: the number of seats, if it is flagged. */
  lemma OneBatchExtent(labels: seq<Label>, flag: bool, b: Label, shape: Shape, n: nat)
    requires b !in labels
    ensures Extents(if flag then [b] + labels else labels, if flag then [n] + shape else shape, b) == if flag then [n] else []
  {
    ExtentsAbsent(labels, shape, b);
    if flag {
      assert ([b] + labels)[1..] == labels && ([n] + shape)[1..] == shape;
    }
  }

  predicate AllAre(extents: seq<nat>, n: nat) {
    forall k | 0 <= k < |extents| :: extents[k] == n
  }

  lemma MoreAre(n: nat, rest: seq<nat>)
    requires AllAre(rest, n)
    ensures AllAre([n] + rest, n)
  {}

  lemma UnusedBelow(ins: seq<seq<Label>>, b: Label)
    requires ins != [] && b !in LabelsOf(ins)
    ensures b !in ins[0] && b !in LabelsOf(ins[1..])
  {}

  lemma ExtentsByInput(ins: seq<seq<Label>>, shapes: seq<Shape>, l: Label)
    requires ins != [] && shapes != []
    ensures AllExtents(ins, shapes, l) == Extents(ins[0], shapes[0], l) + AllExtents(ins[1..], shapes[1..], l)
  {}

  lemma BatchedByInput(ins: seq<seq<Label>>, flags: seq<bool>, b: Label, shapes: seq<Shape>, n: nat)
    requires |flags| == |ins| == |shapes| > 0
    ensures Labelled(ins, flags, b)[1..] == Labelled(ins[1..], flags[1..], b)
    ensures Widened(shapes, flags, n)[1..] == Widened(shapes[1..], flags[1..], n)
  {}

  /** One input more, flagged or not. */
  lemma BatchExtentsOfMore(ins: seq<seq<Label>>, flags: seq<bool>, b: Label, shapes: seq<Shape>, n: nat)
    requires |flags| == |ins| == |shapes| > 0 && b !in LabelsOf(ins)
    ensures AllExtents(Labelled(ins, flags, b), Widened(shapes, flags, n), b)
            == (if flags[0] then [n] else [])
               + AllExtents(Labelled(ins[1..], flags[1..], b), Widened(shapes[1..], flags[1..], n), b)
  {
    hide Extents, AllExtents, LabelsOf, Labelled, Widened;
    UnusedBelow(ins, b);
    OneBatchExtent(ins[0], flags[0], b, shapes[0], n);
    BatchedByInput(ins, flags, b, shapes, n);
    ExtentsByInput(Labelled(ins, flags, b), Widened(shapes, flags, n), b);
  }

  /** The batch label's extents: one per flagged input, each the number of seats. */
  lemma {:induction false} BatchExtents(ins: seq<seq<Label>>, flags: seq<bool>, b: Label, shapes: seq<Shape>, n: nat)
    requires |flags| == |ins| == |shapes| && b !in LabelsOf(ins)
    ensures AllAre(AllExtents(Labelled(ins, flags, b), Widened(shapes, flags, n), b), n)
    ensures true in flags ==> AllExtents(Labelled(ins, flags, b), Widened(shapes, flags, n), b) != []
  {
    if ins != [] {
      UnusedBelow(ins, b);
      BatchExtents(ins[1..], flags[1..], b, shapes[1..], n);
      BatchExtentsOfMore(ins, flags, b, shapes, n);
      var all := AllExtents(Labelled(ins, flags, b), Widened(shapes, flags, n), b);
      var rest := AllExtents(Labelled(ins[1..], flags[1..], b), Widened(shapes[1..], flags[1..], n), b);
      if flags[0] {
        MoreAre(n, rest);
        assert all == [n] + rest;
      } else {
        assert all == rest;
        assert true in flags ==> true in flags[1..];
      }
    }
  }

  lemma {:induction false} AllOfThem(extents: seq<nat>, n: nat)
    requires extents != [] && AllAre(extents, n)
    ensures FirstNotOne(extents) == n && FirstExtent(extents) == n
  {
    if |extents| > 1 {
      assert forall k | 0 <= k < |extents[1..]| :: extents[1..][k] == extents[k + 1];
      AllOfThem(extents[1..], n);
    }
  }

  lemma {:induction false} OutShapeLabelled(out: seq<Label>, ins: seq<seq<Label>>, flags: seq<bool>, b: Label,
                                            shapes: seq<Shape>, n: nat)
    requires |flags| == |ins| == |shapes| && b !in out
    ensures OutShape(out, Labelled(ins, flags, b), Widened(shapes, flags, n)) == OutShape(out, ins, shapes)
  {
    if out != [] {
      OutShapeLabelled(out[1..], ins, flags, b, shapes, n);
      ExtentsLabelled(ins, flags, b, shapes, n, out[0]);
    }
  }

  lemma {:induction false} SumShapeLabelled(summed: seq<Label>, ins: seq<seq<Label>>, flags: seq<bool>, b: Label,
                                            shapes: seq<Shape>, n: nat)
    requires |flags| == |ins| == |shapes| && b !in summed
    ensures SumShape(summed, Labelled(ins, flags, b), Widened(shapes, flags, n)) == SumShape(summed, ins, shapes)
  {
    if summed != [] {
      SumShapeLabelled(summed[1..], ins, flags, b, shapes, n);
      ExtentsLabelled(ins, flags, b, shapes, n, summed[0]);
    }
  }

  lemma {:induction false} SummedInLabelled(labels: seq<Label>, out: seq<Label>, b: Label, found: seq<Label>)
    requires b !in labels && b !in found
    ensures SummedIn(labels, [b] + out, found) == SummedIn(labels, out, found)
    ensures b !in SummedIn(labels, out, found)
    decreases |labels|
  {
    if labels != [] {
      assert labels[0] in [b] + out <==> labels[0] in out;
      SummedInLabelled(labels[1..], out, b, if labels[0] in out || labels[0] in found then found else found + [labels[0]]);
    }
  }

  lemma {:induction false} SummedLabelled(ins: seq<seq<Label>>, flags: seq<bool>, out: seq<Label>, b: Label,
                                          found: seq<Label>)
    requires |flags| == |ins| && b !in LabelsOf(ins) && b !in found
    ensures Summed(Labelled(ins, flags, b), [b] + out, found) == Summed(ins, out, found)
    ensures b !in Summed(ins, out, found)
    decreases |ins|
  {
    if ins != [] {
      SummedInLabelled(ins[0], out, b, found);
      if flags[0] {
        assert ([b] + ins[0])[1..] == ins[0] && b in [b] + out;
      }
      SummedLabelled(ins[1..], flags[1..], out, b, SummedIn(ins[0], out, found));
    }
  }

  /** The seats' element read through the batched labels. */
  lemma {:induction false} IndexLabelled(labels: seq<Label>, shape: Shape, out: seq<Label>, b: Label, i: nat, at: Index,
                                         summed: seq<Label>, over: Index)
    requires b !in labels
    ensures InputIndex(labels, shape, [b] + out, [i] + at, summed, over)
            == InputIndex(labels, shape, out, at, summed, over)
    decreases |labels|
  {
    if labels != [] && shape != [] {
      assert labels[0] in [b] + out <==> labels[0] in out;
      assert ([b] + out)[1..] == out && ([i] + at)[1..] == at;
      IndexLabelled(labels[1..], shape[1..], out, b, i, at, summed, over);
    }
  }

  lemma IndexBatched(labels: seq<Label>, shape: Shape, n: nat, out: seq<Label>, b: Label, i: nat, at: Index,
                     summed: seq<Label>, over: Index)
    requires b !in labels && i < n
    ensures InputIndex([b] + labels, [n] + shape, [b] + out, [i] + at, summed, over)
            == [i] + InputIndex(labels, shape, out, at, summed, over)
  {
    IndexLabelled(labels, shape, out, b, i, at, summed, over);
    assert ([b] + labels)[1..] == labels && ([n] + shape)[1..] == shape;
    assert b in [b] + out;
  }

  lemma {:induction false} ProductBatched(acc: Arithmetic, sofar: int, ins: seq<seq<Label>>, flags: seq<bool>, b: Label,
                                          xs: seq<Tensor>, ys: seq<Tensor>, n: nat, i: nat, out: seq<Label>, at: Index,
                                          summed: seq<Label>, over: Index)
    requires |flags| == |ins| == |xs| == |ys| && b !in LabelsOf(ins) && i < n
    requires forall s | 0 <= s < |xs| :: HoldsSeat(ys[s], flags[s], xs[s], n, i)
    ensures Product(acc, sofar, Labelled(ins, flags, b), ys, [b] + out, [i] + at, summed, over)
            == Product(acc, sofar, ins, xs, out, at, summed, over)
    decreases |ins|
  {
    if ins != [] {
      var here := InputIndex(ins[0], ShapeOf(xs[0]), out, at, summed, over);
      assert HoldsSeat(ys[0], flags[0], xs[0], n, i);
      if flags[0] {
        IndexBatched(ins[0], ShapeOf(xs[0]), n, out, b, i, at, summed, over);
        SeatHeld(ys[0], xs[0], n, i, here);
      } else {
        IndexLabelled(ins[0], ShapeOf(xs[0]), out, b, i, at, summed, over);
      }
      forall s | 0 <= s < |xs[1..]|
        ensures HoldsSeat(ys[1..][s], flags[1..][s], xs[1..][s], n, i)
      {
        assert HoldsSeat(ys[s + 1], flags[s + 1], xs[s + 1], n, i);
      }
      ProductBatched(acc, acc.mul(sofar, At(xs[0], here)), ins[1..], flags[1..], b, xs[1..], ys[1..], n, i, out, at,
                     summed, over);
    }
  }

  lemma {:induction false} SumBatched(acc: Arithmetic, sofar: int, overs: seq<Index>, ins: seq<seq<Label>>,
                                      flags: seq<bool>, b: Label, xs: seq<Tensor>, ys: seq<Tensor>, n: nat, i: nat,
                                      out: seq<Label>, at: Index, summed: seq<Label>)
    requires |flags| == |ins| == |xs| == |ys| && b !in LabelsOf(ins) && i < n
    requires forall s | 0 <= s < |xs| :: HoldsSeat(ys[s], flags[s], xs[s], n, i)
    ensures Sum(acc, sofar, overs, Labelled(ins, flags, b), ys, [b] + out, [i] + at, summed)
            == Sum(acc, sofar, overs, ins, xs, out, at, summed)
    decreases |overs|
  {
    if overs != [] {
      ProductBatched(acc, acc.one, ins, flags, b, xs, ys, n, i, out, at, summed, overs[0]);
      SumBatched(acc, acc.add(sofar, Product(acc, acc.one, ins, xs, out, at, summed, overs[0])), overs[1..], ins, flags,
                 b, xs, ys, n, i, out, at, summed);
    }
  }

  lemma ElementBatched(e: EinSum, flags: seq<bool>, xs: seq<Tensor>, ys: seq<Tensor>, n: nat, i: nat, at: Index)
    requires |flags| == |e.ins| == |xs| == |ys| && i < n
    requires forall s | 0 <= s < |xs| :: HoldsSeat(ys[s], flags[s], xs[s], n, i)
    requires Shapes(ys) == Widened(Shapes(xs), flags, n)
    ensures Element(BatchedEinSum(e, flags), ys, [i] + at) == Element(e, xs, at)
  {
    var b := Available(e);
    SummedLabelled(e.ins, flags, e.out, b, []);
    var summed := Summed(e.ins, e.out, []);
    SumShapeLabelled(summed, e.ins, flags, b, Shapes(xs), n);
    SumBatched(e.acc, e.acc.zero, Coordinates(SumShape(summed, e.ins, Shapes(xs)), 0), e.ins, flags, b, xs, ys, n, i,
               e.out, at, summed);
  }

  lemma {:induction false} InReachLabelled(labels: seq<Label>, shape: Shape, out: seq<Label>, ins: seq<seq<Label>>,
                                           flags: seq<bool>, b: Label, shapes: seq<Shape>, n: nat)
    requires |flags| == |ins| == |shapes| && b !in labels && InReach(labels, shape, out, ins, shapes)
    ensures InReach(labels, shape, [b] + out, Labelled(ins, flags, b), Widened(shapes, flags, n))
    decreases |labels|
  {
    if labels != [] {
      ExtentsLabelled(ins, flags, b, shapes, n, labels[0]);
      assert labels[0] in [b] + out <==> labels[0] in out;
      InReachLabelled(labels[1..], shape[1..], out, ins, flags, b, shapes, n);
    }
  }

  lemma ReachesBatched(e: EinSum, flags: seq<bool>, shapes: seq<Shape>, n: nat)
    requires |flags| == |e.ins| && Reaches(e, shapes)
    ensures Reaches(BatchedEinSum(e, flags), Widened(shapes, flags, n))
  {
    var b := Available(e);
    var wide := Widened(shapes, flags, n);
    var batched := BatchedEinSum(e, flags);
    forall s | 0 <= s < |wide|
      ensures InReach(batched.ins[s], wide[s], batched.out, batched.ins, wide)
    {
      if b in e.ins[s] {
        LabelUsed(e.ins, s, b);
      }
      assert InReach(e.ins[s], shapes[s], e.out, e.ins, shapes);
      InReachLabelled(e.ins[s], shapes[s], e.out, e.ins, flags, b, shapes, n);
      if flags[s] {
        BatchExtents(e.ins, flags, b, shapes, n);
        AllOfThem(AllExtents(batched.ins, wide, b), n);
        assert ([b] + e.ins[s])[1..] == e.ins[s] && ([n] + shapes[s])[1..] == shapes[s];
      }
    }
  }

  /** The batched sum of the stacked inputs is the stack of the seats' sums, however
      many seats there are and whichever inputs are stacked. */
  lemma EinSumLifts(e: EinSum, flags: seq<bool>, seats: seq<seq<Tensor>>, outs: seq<Tensor>)
    requires Seated(seats, flags) && |flags| == |e.ins| && true in flags
    requires |outs| == |seats| && forall i | 0 <= i < |seats| :: ApplyEinSum(e, seats[i]) == Some(outs[i])
    ensures Alike(outs)
    ensures ApplyEinSum(BatchedEinSum(e, flags), Gathered(seats, flags)) == Some(Stack(outs))
  {
    hide Elements, IsTable, ReadsSeat, Element, OutShape, AllExtents;
    var n, b := |seats|, Available(e);
    var shapes := Shapes(seats[0]);
    var ys := Gathered(seats, flags);
    var batched := BatchedEinSum(e, flags);
    GatheredShapes(seats, flags);
    assert ApplyEinSum(e, seats[0]) == Some(outs[0]);
    ReachesBatched(e, flags, shapes, n);
    var after := OutShape(e.out, e.ins, shapes);
    BatchedShape(e, flags, shapes, n);
    var f := Elements(batched, ys);
    forall i | 0 <= i < n
      ensures ReadsSeat(f, i, outs[i], after)
    {
      assert ApplyEinSum(e, seats[i]) == Some(outs[i]);
      SeatShapes(seats, flags, i);
      ElementsReadSeat(e, flags, seats, i, outs[i]);
    }
    TableStacks(ApplyEinSum(batched, ys).value, outs, after, f);
  }

  lemma BatchedShape(e: EinSum, flags: seq<bool>, shapes: seq<Shape>, n: nat)
    requires |flags| == |e.ins| == |shapes| && true in flags
    ensures var batched := BatchedEinSum(e, flags);
            OutShape(batched.out, batched.ins, Widened(shapes, flags, n)) == [n] + OutShape(e.out, e.ins, shapes)
  {
    var b := Available(e);
    var batched := BatchedEinSum(e, flags);
    OutShapeLabelled(e.out, e.ins, flags, b, shapes, n);
    BatchExtents(e.ins, flags, b, shapes, n);
    AllOfThem(AllExtents(batched.ins, Widened(shapes, flags, n), b), n);
    assert batched.out[1..] == e.out;
  }

  lemma ElementsAt(e: EinSum, xs: seq<Tensor>, at: Index)
    ensures Elements(e, xs)(at) == Element(e, xs, at)
  {}

  lemma ElementsReadSeat(e: EinSum, flags: seq<bool>, seats: seq<seq<Tensor>>, i: nat, out: Tensor)
    requires Seated(seats, flags) && |flags| == |e.ins| && i < |seats|
    requires IsTable(out, OutShape(e.out, e.ins, Shapes(seats[i])), Elements(e, seats[i]))
    ensures ReadsSeat(Elements(BatchedEinSum(e, flags), Gathered(seats, flags)), i, out,
                      OutShape(e.out, e.ins, Shapes(seats[i])))
  {
    hide Elements, Element, OutShape, AllExtents, BatchedEinSum;
    var ys := Gathered(seats, flags);
    var batched := BatchedEinSum(e, flags);
    var shape := OutShape(e.out, e.ins, Shapes(seats[i]));
    GatheredShapes(seats, flags);
    SeatShapes(seats, flags, i);
    GatheredHolds(seats, flags, i);
    forall at | InShape(at, shape)
      ensures Elements(batched, ys)([i] + at) == At(out, at)
    {
      ElementsAt(batched, ys, [i] + at);
      ElementsAt(e, seats[i], at);
      TableAt(out, shape, Elements(e, seats[i]), at);
      ElementBatched(e, flags, seats[i], ys, |seats|, i, at);
    }
  }
}
