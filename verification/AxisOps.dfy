/** The four edits of a tensor's axes, by what each output element reads, and the
    same edit one axis further up, which is how a batch on axis 0 is hosted. */
module AxisOps {
  import opened Outcomes
  import opened Tensors
  import opened Indexing

  datatype AxisOp =
    | Add(axis: nat)
    | Rm(axis: nat)
    | Move(from: nat, to: nat)
    | Reshape(at: nat, before: Shape, after: Shape)

  function Volume(shape: Shape): nat {
    if shape == [] then 1 else shape[0] * Volume(shape[1..])
  }

  predicate AllOnes(shape: Shape) {
    forall k | 0 <= k < |shape| :: shape[k] == 1
  }

  function Ones(n: nat): (r: Shape)
    ensures |r| == n
  {
    seq(n, _ => 1)
  }

  function RemoveAt(s: seq<nat>, k: nat): seq<nat> {
    if k < |s| then s[..k] + s[k + 1..] else s
  }

  function InsertAt(s: seq<nat>, k: nat, x: nat): seq<nat> {
    if k <= |s| then s[..k] + [x] + s[k..] else s
  }

  /** `AxisOp::canonical`: reshapes that only add or drop an axis of one. */
  function Canonical(op: AxisOp): AxisOp {
    match op
    case Move(from, to) => if from == to + 1 then Move(to, from) else op
    case Reshape(at, before, after) =>
      if |before| == 1 && |after| == 2 && before[0] == after[0] && after[1] == 1 then Add(at + 1)
      else if |before| == 1 && |after| == 2 && before[0] == after[1] && after[0] == 1 then Add(at)
      else if |before| == 2 && |after| == 1 && before[0] == after[0] && before[1] == 1 then Rm(at + 1)
      else if |before| == 2 && |after| == 1 && before[1] == after[0] && before[0] == 1 then Rm(at)
      else op
    case _ => op
  }

  /** The shape after a canonical edit, if it applies. A reshape whose axes are all
      ones reshapes them to as many ones as it makes axes. */
  function ChangedShape(op: AxisOp, shape: Shape): Option<Shape> {
    match op
    case Add(a) => if a <= |shape| then Some(InsertAt(shape, a, 1)) else None
    case Rm(a) => if a < |shape| && shape[a] == 1 then Some(RemoveAt(shape, a)) else None
    case Move(from, to) =>
      if from < |shape| && to < |shape| then Some(InsertAt(RemoveAt(shape, from), to, shape[from])) else None
    case Reshape(at, before, after) => ReshapedShape(at, before, after, shape)
  }

  function ReshapedShape(at: nat, before: Shape, after: Shape, shape: Shape): Option<Shape> {
    if Volume(before) != Volume(after) || at + |before| > |shape| then None
    else if shape[at..at + |before|] == before then Some(shape[..at] + after + shape[at + |before|..])
    else if AllOnes(shape[at..at + |before|]) then Some(shape[..at] + Ones(|after|) + shape[at + |before|..])
    else None
  }

  /** Row-major position of `idx` in `shape`. */
  function Ravel(idx: Index, shape: Shape): nat
    decreases |idx|
  {
    if idx == [] || shape == [] then 0 else idx[0] * Volume(shape[1..]) + Ravel(idx[1..], shape[1..])
  }

  function Unravel(n: nat, shape: Shape): Index {
    if shape == [] then []
    else
      var stride := Volume(shape[1..]);
      if stride == 0 then [0] + Unravel(0, shape[1..])
      else [n / stride] + Unravel(n % stride, shape[1..])
  }

  /** Which element of the input the output reads at `idx`. */
  function SourceIndex(op: AxisOp, shape: Shape, idx: Index): Index {
    match op
    case Add(a) => RemoveAt(idx, a)
    case Rm(a) => InsertAt(idx, a, 0)
    case Move(from, to) => if to < |idx| then InsertAt(RemoveAt(idx, to), from, idx[to]) else idx
    case Reshape(at, before, after) => ReshapeSource(at, before, after, shape, idx)
  }

  /** Reads the same row-major position of the reshaped axes. */
  function ReshapeSource(at: nat, before: Shape, after: Shape, shape: Shape, idx: Index): Index {
    if at + |after| <= |idx| && at + |before| <= |shape| then
      var made := if shape[at..at + |before|] == before then after else Ones(|after|);
      idx[..at] + Rewound(idx[at..at + |after|], made, shape[at..at + |before|]) + idx[at + |after|..]
    else idx
  }

  /** The index of `read` at the row-major position `idx` has in `made`. */
  function Rewound(idx: Index, made: Shape, read: Shape): Index {
    Unravel(Ravel(idx, made), read)
  }

  /** `AxisOp::required_rank`, of the edit as it is written. */
  function RequiredRank(op: AxisOp): nat {
    match op
    case Add(a) => a
    case Rm(a) => a + 1
    case Move(from, to) => if from > to then from else to
    case Reshape(at, before, _) => at + |before|
  }

  predicate Applies(op: AxisOp, shape: Shape) {
    RequiredRank(op) <= |shape| && ChangedShape(Canonical(op), shape).Some?
  }

  /** `AxisOp::eval`: the edit in its canonical form, or nothing when it misfits. */
  function ApplyAxis(op: AxisOp, t: Tensor): (r: Option<Tensor>)
    ensures r.Some? <==> Applies(op, ShapeOf(t))
    ensures r.Some? ==> IsTable(r.value, ChangedShape(Canonical(op), ShapeOf(t)).value, Reader(Canonical(op), t))
  {
    if !Applies(op, ShapeOf(t)) then None
    else
      var edit := Canonical(op);
      Some(Tabulate(ChangedShape(edit, ShapeOf(t)).value, Reader(edit, t)))
  }

  function Reader(edit: AxisOp, t: Tensor): Index -> int {
    (idx: Index) => At(t, SourceIndex(edit, ShapeOf(t), idx))
  }

  /** The edit one axis further up. */
  function Shifted(op: AxisOp): AxisOp {
    match op
    case Add(a) => Add(a + 1)
    case Rm(a) => Rm(a + 1)
    case Move(from, to) => Move(from + 1, to + 1)
    case Reshape(at, before, after) => Reshape(at + 1, before, after)
  }

  lemma RemoveAtFront(x: nat, s: seq<nat>)
    ensures RemoveAt([x] + s, 0) == s
  {
    assert ([x] + s)[..0] == [] && ([x] + s)[1..] == s;
  }

  lemma RemoveAtCons(x: nat, s: seq<nat>, k: nat)
    ensures RemoveAt([x] + s, k + 1) == [x] + RemoveAt(s, k)
  {
    if k < |s| {
      assert ([x] + s)[..k + 1] == [x] + s[..k];
      assert ([x] + s)[k + 2..] == s[k + 1..];
    }
  }

  lemma InsertAtCons(x: nat, s: seq<nat>, k: nat, y: nat)
    ensures InsertAt([x] + s, k + 1, y) == [x] + InsertAt(s, k, y)
    ensures InsertAt(s, 0, x) == [x] + s
  {
    if k <= |s| {
      assert ([x] + s)[..k + 1] == [x] + s[..k];
      assert ([x] + s)[k + 1..] == s[k..];
    }
  }

  lemma InsertUndoesRemove(s: seq<nat>, k: nat)
    requires k < |s|
    ensures InsertAt(RemoveAt(s, k), k, s[k]) == s
  {}

  lemma ShiftedCanonical(op: AxisOp)
    ensures Canonical(Shifted(op)) == Shifted(Canonical(op))
  {}

  /** A cut of three, one element further in. */
  lemma SliceCons(x: nat, s: seq<nat>, at: nat, n: nat)
    requires at + n <= |s|
    ensures ([x] + s)[..at + 1] == [x] + s[..at]
    ensures ([x] + s)[at + 1..at + 1 + n] == s[at..at + n]
    ensures ([x] + s)[at + 1 + n..] == s[at + n..]
  {}

  lemma ShiftedReshapedShape(at: nat, before: Shape, after: Shape, n: nat, shape: Shape)
    ensures var r := ReshapedShape(at, before, after, shape);
            ReshapedShape(at + 1, before, after, [n] + shape) == if r.Some? then Some([n] + r.value) else None
  {
    hide Volume, Ones;
    if at + |before| <= |shape| {
      SliceCons(n, shape, at, |before|);
      var head, tail := shape[..at], shape[at + |before|..];
      assert ([n] + head) + after + tail == [n] + (head + after + tail);
      assert ([n] + head) + Ones(|after|) + tail == [n] + (head + Ones(|after|) + tail);
    }
  }

  lemma ShiftedShape(op: AxisOp, n: nat, shape: Shape)
    ensures var r := ChangedShape(op, shape);
            ChangedShape(Shifted(op), [n] + shape) == if r.Some? then Some([n] + r.value) else None
  {
    hide ReshapedShape, Volume, InsertAt, RemoveAt;
    match op {
      case Add(a) => InsertAtCons(n, shape, a, 1);
      case Rm(a) => RemoveAtCons(n, shape, a);
      case Move(from, to) =>
        RemoveAtCons(n, shape, from);
        if from < |shape| {
          InsertAtCons(n, RemoveAt(shape, from), to, shape[from]);
        }
      case Reshape(at, before, after) => ShiftedReshapedShape(at, before, after, n, shape);
    }
  }

  lemma ConsOfThree(x: nat, a: seq<nat>, b: seq<nat>, c: seq<nat>)
    ensures ([x] + a) + b + c == [x] + (a + b + c)
  {}

  lemma ReshapeSourceIs(at: nat, before: Shape, after: Shape, shape: Shape, idx: Index, read: Shape, made: Shape)
    requires at + |before| <= |shape| && at + |after| <= |idx| && read == shape[at..at + |before|]
    requires made == (if read == before then after else Ones(|after|))
    ensures ReshapeSource(at, before, after, shape, idx)
            == idx[..at] + Rewound(idx[at..at + |after|], made, read) + idx[at + |after|..]
  {}

  lemma ShiftedReshapeSource(at: nat, before: Shape, after: Shape, n: nat, shape: Shape, i: nat, idx: Index)
    requires at + |before| <= |shape| && at + |after| <= |idx|
    ensures ReshapeSource(at + 1, before, after, [n] + shape, [i] + idx)
            == [i] + ReshapeSource(at, before, after, shape, idx)
  {
    hide ReshapeSource, Rewound, Ones;
    var read := shape[at..at + |before|];
    var made := if read == before then after else Ones(|after|);
    SliceCons(n, shape, at, |before|);
    SliceCons(i, idx, at, |after|);
    ReshapeSourceIs(at, before, after, shape, idx, read, made);
    ReshapeSourceIs(at + 1, before, after, [n] + shape, [i] + idx, read, made);
    ConsOfThree(i, idx[..at], Rewound(idx[at..at + |after|], made, read), idx[at + |after|..]);
  }

  /** An index of the edited shape reaches as far as the edit does. */
  lemma ReadsWithin(op: AxisOp, shape: Shape, idx: Index)
    requires ChangedShape(op, shape).Some? && |idx| == |ChangedShape(op, shape).value|
    ensures op.Move? ==> op.to < |idx|
    ensures op.Reshape? ==> op.at + |op.before| <= |shape| && op.at + |op.after| <= |idx|
  {
    hide Volume, AllOnes;
  }

  lemma ShiftedSource(op: AxisOp, n: nat, shape: Shape, i: nat, idx: Index)
    requires ChangedShape(op, shape).Some? && |idx| == |ChangedShape(op, shape).value|
    ensures SourceIndex(Shifted(op), [n] + shape, [i] + idx) == [i] + SourceIndex(op, shape, idx)
  {
    hide Volume, Rewound, ReshapeSource, InsertAt, RemoveAt, ReshapedShape;
    ReadsWithin(op, shape, idx);
    match op {
      case Add(a) => RemoveAtCons(i, idx, a);
      case Rm(a) => InsertAtCons(i, idx, a, 0);
      case Move(from, to) =>
        RemoveAtCons(i, idx, to);
        InsertAtCons(i, RemoveAt(idx, to), from, idx[to]);
      case Reshape(at, before, after) => ShiftedReshapeSource(at, before, after, n, shape, i, idx);
    }
  }

  lemma AddReads(a: nat, t: Tensor, idx: Index)
    ensures Reader(Add(a), t)(idx) == At(t, RemoveAt(idx, a))
  {}

  lemma MoveReads(from: nat, to: nat, t: Tensor, idx: Index)
    requires to < |idx|
    ensures Reader(Move(from, to), t)(idx) == At(t, InsertAt(RemoveAt(idx, to), from, idx[to]))
  {}

  lemma EditReads(edit: AxisOp, t: Tensor, idx: Index)
    ensures Reader(edit, t)(idx) == At(t, SourceIndex(edit, ShapeOf(t), idx))
  {}

  lemma EditReadsSeat(edit: AxisOp, seats: seq<Tensor>, i: nat, after: Shape, out: Tensor)
    requires Alike(seats) && i < |seats| && ChangedShape(edit, ShapeOf(seats[0])) == Some(after)
    requires IsTable(out, after, Reader(edit, seats[i]))
    ensures ReadsSeat(Reader(Shifted(edit), Stack(seats)), i, out, after)
  {
    hide Reader;
    var before := ShapeOf(seats[0]);
    forall idx | InShape(idx, after)
      ensures Reader(Shifted(edit), Stack(seats))([i] + idx) == At(out, idx)
    {
      EditReads(Shifted(edit), Stack(seats), [i] + idx);
      ShiftedSource(edit, |seats|, before, i, idx);
      AtStack(seats, i, SourceIndex(edit, before, idx));
      EditReads(edit, seats[i], idx);
      TableAt(out, after, Reader(edit, seats[i]), idx);
    }
  }

  /** An axis edit carries the batch through when shifted up: editing the stack of
      the seats is stacking the edited seats. */
  lemma AxisOpLifts(op: AxisOp, seats: seq<Tensor>, outs: seq<Tensor>)
    requires Alike(seats) && |outs| == |seats|
    requires forall i | 0 <= i < |seats| :: ApplyAxis(op, seats[i]) == Some(outs[i])
    ensures Alike(outs)
    ensures ApplyAxis(Shifted(op), Stack(seats)) == Some(Stack(outs))
  {
    hide Reader;
    var edit := Canonical(op);
    var before := ShapeOf(seats[0]);
    assert ApplyAxis(op, seats[0]) == Some(outs[0]);
    var after := ChangedShape(edit, before).value;
    ShiftedCanonical(op);
    ShiftedShape(edit, |seats|, before);
    StackIsSound(seats);
    var f := Reader(Shifted(edit), Stack(seats));
    forall i | 0 <= i < |seats|
      ensures ReadsSeat(f, i, outs[i], after)
    {
      assert ApplyAxis(op, seats[i]) == Some(outs[i]);
      EditReadsSeat(edit, seats, i, after, outs[i]);
    }
    TableStacks(ApplyAxis(Shifted(op), Stack(seats)).value, outs, after, f);
  }

  /** `Add(0)` puts a leading axis of one in front. */
  lemma AddZeroReads(t: Tensor)
    requires Sound(t)
    ensures ReadsSeat(Reader(Add(0), t), 0, t, ShapeOf(t))
  {
    hide Reader, RemoveAt, At;
    var f := Reader(Add(0), t);
    forall idx | InShape(idx, ShapeOf(t))
      ensures f([0] + idx) == At(t, idx)
    {
      RemoveAtFront(0, idx);
      AddReads(0, t, [0] + idx);
    }
  }

  lemma AddZeroInserts(t: Tensor)
    requires Sound(t)
    ensures ApplyAxis(Add(0), t) == Some(InsertAxis0(t))
  {
    hide Reader, ReadsSeat, IsTable;
    var shape := ShapeOf(t);
    InsertAtCons(1, shape, 0, 1);
    AddZeroReads(t);
    TableStacks(ApplyAxis(Add(0), t).value, [t], shape, Reader(Add(0), t));
  }

  // ---- Moving the batch to the front of an input which has it already ----

  /** Moving axis 1 to the front is the swap moving axis 0 behind it. */
  lemma FrontSwap(there: Index)
    requires |there| > 0
    ensures RemoveAt(there, 0) == there[1..]
    ensures |there| > 1 ==> InsertAt(RemoveAt(there, 1), 0, there[1]) == InsertAt(there[1..], 1, there[0])
  {
    if |there| > 1 {
      assert RemoveAt(there, 1) == [there[0]] + there[2..];
    }
  }

  /** `t` with `axis` in front. */
  lemma MovedToFront(axis: nat, t: Tensor)
    requires Sound(t) && axis < |ShapeOf(t)|
    ensures var r := ApplyAxis(Move(axis, 0), t);
            var front := [ShapeOf(t)[axis]] + RemoveAt(ShapeOf(t), axis);
            && r.Some? && Sound(r.value) && ShapeOf(r.value) == front
            && forall there: Index | InShape(there, front) ::
                 At(r.value, there) == At(t, InsertAt(there[1..], axis, there[0]))
  {
    hide Reader;
    var shape := ShapeOf(t);
    var front := [shape[axis]] + RemoveAt(shape, axis);
    var edit := Canonical(Move(axis, 0));
    InsertAtCons(shape[axis], RemoveAt(shape, axis), 0, 0);
    if axis == 1 {
      assert InsertAt(RemoveAt(shape, 0), 1, shape[0]) == front;
    }
    assert ChangedShape(edit, shape) == Some(front);
    var moved := ApplyAxis(Move(axis, 0), t).value;
    forall there: Index | InShape(there, front)
      ensures At(moved, there) == At(t, InsertAt(there[1..], axis, there[0]))
    {
      FrontSwap(there);
      if axis == 1 {
        MoveReads(0, 1, t, there);
      } else {
        MoveReads(axis, 0, t, there);
      }
    }
  }

  lemma MovedBack(axis: nat, moved: Tensor, shape: Shape)
    requires Sound(moved) && axis < |shape|
    requires ShapeOf(moved) == [shape[axis]] + RemoveAt(shape, axis)
    ensures var r := ApplyAxis(Move(0, axis), moved);
            && r.Some? && Sound(r.value) && ShapeOf(r.value) == shape
            && forall idx: Index | InShape(idx, shape) ::
                 At(r.value, idx) == At(moved, [idx[axis]] + RemoveAt(idx, axis))
  {
    hide Reader;
    var front := ShapeOf(moved);
    RemoveAtFront(shape[axis], RemoveAt(shape, axis));
    InsertUndoesRemove(shape, axis);
    assert ChangedShape(Move(0, axis), front) == Some(shape);
    var back := ApplyAxis(Move(0, axis), moved).value;
    forall idx: Index | InShape(idx, shape)
      ensures At(back, idx) == At(moved, [idx[axis]] + RemoveAt(idx, axis))
    {
      MoveReads(0, axis, moved, idx);
      InsertAtCons(idx[axis], RemoveAt(idx, axis), 0, 0);
    }
  }

  lemma FrontIndex(idx: Index, shape: Shape, axis: nat)
    requires InShape(idx, shape) && axis < |shape|
    ensures InShape([idx[axis]] + RemoveAt(idx, axis), [shape[axis]] + RemoveAt(shape, axis))
  {
    var there, front := RemoveAt(idx, axis), RemoveAt(shape, axis);
    forall k | 0 <= k < |front|
      ensures there[k] < front[k]
    {
      assert there[k] == (if k < axis then idx[k] else idx[k + 1]);
      assert front[k] == (if k < axis then shape[k] else shape[k + 1]);
    }
    assert InShape(there, front);
  }

  /** Moving an axis to the front and back again is no edit at all. */
  lemma MoveUndone(axis: nat, t: Tensor)
    requires Sound(t) && axis < |ShapeOf(t)|
    ensures ApplyAxis(Move(axis, 0), t).Some?
    ensures Sound(ApplyAxis(Move(axis, 0), t).value)
    ensures ApplyAxis(Move(0, axis), ApplyAxis(Move(axis, 0), t).value) == Some(t)
  {
    hide Reader, ChangedShape, Canonical, InsertAt, IsTable, ApplyAxis;
    var shape := ShapeOf(t);
    MovedToFront(axis, t);
    var moved := ApplyAxis(Move(axis, 0), t).value;
    MovedBack(axis, moved, shape);
    var back := ApplyAxis(Move(0, axis), moved).value;
    forall idx | InShape(idx, shape)
      ensures At(back, idx) == At(t, idx)
    {
      FrontIndex(idx, shape, axis);
      var there := [idx[axis]] + RemoveAt(idx, axis);
      InsertUndoesRemove(idx, axis);
      assert there[1..] == RemoveAt(idx, axis) && there[0] == idx[axis];
      assert At(back, idx) == At(moved, there);
    }
    Extensional(back, t);
  }
}
