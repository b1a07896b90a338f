/** What elementwise ops and concatenations answer, operand by operand. */
module NaryValues {
  import opened Outcomes
  import opened Tensors
  import opened Indexing
  import opened Columns
  import opened NaryOps

  // ---- Elementwise ----

  /** Two extents broadcast: equal, or one of them is one. */
  predicate Meets(a: nat, b: nat) {
    a == b || a == 1 || b == 1
  }

  /** Operands, one or more, of one rank, whose extents broadcast axis by axis. */
  ghost predicate Broadcasts(shapes: seq<Shape>) {
    && |shapes| > 0 && (forall s | 0 <= s < |shapes| :: |shapes[s]| == |shapes[0]|)
    && forall r, s, k | 0 <= r < |shapes| && 0 <= s < |shapes| && 0 <= k < |shapes[0]| :: Meets(shapes[r][k], shapes[s][k])
  }

  /** The extent of every axis: the operands' that are not one, or one. */
  ghost predicate BroadcastTo(shapes: seq<Shape>, shape: Shape) {
    && (forall s | 0 <= s < |shapes| :: |shapes[s]| == |shape|)
    && forall k | 0 <= k < |shape| :: AxisTo(shapes, k, shape[k])
  }

  ghost predicate AxisTo(shapes: seq<Shape>, k: nat, extent: nat)
    requires forall s | 0 <= s < |shapes| :: k < |shapes[s]|
  {
    && (forall s | 0 <= s < |shapes| :: shapes[s][k] == 1 || shapes[s][k] == extent)
    && exists s :: 0 <= s < |shapes| && shapes[s][k] == extent
  }

  /** An operand is read at the element's own index, but at 0 across an extent of one. */
  ghost predicate ReadOperand(shape: Shape, idx: Index, at: Index) {
    |at| == |idx| == |shape| && forall k | 0 <= k < |idx| :: at[k] == if shape[k] == 1 then 0 else idx[k]
  }

  /** What the kernel is applied to at `idx`: an element of each operand, in order. */
  ghost predicate OperandsAt(xs: seq<Tensor>, idx: Index, args: seq<int>) {
    |args| == |xs|
    && forall s | 0 <= s < |xs| :: IsOperand(xs[s], idx, args[s])
  }

  ghost predicate IsOperand(x: Tensor, idx: Index, arg: int) {
    exists at :: ReadOperand(ShapeOf(x), idx, at) && arg == At(x, at)
  }

  lemma {:induction false} ClampedReads(shape: Shape, idx: Index)
    requires |idx| == |shape|
    ensures ReadOperand(shape, idx, Clamped(shape, idx))
  {
    if shape != [] {
      ClampedReads(shape[1..], idx[1..]);
      var at, rest := Clamped(shape, idx), Clamped(shape[1..], idx[1..]);
      forall k | 0 <= k < |idx|
        ensures at[k] == if shape[k] == 1 then 0 else idx[k]
      {
        assert k > 0 ==> at[k] == rest[k - 1];
      }
    }
  }

  lemma ClampedIsOperand(x: Tensor, idx: Index)
    requires |ShapeOf(x)| == |idx|
    ensures IsOperand(x, idx, At(x, Clamped(ShapeOf(x), idx)))
  {
    hide At;
    ClampedReads(ShapeOf(x), idx);
  }

  lemma {:induction false} OperandsRead(xs: seq<Tensor>, idx: Index)
    requires forall x | x in xs :: |ShapeOf(x)| == |idx|
    ensures OperandsAt(xs, idx, Operands(xs, idx))
  {
    hide IsOperand, At;
    if xs != [] {
      assert xs[0] in xs && forall x | x in xs[1..] :: x in xs;
      ClampedIsOperand(xs[0], idx);
      OperandsRead(xs[1..], idx);
      var args, rest := Operands(xs, idx), Operands(xs[1..], idx);
      forall s | 0 <= s < |xs|
        ensures IsOperand(xs[s], idx, args[s])
      {
        if s > 0 {
          assert xs[1..][s - 1] == xs[s] && args[s] == rest[s - 1];
        }
      }
    }
  }

  lemma {:induction false} PairMeets(a: Shape, b: Shape)
    ensures var r := BroadcastPair(a, b);
            && (r.Some? <==> |a| == |b| && forall k | 0 <= k < |a| :: Meets(a[k], b[k]))
            && (r.Some? ==> |r.value| == |a|
                            && forall k | 0 <= k < |a| :: r.value[k] == if b[k] == 1 then a[k] else b[k])
  {
    if |a| == |b| && a != [] {
      PairMeets(a[1..], b[1..]);
      if forall k | 0 <= k < |a| :: Meets(a[k], b[k]) {
        forall k | 0 <= k < |a[1..]|
          ensures Meets(a[1..][k], b[1..][k])
        {
          assert Meets(a[k + 1], b[k + 1]);
        }
        assert Meets(a[0], b[0]);
      }
    }
  }

  /** Broadcasting one more shape to what those before came to. */
  lemma JoinedTo(shapes: seq<Shape>, sofar: Shape, next: Shape)
    requires |shapes| > 0 && BroadcastTo(shapes, sofar)
    ensures Broadcasts(shapes + [next]) ==> BroadcastPair(sofar, next).Some?
    ensures BroadcastPair(sofar, next).Some? ==> BroadcastTo(shapes + [next], BroadcastPair(sofar, next).value)
  {
    PairMeets(sofar, next);
    var all := shapes + [next];
    if Broadcasts(all) {
      assert |all[|shapes|]| == |all[0]|;
      forall k | 0 <= k < |sofar|
        ensures Meets(sofar[k], next[k])
      {
        assert AxisTo(shapes, k, sofar[k]);
        var s :| 0 <= s < |shapes| && shapes[s][k] == sofar[k];
        assert Meets(all[s][k], all[|shapes|][k]);
      }
    }
    if BroadcastPair(sofar, next).Some? {
      var joined := BroadcastPair(sofar, next).value;
      forall k | 0 <= k < |joined|
        ensures AxisTo(all, k, joined[k])
      {
        assert AxisTo(shapes, k, sofar[k]) && Meets(sofar[k], next[k]);
        var s :| 0 <= s < |shapes| && shapes[s][k] == sofar[k];
        assert all[s][k] == sofar[k] && all[|shapes|] == next;
      }
    }
  }

  lemma BroadcastsFewer(shapes: seq<Shape>, n: nat)
    requires Broadcasts(shapes) && 0 < n <= |shapes|
    ensures Broadcasts(shapes[..n])
  {}

  lemma {:induction false} BroadcastFromIs(done: seq<Shape>, sofar: Shape, shapes: seq<Shape>)
    requires |done| > 0 && BroadcastTo(done, sofar)
    ensures Broadcasts(done + shapes) ==> BroadcastFrom(sofar, shapes).Some?
    ensures BroadcastFrom(sofar, shapes).Some? ==> BroadcastTo(done + shapes, BroadcastFrom(sofar, shapes).value)
    decreases |shapes|
  {
    hide Broadcasts, BroadcastTo, BroadcastPair;
    if shapes == [] {
      assert done + shapes == done;
    } else {
      JoinedTo(done, sofar, shapes[0]);
      assert done + [shapes[0]] + shapes[1..] == done + shapes;
      if Broadcasts(done + shapes) {
        BroadcastsFewer(done + shapes, |done| + 1);
        assert (done + shapes)[..|done| + 1] == done + [shapes[0]];
      }
      var joined := BroadcastPair(sofar, shapes[0]);
      if joined.Some? {
        BroadcastFromIs(done + [shapes[0]], joined.value, shapes[1..]);
      }
    }
  }

  lemma BroadcastToBroadcasts(shapes: seq<Shape>, shape: Shape)
    requires |shapes| > 0 && BroadcastTo(shapes, shape)
    ensures Broadcasts(shapes)
  {
    forall r, s, k | 0 <= r < |shapes| && 0 <= s < |shapes| && 0 <= k < |shapes[0]|
      ensures Meets(shapes[r][k], shapes[s][k])
    {
      assert AxisTo(shapes, k, shape[k]);
    }
  }

  lemma OneBroadcasts(shape: Shape)
    ensures BroadcastTo([shape], shape)
  {
    forall k | 0 <= k < |shape|
      ensures AxisTo([shape], k, shape[k])
    {
      assert [shape][0][k] == shape[k];
    }
  }

  lemma BroadcastShapeIs(xs: seq<Tensor>)
    ensures BroadcastShape(xs).Some? <==> Broadcasts(Shapes(xs))
    ensures BroadcastShape(xs).Some? ==> BroadcastTo(Shapes(xs), BroadcastShape(xs).value)
  {
    hide Broadcasts, BroadcastTo, BroadcastFrom;
    if xs == [] {
      NothingBroadcasts();
    } else {
      var first := ShapeOf(xs[0]);
      OneBroadcasts(first);
      assert [first] + Shapes(xs[1..]) == Shapes(xs);
      BroadcastFromIs([first], first, Shapes(xs[1..]));
      if BroadcastShape(xs).Some? {
        BroadcastToBroadcasts(Shapes(xs), BroadcastShape(xs).value);
      }
    }
  }

  lemma NothingBroadcasts()
    ensures !Broadcasts([])
  {}

  /** An elementwise op answers exactly operands that broadcast, and each element is the
      kernel's of one element of each operand, in the operands' order. */
  lemma EachExactly(kernel: seq<int> -> int, xs: seq<Tensor>)
    ensures var r := ApplyEach(kernel, xs);
            && (r.Some? <==> Broadcasts(Shapes(xs)))
            && (r.Some? ==> Sound(r.value) && BroadcastTo(Shapes(xs), ShapeOf(r.value)))
            && (r.Some? ==> forall idx: Index | InShape(idx, ShapeOf(r.value)) ::
                  exists args :: OperandsAt(xs, idx, args) && At(r.value, idx) == kernel(args))
  {
    hide Broadcasts, BroadcastShape, OperandsAt, EachElement, At, Sound;
    BroadcastShapeIs(xs);
    var r := ApplyEach(kernel, xs);
    if r.Some? {
      forall idx: Index | InShape(idx, ShapeOf(r.value))
        ensures OperandsAt(xs, idx, Operands(xs, idx)) && At(r.value, idx) == kernel(Operands(xs, idx))
      {
        TableAt(r.value, BroadcastShape(xs).value, EachElement(kernel, xs), idx);
        EachElementAt(kernel, xs, idx);
        forall x | x in xs
          ensures |ShapeOf(x)| == |idx|
        {
          var s :| 0 <= s < |xs| && xs[s] == x;
          assert |Shapes(xs)[s]| == |ShapeOf(r.value)|;
        }
        OperandsRead(xs, idx);
      }
    }
  }

  // ---- Concatenation ----

  /** Operands, one or more, of one rank that has the axis, agreeing on every other. */
  ghost predicate Joinable(axis: nat, shapes: seq<Shape>) {
    && |shapes| > 0 && axis < |shapes[0]|
    && (forall s | 0 <= s < |shapes| :: |shapes[s]| == |shapes[0]|)
    && forall s, k | 0 <= s < |shapes| && 0 <= k < |shapes[0]| && k != axis :: shapes[s][k] == shapes[0][k]
  }

  /** Where along the axis each operand starts, and where the last ends. */
  ghost predicate Offsets(axis: nat, shapes: seq<Shape>, offsets: seq<nat>) {
    && |offsets| == |shapes| + 1 && offsets[0] == 0
    && forall s | 0 <= s < |shapes| :: axis < |shapes[s]| && offsets[s + 1] == offsets[s] + shapes[s][axis]
  }

  /** `r` has every element of every operand at its own index, moved up by the operand's
      offset, and no others. */
  ghost predicate IsJoin(axis: nat, xs: seq<Tensor>, offsets: seq<nat>, r: Tensor)
    requires |xs| > 0 && axis < |ShapeOf(xs[0])| && |offsets| == |xs| + 1
  {
    && Sound(r) && ShapeOf(r) == ShapeOf(xs[0])[axis := offsets[|xs|]]
    && forall s, idx: Index | 0 <= s < |xs| && InShape(idx, ShapeOf(xs[s])) :: JoinedAt(axis, xs[s], offsets[s], r, idx)
  }

  ghost predicate JoinedAt(axis: nat, x: Tensor, offset: nat, r: Tensor, idx: Index) {
    axis < |idx| && At(r, idx[axis := offset + idx[axis]]) == At(x, idx)
  }

  lemma AgreeOffIs(axis: nat, a: Shape, b: Shape)
    ensures AgreeOff(axis, a, b) <==> |a| == |b| && axis < |a| && forall k | 0 <= k < |a| && k != axis :: a[k] == b[k]
  {
    if AgreeOff(axis, a, b) {
      forall k | 0 <= k < |a| && k != axis
        ensures a[k] == b[k]
      {
        assert a[axis := 0][k] == b[axis := 0][k];
      }
    }
  }

  lemma JoinableIs(axis: nat, shapes: seq<Shape>)
    ensures ConcatShape(axis, shapes).Some? <==> Joinable(axis, shapes)
  {
    if |shapes| > 0 {
      forall s | 0 <= s < |shapes|
        ensures AgreeOff(axis, shapes[s], shapes[0])
                <==> |shapes[s]| == |shapes[0]| && axis < |shapes[0]|
                     && forall k | 0 <= k < |shapes[0]| && k != axis :: shapes[s][k] == shapes[0][k]
      {
        AgreeOffIs(axis, shapes[s], shapes[0]);
      }
      if ConcatShape(axis, shapes).Some? {
        assert AgreeOff(axis, shapes[0], shapes[0]);
      }
    }
  }

  lemma {:induction false} OffsetsEnd(axis: nat, shapes: seq<Shape>, offsets: seq<nat>, from: nat)
    requires Offsets(axis, shapes, offsets) && from <= |shapes|
    ensures offsets[from] + TotalExtent(axis, shapes[from..]) == offsets[|shapes|]
    decreases |shapes| - from
  {
    if from < |shapes| {
      OffsetsEnd(axis, shapes, offsets, from + 1);
      assert shapes[from..][1..] == shapes[from + 1..];
    }
  }

  /** An element is the first operand's, or that of the others with the first skipped. */
  lemma FirstOrRest(axis: nat, xs: seq<Tensor>, idx: Index)
    requires xs != [] && axis < |idx| && axis < |ShapeOf(xs[0])|
    ensures var extent := ShapeOf(xs[0])[axis];
            ConcatAt(axis, xs, idx)
            == if idx[axis] < extent then At(xs[0], idx) else ConcatAt(axis, xs[1..], idx[axis := idx[axis] - extent])
  {
    hide At, ShapeOf;
  }

  lemma SetTwice(idx: Index, axis: nat, x: nat, y: nat)
    requires axis < |idx|
    ensures idx[axis := x][axis := y] == idx[axis := y] && idx[axis := idx[axis]] == idx
  {}

  /** The operand `s`, found from operand `from` on. */
  lemma {:induction false} FoundAt(axis: nat, xs: seq<Tensor>, offsets: seq<nat>, from: nat, s: nat, idx: Index)
    requires Offsets(axis, Shapes(xs), offsets) && from <= s < |xs| && axis < |idx| == |ShapeOf(xs[s])|
    requires idx[axis] < ShapeOf(xs[s])[axis] && offsets[from] <= offsets[s]
    ensures ConcatAt(axis, xs[from..], idx[axis := offsets[s] - offsets[from] + idx[axis]]) == At(xs[s], idx)
    decreases s - from
  {
    hide At, ShapeOf, ConcatAt;
    assert Shapes(xs)[from] == ShapeOf(xs[from]) && axis < |Shapes(xs)[from]|;
    var place := offsets[s] - offsets[from] + idx[axis];
    assert xs[from..][1..] == xs[from + 1..] && xs[from..][0] == xs[from];
    FirstOrRest(axis, xs[from..], idx[axis := place]);
    if from == s {
      SetTwice(idx, axis, place, place);
    } else {
      OffsetsRise(axis, Shapes(xs), offsets, from + 1, s);
      FoundAt(axis, xs, offsets, from + 1, s, idx);
      SetTwice(idx, axis, place, offsets[s] - offsets[from + 1] + idx[axis]);
    }
  }

  lemma {:induction false} OffsetsRise(axis: nat, shapes: seq<Shape>, offsets: seq<nat>, j: nat, k: nat)
    requires Offsets(axis, shapes, offsets) && j <= k <= |shapes|
    ensures offsets[j] <= offsets[k]
    decreases k - j
  {
    if j < k {
      OffsetsRise(axis, shapes, offsets, j + 1, k);
    }
  }

  /** A concatenation answers exactly operands that agree off its axis, with their elements
      one operand after the other along it. */
  lemma ConcatExactly(axis: nat, xs: seq<Tensor>)
    ensures ApplyConcat(axis, xs).Some? <==> Joinable(axis, Shapes(xs))
    ensures forall offsets | Joinable(axis, Shapes(xs)) && Offsets(axis, Shapes(xs), offsets) ::
              && |xs| > 0 && axis < |ShapeOf(xs[0])| && |offsets| == |xs| + 1
              && IsJoin(axis, xs, offsets, ApplyConcat(axis, xs).value)
  {
    hide ConcatShape, ConcatElement, ConcatAt, At, Sound, Joinable, Offsets;
    JoinableIs(axis, Shapes(xs));
    forall offsets | Joinable(axis, Shapes(xs)) && Offsets(axis, Shapes(xs), offsets)
      ensures |xs| > 0 && axis < |ShapeOf(xs[0])| && |offsets| == |xs| + 1
      ensures IsJoin(axis, xs, offsets, ApplyConcat(axis, xs).value)
    {
      Joins(axis, xs, offsets);
    }
  }

  lemma ConcatShapeIs(axis: nat, xs: seq<Tensor>, offsets: seq<nat>)
    requires Joinable(axis, Shapes(xs)) && Offsets(axis, Shapes(xs), offsets)
    ensures |xs| > 0 && |offsets| == |xs| + 1 && axis < |ShapeOf(xs[0])|
    ensures ConcatShape(axis, Shapes(xs)) == Some(ShapeOf(xs[0])[axis := offsets[|xs|]])
  {
    hide ShapeOf, Joinable, Offsets, ConcatShape;
    ConcatShapeOf(axis, Shapes(xs), offsets);
    assert Shapes(xs)[0] == ShapeOf(xs[0]);
  }

  lemma ConcatShapeOf(axis: nat, shapes: seq<Shape>, offsets: seq<nat>)
    requires Joinable(axis, shapes) && Offsets(axis, shapes, offsets)
    ensures |shapes| > 0 && axis < |shapes[0]| && |offsets| == |shapes| + 1
    ensures ConcatShape(axis, shapes) == Some(shapes[0][axis := offsets[|shapes|]])
  {
    hide AgreeOff, TotalExtent;
    JoinableIs(axis, shapes);
    OffsetsEnd(axis, shapes, offsets, 0);
    assert shapes[0..] == shapes;
  }

  lemma Joins(axis: nat, xs: seq<Tensor>, offsets: seq<nat>)
    requires Joinable(axis, Shapes(xs)) && Offsets(axis, Shapes(xs), offsets) && ApplyConcat(axis, xs).Some?
    ensures |xs| > 0 && axis < |ShapeOf(xs[0])| && |offsets| == |xs| + 1
    ensures IsJoin(axis, xs, offsets, ApplyConcat(axis, xs).value)
  {
    hide ConcatElement, ConcatShape, Sound, Joinable, Offsets, InShape, ShapeOf, JoinedAt;
    var r := ApplyConcat(axis, xs).value;
    ConcatShapeIs(axis, xs, offsets);
    forall s, idx: Index | 0 <= s < |xs| && InShape(idx, ShapeOf(xs[s]))
      ensures JoinedAt(axis, xs[s], offsets[s], r, idx)
    {
      JoinedElement(axis, xs, offsets, r, s, idx);
    }
  }

  lemma JoinedInShape(axis: nat, shapes: seq<Shape>, offsets: seq<nat>, s: nat, idx: Index)
    requires Joinable(axis, shapes) && Offsets(axis, shapes, offsets) && s < |shapes| && InShape(idx, shapes[s])
    ensures |offsets| == |shapes| + 1 && axis < |idx| == |shapes[s]| && idx[axis] < shapes[s][axis]
    ensures 0 == offsets[0] <= offsets[s]
    ensures InShape(idx[axis := offsets[s] + idx[axis]], shapes[0][axis := offsets[|shapes|]])
  {
    OffsetsRise(axis, shapes, offsets, 0, s);
    OffsetsRise(axis, shapes, offsets, s + 1, |shapes|);
  }

  lemma JoinedElement(axis: nat, xs: seq<Tensor>, offsets: seq<nat>, r: Tensor, s: nat, idx: Index)
    requires Joinable(axis, Shapes(xs)) && Offsets(axis, Shapes(xs), offsets) && s < |xs| && InShape(idx, ShapeOf(xs[s]))
    requires |xs| > 0 && |offsets| == |xs| + 1 && axis < |ShapeOf(xs[0])|
    requires IsTable(r, ShapeOf(xs[0])[axis := offsets[|xs|]], ConcatElement(axis, xs))
    ensures JoinedAt(axis, xs[s], offsets[s], r, idx)
  {
    hide ConcatElement, ConcatAt, At, Sound, Joinable, Offsets, InShape, ShapeOf, IsTable, Shapes;
    assert Shapes(xs)[s] == ShapeOf(xs[s]) && Shapes(xs)[0] == ShapeOf(xs[0]);
    JoinedInShape(axis, Shapes(xs), offsets, s, idx);
    var there := idx[axis := offsets[s] + idx[axis]];
    TableAt(r, ShapeOf(xs[0])[axis := offsets[|xs|]], ConcatElement(axis, xs), there);
    ConcatElementAt(axis, xs, there);
    FoundAt(axis, xs, offsets, 0, s, idx);
    assert xs[0..] == xs && there == idx[axis := offsets[s] - offsets[0] + idx[axis]];
  }

  /** A leading axis is broadcast to `n` where it is of extent one, or `n` already. */
  lemma SpreadExactly(n: nat, t: Tensor)
    ensures var r := Spread(n, t);
            && (r.Some? <==> t.Rows? && (|t.rows| == 1 || |t.rows| == n))
            && (r.Some? ==>
                  && r.value.Rows? && r.value.inner == t.inner && |r.value.rows| == n
                  && forall i | 0 <= i < n :: r.value.rows[i] == t.rows[if |t.rows| == 1 then 0 else i])
  {}
}
