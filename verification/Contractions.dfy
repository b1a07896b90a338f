/** What an einsum computes, element by element: the fold of its sum over every assignment
    of the summed labels, of the fold of its product over the inputs. */
module Contractions {
  import opened Tensors
  import opened Indexing
  import opened Columns
  import opened EinSums

  /** All the axes of all the inputs, in order. */
  function Joined<T>(lists: seq<seq<T>>): seq<T> {
    if lists == [] then [] else lists[0] + Joined(lists[1..])
  }

  predicate FirstAt(labels: seq<Label>, l: Label, p: nat) {
    p < |labels| && labels[p] == l && forall q | 0 <= q < p :: labels[q] != l
  }

  // ---- What it is to be the contraction ----

  /** The labels of the inputs that are not the output's, in the order of their first axes. */
  ghost predicate IsSummed(all: seq<Label>, out: seq<Label>, labels: seq<Label>) {
    && (forall l :: l in labels <==> l in all && l !in out)
    && forall i, j, p: nat, q: nat |
         0 <= i < j < |labels| && FirstAt(all, labels[i], p) && FirstAt(all, labels[j], q) :: p < q
  }

  /** Every axis of every input has its label. */
  predicate Ranked(ins: seq<seq<Label>>, shapes: seq<Shape>) {
    |ins| == |shapes| && forall s | 0 <= s < |ins| :: |ins[s]| == |shapes[s]|
  }

  /** A summed label runs over the extent of its first axis. */
  ghost predicate SumExtent(all: seq<Label>, extents: seq<nat>, l: Label, n: nat)
    requires |all| == |extents|
  {
    exists p: nat :: FirstAt(all, l, p) && extents[p] == n
  }

  /** Axis `p` is the first of its label whose extent is not one. */
  predicate FirstWide(all: seq<Label>, extents: seq<nat>, l: Label, p: nat)
    requires |all| == |extents|
  {
    p < |all| && all[p] == l && extents[p] != 1 && forall q | 0 <= q < p && all[q] == l :: extents[q] == 1
  }

  /** An output label runs over the first extent of its axes that is not one. */
  ghost predicate OutExtent(all: seq<Label>, extents: seq<nat>, l: Label, n: nat)
    requires |all| == |extents|
  {
    || (exists p: nat :: FirstWide(all, extents, l, p) && extents[p] == n)
    || (n == 1 && forall p: nat :: !FirstWide(all, extents, l, p))
  }

  /** `a` comes before `b` in row-major order. */
  ghost predicate Before(a: Index, b: Index) {
    exists k: nat :: k < |a| && k < |b| && a[..k] == b[..k] && a[k] < b[k]
  }

  /** Every index of the shape once, in row-major order. */
  ghost predicate RowMajor(shape: Shape, overs: seq<Index>) {
    && (forall over :: over in overs <==> InShape(over, shape))
    && forall i, j | 0 <= i < j < |overs| :: Before(overs[i], overs[j])
  }

  /** Where an input with these labels is read: an output label at the element's own place, or
      at 0 across an extent of one; a summed label where the sum is. */
  ghost predicate ReadsAt(labels: seq<Label>, shape: Shape, out: seq<Label>, at: Index, summed: seq<Label>, over: Index,
                          idx: Index)
  {
    && |idx| == |labels| == |shape|
    && forall p | 0 <= p < |labels| ::
         if labels[p] in out then
           if shape[p] == 1 then idx[p] == 0 else exists k: nat :: FirstAt(out, labels[p], k) && k < |at| && idx[p] == at[k]
         else exists k: nat :: FirstAt(summed, labels[p], k) && k < |over| && idx[p] == over[k]
  }

  /** `total` is `start` with the terms added to it, one after the other. */
  ghost predicate IsFold(step: (int, int) -> int, start: int, terms: seq<int>, total: int) {
    exists partial: seq<int> :: Partials(step, start, terms, partial) && partial[|terms|] == total
  }

  predicate Partials(step: (int, int) -> int, start: int, terms: seq<int>, partial: seq<int>) {
    && |partial| == |terms| + 1 && partial[0] == start
    && forall i | 0 <= i < |terms| :: partial[i + 1] == step(partial[i], terms[i])
  }

  /** The elements of the inputs that one term of the sum multiplies. */
  ghost predicate Factors(ins: seq<seq<Label>>, xs: seq<Tensor>, out: seq<Label>, at: Index, summed: seq<Label>,
                          over: Index, factors: seq<int>)
  {
    && |factors| == |xs| == |ins|
    && forall s | 0 <= s < |xs| :: IsFactor(ins[s], xs[s], out, at, summed, over, factors[s])
  }

  ghost predicate IsFactor(labels: seq<Label>, x: Tensor, out: seq<Label>, at: Index, summed: seq<Label>, over: Index,
                           factor: int)
  {
    exists idx :: ReadsAt(labels, ShapeOf(x), out, at, summed, over, idx) && factor == At(x, idx)
  }

  /** The term of the sum at `over`. */
  ghost predicate IsTerm(e: EinSum, xs: seq<Tensor>, at: Index, summed: seq<Label>, over: Index, term: int) {
    exists factors :: Factors(e.ins, xs, e.out, at, summed, over, factors) && IsFold(e.acc.mul, e.acc.one, factors, term)
  }

  /** The element at `at`: the terms of all the assignments in row-major order, summed. */
  ghost predicate IsElement(e: EinSum, xs: seq<Tensor>, at: Index, summed: seq<Label>, overs: seq<Index>, x: int) {
    exists terms: seq<int> :: TermsAt(e, xs, at, summed, overs, terms) && IsFold(e.acc.add, e.acc.zero, terms, x)
  }

  ghost predicate TermsAt(e: EinSum, xs: seq<Tensor>, at: Index, summed: seq<Label>, overs: seq<Index>, terms: seq<int>) {
    |terms| == |overs| && forall i | 0 <= i < |terms| :: IsTerm(e, xs, at, summed, overs[i], terms[i])
  }

  ghost predicate IsContraction(e: EinSum, xs: seq<Tensor>, r: Tensor) {
    var all, extents := Joined(e.ins), Joined(Shapes(xs));
    && Ranked(e.ins, Shapes(xs)) && |all| == |extents|
    && Sound(r) && |ShapeOf(r)| == |e.out|
    && (forall k | 0 <= k < |e.out| :: OutExtent(all, extents, e.out[k], ShapeOf(r)[k]))
    && exists summed, shape, overs :: SumsOver(e, xs, r, summed, shape, overs)
  }

  ghost predicate SumsOver(e: EinSum, xs: seq<Tensor>, r: Tensor, summed: seq<Label>, shape: Shape, overs: seq<Index>) {
    var all, extents := Joined(e.ins), Joined(Shapes(xs));
    && |all| == |extents| && IsSummed(all, e.out, summed)
    && |shape| == |summed| && (forall k | 0 <= k < |summed| :: SumExtent(all, extents, summed[k], shape[k]))
    && RowMajor(shape, overs)
    && forall at | InShape(at, ShapeOf(r)) :: IsElement(e, xs, at, summed, overs, At(r, at))
  }

  /** An axis is as long as its label asks, or of extent one where the output has the label. */
  ghost predicate AxisReaches(e: EinSum, shapes: seq<Shape>, l: Label, extent: nat) {
    var all, extents := Joined(e.ins), Joined(shapes);
    |all| == |extents|
    && if l in e.out then extent == 1 || forall n: nat | OutExtent(all, extents, l, n) :: n <= extent
       else forall n: nat | SumExtent(all, extents, l, n) :: n <= extent
  }

  /** Every input has a label for every axis, and no axis is shorter than is read. */
  ghost predicate Contractible(e: EinSum, shapes: seq<Shape>) {
    && Ranked(e.ins, shapes)
    && forall s, p | 0 <= s < |e.ins| && 0 <= p < |e.ins[s]| :: AxisReaches(e, shapes, e.ins[s][p], shapes[s][p])
  }

  // ---- Labels and extents ----

  lemma {:induction false} JoinedLengths(ins: seq<seq<Label>>, shapes: seq<Shape>)
    requires Ranked(ins, shapes)
    ensures |Joined(ins)| == |Joined(shapes)|
  {
    if ins != [] {
      JoinedLengths(ins[1..], shapes[1..]);
    }
  }

  lemma {:induction false} ExtentsJoin(a: seq<Label>, x: Shape, b: seq<Label>, y: Shape, l: Label)
    requires |a| == |x|
    ensures Extents(a + b, x + y, l) == Extents(a, x, l) + Extents(b, y, l)
  {
    if a == [] {
      assert a + b == b && x + y == y;
    } else {
      ExtentsJoin(a[1..], x[1..], b, y, l);
      assert (a + b)[1..] == a[1..] + b && (x + y)[1..] == x[1..] + y && (a + b)[0] == a[0] && (x + y)[0] == x[0];
      var first := if a[0] == l then [x[0]] else [];
      assert Extents(a + b, x + y, l) == first + Extents(a[1..] + b, x[1..] + y, l);
      assert first + (Extents(a[1..], x[1..], l) + Extents(b, y, l)) == first + Extents(a[1..], x[1..], l) + Extents(b, y, l);
    }
  }

  lemma {:induction false} ExtentsOfJoined(ins: seq<seq<Label>>, shapes: seq<Shape>, l: Label)
    requires Ranked(ins, shapes)
    ensures AllExtents(ins, shapes, l) == Extents(Joined(ins), Joined(shapes), l)
  {
    if ins != [] {
      ExtentsOfJoined(ins[1..], shapes[1..], l);
      ExtentsJoin(ins[0], shapes[0], Joined(ins[1..]), Joined(shapes[1..]), l);
    }
  }

  lemma FirstOnce(labels: seq<Label>, l: Label, p: nat, q: nat)
    requires FirstAt(labels, l, p) && FirstAt(labels, l, q)
    ensures p == q
  {}

  lemma {:induction false} FirstExtentIs(all: seq<Label>, extents: seq<nat>, l: Label)
    requires |all| == |extents| && l in all
    ensures forall n: nat :: SumExtent(all, extents, l, n) <==> n == FirstExtent(Extents(all, extents, l))
  {
    var p := FirstIn(all, l);
    SkipsTo(all, extents, l, p);
    forall q: nat | FirstAt(all, l, q)
      ensures q == p
    {
      FirstOnce(all, l, p, q);
    }
  }

  function FirstIn(all: seq<Label>, l: Label): (p: nat)
    requires l in all
    ensures FirstAt(all, l, p)
  {
    if all[0] == l then 0 else 1 + FirstIn(all[1..], l)
  }

  lemma {:induction false} SkipsTo(all: seq<Label>, extents: seq<nat>, l: Label, p: nat)
    requires |all| == |extents| && FirstAt(all, l, p)
    ensures FirstExtent(Extents(all, extents, l)) == extents[p]
  {
    if p > 0 {
      assert all[0] != l;
      assert FirstAt(all[1..], l, p - 1);
      SkipsTo(all[1..], extents[1..], l, p - 1);
      assert [] + Extents(all[1..], extents[1..], l) == Extents(all[1..], extents[1..], l);
    }
  }

  lemma {:induction false} FirstWideIs(all: seq<Label>, extents: seq<nat>, l: Label)
    requires |all| == |extents|
    ensures forall n: nat :: OutExtent(all, extents, l, n) <==> n == FirstNotOne(Extents(all, extents, l))
  {
    if all == [] {
      assert forall p: nat :: !FirstWide(all, extents, l, p);
    } else if all[0] == l && extents[0] != 1 {
      assert FirstWide(all, extents, l, 0);
      assert forall p: nat :: FirstWide(all, extents, l, p) ==> p == 0;
    } else {
      FirstWideIs(all[1..], extents[1..], l);
      assert FirstNotOne(Extents(all, extents, l)) == FirstNotOne(Extents(all[1..], extents[1..], l)) by {
        assert [] + Extents(all[1..], extents[1..], l) == Extents(all[1..], extents[1..], l);
        if all[0] == l {
          assert ([extents[0]] + Extents(all[1..], extents[1..], l))[1..] == Extents(all[1..], extents[1..], l);
        }
      }
      forall p: nat
        ensures FirstWide(all, extents, l, p) <==> p > 0 && FirstWide(all[1..], extents[1..], l, p - 1)
      {
        WideLater(all, extents, l, p);
      }
      forall n: nat
        ensures OutExtent(all, extents, l, n) <==> OutExtent(all[1..], extents[1..], l, n)
      {
        if p: nat :| FirstWide(all[1..], extents[1..], l, p) && extents[1..][p] == n {
          assert FirstWide(all, extents, l, p + 1);
        }
        if p: nat :| FirstWide(all[1..], extents[1..], l, p) {
          assert FirstWide(all, extents, l, p + 1);
        }
      }
    }
  }

  lemma WideLater(all: seq<Label>, extents: seq<nat>, l: Label, p: nat)
    requires |all| == |extents| > 0 && (all[0] != l || extents[0] == 1)
    ensures FirstWide(all, extents, l, p) <==> p > 0 && FirstWide(all[1..], extents[1..], l, p - 1)
  {
    if p > 0 && FirstWide(all, extents, l, p) {
      forall q | 0 <= q < p - 1 && all[1..][q] == l
        ensures extents[1..][q] == 1
      {
        assert all[q + 1] == l;
      }
    }
    if p > 0 && FirstWide(all[1..], extents[1..], l, p - 1) {
      forall q | 0 <= q < p && all[q] == l
        ensures extents[q] == 1
      {
        if q > 0 {
          assert all[1..][q - 1] == l && extents[1..][q - 1] == 1;
        }
      }
    }
  }

  lemma {:induction false} SummedAcross(a: seq<Label>, b: seq<Label>, out: seq<Label>, found: seq<Label>)
    ensures SummedIn(a + b, out, found) == SummedIn(b, out, SummedIn(a, out, found))
    decreases |a|
  {
    if a == [] {
      assert a + b == b;
    } else {
      assert (a + b)[1..] == a[1..] + b;
      SummedAcross(a[1..], b, out, if a[0] in out || a[0] in found then found else found + [a[0]]);
    }
  }

  lemma {:induction false} SummedJoined(ins: seq<seq<Label>>, out: seq<Label>, found: seq<Label>)
    ensures Summed(ins, out, found) == SummedIn(Joined(ins), out, found)
    decreases |ins|
  {
    if ins != [] {
      SummedAcross(ins[0], Joined(ins[1..]), out, found);
      SummedJoined(ins[1..], out, SummedIn(ins[0], out, found));
    }
  }

  lemma FirstLater(all: seq<Label>, l: Label, more: seq<Label>, p: nat)
    requires l in all
    ensures FirstAt(all + more, l, p) <==> FirstAt(all, l, p)
  {
    var first := FirstIn(all, l);
    assert FirstAt(all + more, l, first);
    if FirstAt(all + more, l, p) {
      FirstOnce(all + more, l, first, p);
    }
    if FirstAt(all, l, p) {
      FirstOnce(all, l, first, p);
    }
  }

  lemma FoundOne(done: seq<Label>, l: Label, out: seq<Label>, found: seq<Label>)
    requires IsSummed(done, out, found)
    ensures IsSummed(done + [l], out, if l in out || l in found then found else found + [l])
  {
    var all, later := done + [l], if l in out || l in found then found else found + [l];
    forall i, j, p: nat, q: nat | 0 <= i < j < |later| && FirstAt(all, later[i], p) && FirstAt(all, later[j], q)
      ensures p < q
    {
      assert later[i] in found && later[i] in done;
      FirstLater(done, later[i], [l], p);
      if j < |found| {
        assert later[j] in found && later[j] in done;
        FirstLater(done, later[j], [l], q);
      }
    }
  }

  lemma {:induction false} SummedIs(done: seq<Label>, rest: seq<Label>, out: seq<Label>, found: seq<Label>)
    requires IsSummed(done, out, found)
    ensures IsSummed(done + rest, out, SummedIn(rest, out, found))
    decreases |rest|
  {
    hide IsSummed;
    if rest == [] {
      assert done + rest == done;
    } else {
      FoundOne(done, rest[0], out, found);
      SummedIs(done + [rest[0]], rest[1..], out, if rest[0] in out || rest[0] in found then found else found + [rest[0]]);
      assert done + [rest[0]] + rest[1..] == done + rest;
    }
  }

  lemma SummedExactly(e: EinSum)
    ensures IsSummed(Joined(e.ins), e.out, Summed(e.ins, e.out, []))
  {
    SummedJoined(e.ins, e.out, []);
    SummedIs([], Joined(e.ins), e.out, []);
    assert [] + Joined(e.ins) == Joined(e.ins);
  }

  lemma {:induction false} SumShapeIs(summed: seq<Label>, ins: seq<seq<Label>>, shapes: seq<Shape>)
    requires Ranked(ins, shapes) && forall l | l in summed :: l in Joined(ins)
    ensures |SumShape(summed, ins, shapes)| == |summed| && |Joined(ins)| == |Joined(shapes)|
    ensures forall k | 0 <= k < |summed| :: SumExtent(Joined(ins), Joined(shapes), summed[k], SumShape(summed, ins, shapes)[k])
  {
    hide SumExtent;
    JoinedLengths(ins, shapes);
    if summed != [] {
      assert summed[0] in summed && forall l | l in summed[1..] :: l in summed;
      SumShapeIs(summed[1..], ins, shapes);
      ExtentsOfJoined(ins, shapes, summed[0]);
      FirstExtentIs(Joined(ins), Joined(shapes), summed[0]);
    }
  }

  lemma {:induction false} OutShapeIs(out: seq<Label>, ins: seq<seq<Label>>, shapes: seq<Shape>)
    requires Ranked(ins, shapes)
    ensures |Joined(ins)| == |Joined(shapes)|
    ensures forall k | 0 <= k < |out| :: OutExtent(Joined(ins), Joined(shapes), out[k], OutShape(out, ins, shapes)[k])
  {
    hide OutExtent;
    JoinedLengths(ins, shapes);
    if out != [] {
      OutShapeIs(out[1..], ins, shapes);
      ExtentsOfJoined(ins, shapes, out[0]);
      FirstWideIs(Joined(ins), Joined(shapes), out[0]);
    }
  }

  // ---- Assignments ----

  lemma {:induction false} PrependedAt(i: nat, tails: seq<Index>)
    ensures |Prepended(i, tails)| == |tails|
    ensures forall k | 0 <= k < |tails| :: Prepended(i, tails)[k] == [i] + tails[k]
  {
    if tails != [] {
      PrependedAt(i, tails[1..]);
    }
  }

  lemma BeforeBelow(i: nat, a: Index, b: Index)
    requires Before(a, b)
    ensures Before([i] + a, [i] + b)
  {
    var k: nat :| k < |a| && k < |b| && a[..k] == b[..k] && a[k] < b[k];
    assert ([i] + a)[..k + 1] == [i] + a[..k] && ([i] + b)[..k + 1] == [i] + b[..k];
    assert ([i] + a)[k + 1] < ([i] + b)[k + 1];
  }

  lemma BeforeByFirst(a: Index, b: Index)
    requires a != [] && b != [] && a[0] < b[0]
    ensures Before(a, b)
  {
    assert a[..0] == b[..0];
  }

  /** The indices of the shape whose first is `from` or more. */
  ghost predicate RowMajorFrom(shape: Shape, from: nat, overs: seq<Index>) {
    && (forall over :: over in overs <==> InShape(over, shape) && (shape == [] || over[0] >= from))
    && forall i, j | 0 <= i < j < |overs| :: Before(overs[i], overs[j])
  }

  lemma InShapeRow(shape: Shape, over: Index)
    requires shape != []
    ensures InShape(over, shape) <==> over != [] && over[0] < shape[0] && InShape(over[1..], shape[1..])
  {
    if over != [] && over[0] < shape[0] && InShape(over[1..], shape[1..]) {
      forall k | 0 <= k < |shape|
        ensures over[k] < shape[k]
      {
        assert k > 0 ==> over[1..][k - 1] < shape[1..][k - 1];
      }
    }
  }

  lemma {:induction false} OneMoreRow(shape: Shape, from: nat, tails: seq<Index>, later: seq<Index>)
    requires shape != [] && from < shape[0] && RowMajorFrom(shape[1..], 0, tails) && RowMajorFrom(shape, from + 1, later)
    ensures RowMajorFrom(shape, from, Prepended(from, tails) + later)
  {
    hide Before;
    var row := Prepended(from, tails);
    var overs := row + later;
    PrependedAt(from, tails);
    forall over
      ensures over in overs <==> InShape(over, shape) && over[0] >= from
    {
      InShapeRow(shape, over);
      if over in row {
        var k :| 0 <= k < |row| && row[k] == over;
        assert over[1..] == tails[k] && tails[k] in tails;
      }
      if InShape(over, shape) && over[0] == from {
        var k :| 0 <= k < |tails| && tails[k] == over[1..];
        assert row[k] == over;
      }
    }
    forall i, j | 0 <= i < j < |overs|
      ensures Before(overs[i], overs[j])
    {
      if j < |row| {
        BeforeBelow(from, tails[i], tails[j]);
      } else if i < |row| {
        assert overs[j] == later[j - |row|] && overs[j] in later;
        BeforeByFirst(overs[i], overs[j]);
      } else {
        assert overs[i] == later[i - |row|] && overs[j] == later[j - |row|];
      }
    }
  }

  lemma {:induction false} CoordinatesAre(shape: Shape, from: nat)
    ensures RowMajorFrom(shape, from, Coordinates(shape, from))
    decreases |shape|, if shape == [] then 0 else if from > shape[0] then 0 else shape[0] - from
  {
    hide Before;
    if shape == [] {
      forall over
        ensures over in Coordinates(shape, from) <==> InShape(over, shape)
      {}
    } else if from < shape[0] {
      CoordinatesAre(shape[1..], 0);
      CoordinatesAre(shape, from + 1);
      OneMoreRow(shape, from, Coordinates(shape[1..], 0), Coordinates(shape, from + 1));
    }
  }

  lemma AllAssignments(shape: Shape)
    ensures RowMajor(shape, Coordinates(shape, 0))
  {
    CoordinatesAre(shape, 0);
  }

  // ---- Reading ----

  lemma {:induction false} LookedUp(labels: seq<Label>, idx: Index, l: Label, k: nat)
    requires FirstAt(labels, l, k) && k < |idx|
    ensures Lookup(labels, idx, l) == idx[k]
  {
    if k > 0 {
      assert labels[0] != l && FirstAt(labels[1..], l, k - 1);
      LookedUp(labels[1..], idx[1..], l, k - 1);
    }
  }

  lemma {:induction false} InputRead(labels: seq<Label>, shape: Shape, out: seq<Label>, at: Index, summed: seq<Label>, over: Index)
    requires |labels| == |shape| && |at| == |out| && |over| == |summed|
    requires forall l | l in labels :: l in out || l in summed
    ensures ReadsAt(labels, shape, out, at, summed, over, InputIndex(labels, shape, out, at, summed, over))
    decreases |labels|
  {
    if labels != [] {
      assert forall l | l in labels[1..] :: l in labels;
      InputRead(labels[1..], shape[1..], out, at, summed, over);
      var idx, rest := InputIndex(labels, shape, out, at, summed, over), InputIndex(labels[1..], shape[1..], out, at, summed, over);
      var l := labels[0];
      assert l in labels;
      if l in out {
        LookedUp(out, at, l, FirstIn(out, l));
      } else {
        LookedUp(summed, over, l, FirstIn(summed, l));
      }
      forall p | 1 <= p < |labels|
        ensures labels[p] == labels[1..][p - 1] && shape[p] == shape[1..][p - 1] && idx[p] == rest[p - 1]
      {}
    }
  }

  // ---- Folds ----

  lemma FoldOfNone(step: (int, int) -> int, start: int)
    ensures IsFold(step, start, [], start)
  {
    assert Partials(step, start, [], [start]);
  }

  lemma FoldFromFirst(step: (int, int) -> int, start: int, term: int, terms: seq<int>, total: int)
    requires IsFold(step, step(start, term), terms, total)
    ensures IsFold(step, start, [term] + terms, total)
  {
    var partial :| Partials(step, step(start, term), terms, partial) && partial[|terms|] == total;
    var all := [term] + terms;
    assert Partials(step, start, all, [start] + partial) by {
      forall i | 0 <= i < |all|
        ensures ([start] + partial)[i + 1] == step(([start] + partial)[i], all[i])
      {
        if i > 0 {
          assert partial[(i - 1) + 1] == step(partial[i - 1], terms[i - 1]);
        }
      }
    }
    assert ([start] + partial)[|all|] == total;
  }

  lemma {:induction false} ProductFolds(acc: Arithmetic, sofar: int, ins: seq<seq<Label>>, xs: seq<Tensor>, out: seq<Label>,
                                        at: Index, summed: seq<Label>, over: Index)
    returns (factors: seq<int>)
    requires Ranked(ins, Shapes(xs)) && |at| == |out| && |over| == |summed|
    requires forall s, l | 0 <= s < |ins| && l in ins[s] :: l in out || l in summed
    ensures Factors(ins, xs, out, at, summed, over, factors)
    ensures IsFold(acc.mul, sofar, factors, Product(acc, sofar, ins, xs, out, at, summed, over))
    decreases |ins|
  {
    hide IsFold, ReadsAt, InputIndex, IsFactor, Factors;
    factors := [];
    if ins == [] {
      FoldOfNone(acc.mul, sofar);
      NoFactors(out, at, summed, over);
    } else {
      var factor := At(xs[0], InputIndex(ins[0], ShapeOf(xs[0]), out, at, summed, over));
      FirstFactor(ins[0], xs[0], out, at, summed, over) by {
        assert |ins[0]| == |Shapes(xs)[0]|;
      }
      forall s | 0 <= s < |ins[1..]|
        ensures |ins[1..][s]| == |Shapes(xs[1..])[s]|
      {
        assert |ins[s + 1]| == |Shapes(xs)[s + 1]|;
      }
      var rest := ProductFolds(acc, acc.mul(sofar, factor), ins[1..], xs[1..], out, at, summed, over);
      factors := [factor] + rest;
      OneMoreFactor(ins, xs, out, at, summed, over, factor, rest);
      FoldFromFirst(acc.mul, sofar, factor, rest, Product(acc, sofar, ins, xs, out, at, summed, over));
    }
  }

  lemma NoFactors(out: seq<Label>, at: Index, summed: seq<Label>, over: Index)
    ensures Factors([], [], out, at, summed, over, [])
  {}

  lemma FirstFactor(labels: seq<Label>, x: Tensor, out: seq<Label>, at: Index, summed: seq<Label>, over: Index)
    requires |labels| == |ShapeOf(x)| && |at| == |out| && |over| == |summed|
    requires forall l | l in labels :: l in out || l in summed
    ensures IsFactor(labels, x, out, at, summed, over, At(x, InputIndex(labels, ShapeOf(x), out, at, summed, over)))
  {
    hide ReadsAt, InputIndex;
    InputRead(labels, ShapeOf(x), out, at, summed, over);
  }

  lemma OneMoreFactor(ins: seq<seq<Label>>, xs: seq<Tensor>, out: seq<Label>, at: Index, summed: seq<Label>, over: Index,
                      factor: int, rest: seq<int>)
    requires |ins| == |xs| > 0 && IsFactor(ins[0], xs[0], out, at, summed, over, factor)
    requires Factors(ins[1..], xs[1..], out, at, summed, over, rest)
    ensures Factors(ins, xs, out, at, summed, over, [factor] + rest)
  {
    hide IsFactor;
    forall s | 0 <= s < |xs|
      ensures IsFactor(ins[s], xs[s], out, at, summed, over, ([factor] + rest)[s])
    {
      if s > 0 {
        assert IsFactor(ins[1..][s - 1], xs[1..][s - 1], out, at, summed, over, rest[s - 1]);
      }
    }
  }

  lemma {:induction false} SumFolds(e: EinSum, sofar: int, overs: seq<Index>, xs: seq<Tensor>, at: Index, summed: seq<Label>)
    returns (terms: seq<int>)
    requires Ranked(e.ins, Shapes(xs)) && |at| == |e.out| && forall over | over in overs :: |over| == |summed|
    requires forall s, l | 0 <= s < |e.ins| && l in e.ins[s] :: l in e.out || l in summed
    ensures TermsAt(e, xs, at, summed, overs, terms)
    ensures IsFold(e.acc.add, sofar, terms, Sum(e.acc, sofar, overs, e.ins, xs, e.out, at, summed))
    decreases |overs|
  {
    hide IsFold, Factors, Product, Ranked;
    terms := [];
    if overs == [] {
      FoldOfNone(e.acc.add, sofar);
    } else {
      var over := overs[0];
      assert over in overs && forall later | later in overs[1..] :: later in overs;
      var factors := ProductFolds(e.acc, e.acc.one, e.ins, xs, e.out, at, summed, over);
      var term := Product(e.acc, e.acc.one, e.ins, xs, e.out, at, summed, over);
      assert IsTerm(e, xs, at, summed, over, term);
      var rest := SumFolds(e, e.acc.add(sofar, term), overs[1..], xs, at, summed);
      terms := [term] + rest;
      forall i | 0 <= i < |terms|
        ensures IsTerm(e, xs, at, summed, overs[i], terms[i])
      {
        if i > 0 {
          assert IsTerm(e, xs, at, summed, overs[1..][i - 1], rest[i - 1]);
        }
      }
      FoldFromFirst(e.acc.add, sofar, term, rest, Sum(e.acc, sofar, overs, e.ins, xs, e.out, at, summed));
    }
  }

  lemma {:induction false} InJoined(ins: seq<seq<Label>>, s: nat, l: Label)
    requires s < |ins| && l in ins[s]
    ensures l in Joined(ins)
  {
    if s > 0 {
      InJoined(ins[1..], s - 1, l);
    }
  }

  lemma {:induction false} ReachIsRanked(e: EinSum, shapes: seq<Shape>)
    requires Reaches(e, shapes)
    ensures Ranked(e.ins, shapes)
  {
    forall s | 0 <= s < |shapes|
      ensures |e.ins[s]| == |shapes[s]|
    {
      assert InReach(e.ins[s], shapes[s], e.out, e.ins, shapes);
    }
  }

  lemma ElementFolds(e: EinSum, xs: seq<Tensor>, at: Index)
    requires Ranked(e.ins, Shapes(xs)) && |at| == |e.out|
    ensures var summed := Summed(e.ins, e.out, []);
            IsElement(e, xs, at, summed, Coordinates(SumShape(summed, e.ins, Shapes(xs)), 0), Element(e, xs, at))
  {
    hide IsFold, TermsAt, Ranked, SumExtent, Summed, SumShape, Coordinates;
    var summed := Summed(e.ins, e.out, []);
    var shape := SumShape(summed, e.ins, Shapes(xs));
    SummedExactly(e);
    SumShapeIs(summed, e.ins, Shapes(xs));
    AllAssignments(shape);
    forall s, l | 0 <= s < |e.ins| && l in e.ins[s]
      ensures l in e.out || l in summed
    {
      InJoined(e.ins, s, l);
    }
    var terms := SumFolds(e, e.acc.zero, Coordinates(shape, 0), xs, at, summed);
  }

  /** What `eval_t` answers is the contraction: of the shape the output's labels have, and each
      element the sum, from zero and in row-major order, over every assignment of the labels
      the output has not, once each, of the product of all inputs read there. */
  lemma EinSumContracts(e: EinSum, xs: seq<Tensor>)
    requires ApplyEinSum(e, xs).Some?
    ensures IsContraction(e, xs, ApplyEinSum(e, xs).value)
  {
    hide ApplyEinSum, IsElement, SumExtent, OutExtent, RowMajor, Element, Summed, SumShape, Coordinates, OutShape;
    var r := ApplyEinSum(e, xs).value;
    ReachIsRanked(e, Shapes(xs));
    OutShapeIs(e.out, e.ins, Shapes(xs));
    SummedExactly(e);
    var summed := Summed(e.ins, e.out, []);
    var shape := SumShape(summed, e.ins, Shapes(xs));
    SumShapeIs(summed, e.ins, Shapes(xs));
    AllAssignments(shape);
    forall at | InShape(at, ShapeOf(r))
      ensures IsElement(e, xs, at, summed, Coordinates(shape, 0), At(r, at))
    {
      TableAt(r, OutShape(e.out, e.ins, Shapes(xs)), Elements(e, xs), at);
      ElementFolds(e, xs, at);
    }
    assert SumsOver(e, xs, r, summed, shape, Coordinates(shape, 0));
  }

  // ---- When there is one ----

  lemma OneReaches(e: EinSum, shapes: seq<Shape>, l: Label, extent: nat)
    requires Ranked(e.ins, shapes) && l in Joined(e.ins)
    ensures var extents := AllExtents(e.ins, shapes, l);
            AxisReaches(e, shapes, l, extent)
            <==> if l in e.out then extent == 1 || FirstNotOne(extents) <= extent else FirstExtent(extents) <= extent
  {
    hide OutExtent, SumExtent, AllExtents, Extents;
    JoinedLengths(e.ins, shapes);
    ExtentsOfJoined(e.ins, shapes, l);
    FirstWideIs(Joined(e.ins), Joined(shapes), l);
    FirstExtentIs(Joined(e.ins), Joined(shapes), l);
    var extents := AllExtents(e.ins, shapes, l);
    assert OutExtent(Joined(e.ins), Joined(shapes), l, FirstNotOne(extents));
    assert SumExtent(Joined(e.ins), Joined(shapes), l, FirstExtent(extents));
  }

  lemma {:induction false} InReachIs(e: EinSum, shapes: seq<Shape>, labels: seq<Label>, shape: Shape)
    requires Ranked(e.ins, shapes) && |labels| == |shape| && forall l | l in labels :: l in Joined(e.ins)
    ensures InReach(labels, shape, e.out, e.ins, shapes) <==>
            forall p | 0 <= p < |labels| :: AxisReaches(e, shapes, labels[p], shape[p])
    decreases |labels|
  {
    hide AxisReaches, AllExtents;
    if labels != [] {
      assert labels[0] in labels && forall l | l in labels[1..] :: l in labels;
      InReachIs(e, shapes, labels[1..], shape[1..]);
      OneReaches(e, shapes, labels[0], shape[0]);
      forall p | 1 <= p < |labels|
        ensures labels[p] == labels[1..][p - 1] && shape[p] == shape[1..][p - 1]
      {}
      if forall p | 0 <= p < |labels| :: AxisReaches(e, shapes, labels[p], shape[p]) {
        forall p | 0 <= p < |labels[1..]|
          ensures AxisReaches(e, shapes, labels[1..][p], shape[1..][p])
        {
          assert AxisReaches(e, shapes, labels[p + 1], shape[p + 1]);
        }
        assert AxisReaches(e, shapes, labels[0], shape[0]);
      }
    }
  }

  /** There is an answer if and only if the shapes are those of a contraction. */
  lemma ContractsExactly(e: EinSum, xs: seq<Tensor>)
    ensures ApplyEinSum(e, xs).Some? <==> Contractible(e, Shapes(xs))
    ensures ApplyEinSum(e, xs).Some? ==> IsContraction(e, xs, ApplyEinSum(e, xs).value)
  {
    hide ApplyEinSum, IsContraction, AxisReaches, InReach;
    var shapes := Shapes(xs);
    if Reaches(e, shapes) {
      ReachIsRanked(e, shapes);
      EinSumContracts(e, xs);
    }
    if Ranked(e.ins, shapes) {
      JoinedLengths(e.ins, shapes);
      forall s | 0 <= s < |e.ins|
        ensures InReach(e.ins[s], shapes[s], e.out, e.ins, shapes) <==>
                forall p | 0 <= p < |e.ins[s]| :: AxisReaches(e, shapes, e.ins[s][p], shapes[s][p])
      {
        forall l | l in e.ins[s]
          ensures l in Joined(e.ins)
        {
          InJoined(e.ins, s, l);
        }
        InReachIs(e, shapes, e.ins[s], shapes[s]);
      }
    }
  }

  // ---- The matrix product ----

  /** `mk,kn->mn`. */
  function MatMul(acc: Arithmetic): EinSum {
    EinSum([[0, 1], [1, 2]], [0, 2], acc)
  }

  function Multiplied(acc: Arithmetic, x: Tensor, y: Tensor, i: nat, j: nat, k: nat): int {
    acc.mul(acc.mul(acc.one, At(x, [i, k])), At(y, [k, j]))
  }

  lemma MatMulReads(rows: nat, inner: nat, columns: nat, i: nat, j: nat, k: nat)
    requires i < rows && j < columns
    ensures InputIndex([0, 1], [rows, inner], [0, 2], [i, j], [1], [k]) == [i, k]
    ensures InputIndex([1, 2], [inner, columns], [0, 2], [i, j], [1], [k]) == [k, j]
  {
    assert InputIndex([1], [inner], [0, 2], [i, j], [1], [k]) == [k];
    assert InputIndex([2], [columns], [0, 2], [i, j], [1], [k]) == [j] by {
      assert Lookup([0, 2], [i, j], 2) == Lookup([2], [j], 2) == j;
    }
    assert [0, 1][1..] == [1] && [rows, inner][1..] == [inner] && [1, 2][1..] == [2] && [inner, columns][1..] == [columns];
  }

  lemma MatMulTerm(acc: Arithmetic, x: Tensor, y: Tensor, rows: nat, inner: nat, columns: nat, i: nat, j: nat, k: nat)
    requires ShapeOf(x) == [rows, inner] && ShapeOf(y) == [inner, columns] && i < rows && j < columns
    ensures Product(acc, acc.one, [[0, 1], [1, 2]], [x, y], [0, 2], [i, j], [1], [k]) == Multiplied(acc, x, y, i, j, k)
  {
    hide InputIndex, At;
    MatMulReads(rows, inner, columns, i, j, k);
    var one := acc.mul(acc.one, At(x, [i, k]));
    assert [[0, 1], [1, 2]][1..] == [[1, 2]] && [x, y][1..] == [y];
    assert Product(acc, one, [[1, 2]], [y], [0, 2], [i, j], [1], [k])
           == Product(acc, acc.mul(one, At(y, [k, j])), [], [], [0, 2], [i, j], [1], [k]);
  }

  lemma {:induction false} MatMulSums(acc: Arithmetic, sofar: int, x: Tensor, y: Tensor, rows: nat, inner: nat, columns: nat,
                                      i: nat, j: nat, from: nat)
    returns (terms: seq<int>)
    requires ShapeOf(x) == [rows, inner] && ShapeOf(y) == [inner, columns] && i < rows && j < columns && from <= inner
    ensures |terms| == inner - from && forall t | 0 <= t < |terms| :: terms[t] == Multiplied(acc, x, y, i, j, from + t)
    ensures IsFold(acc.add, sofar, terms,
                   Sum(acc, sofar, Coordinates([inner], from), [[0, 1], [1, 2]], [x, y], [0, 2], [i, j], [1]))
    decreases inner - from
  {
    hide IsFold, Product, Multiplied;
    terms := [];
    if from == inner {
      FoldOfNone(acc.add, sofar);
    } else {
      var term := Multiplied(acc, x, y, i, j, from);
      MatMulTerm(acc, x, y, rows, inner, columns, i, j, from);
      var rest := MatMulSums(acc, acc.add(sofar, term), x, y, rows, inner, columns, i, j, from + 1);
      var once: seq<Index> := [[]];
      assert [inner][1..] == [] && once[1..] == [] && [from] + once[0] == [from];
      assert Prepended(from, once) == [[from]];
      assert Coordinates([inner], from) == [[from]] + Coordinates([inner], from + 1);
      terms := [term] + rest;
      FoldFromFirst(acc.add, sofar, term, rest,
                    Sum(acc, acc.add(sofar, term), Coordinates([inner], from + 1), [[0, 1], [1, 2]], [x, y], [0, 2], [i, j], [1]));
    }
  }

  lemma MatMulExtents(rows: nat, inner: nat, columns: nat)
    ensures var ins, shapes := [[0, 1], [1, 2]], [[rows, inner], [inner, columns]];
            && AllExtents(ins, shapes, 0) == [rows] && AllExtents(ins, shapes, 1) == [inner, inner]
            && AllExtents(ins, shapes, 2) == [columns]
  {
    var ins, shapes := [[0, 1], [1, 2]], [[rows, inner], [inner, columns]];
    assert ins[1..] == [[1, 2]] && shapes[1..] == [[inner, columns]];
    forall l: Label
      ensures Extents([0, 1], [rows, inner], l) == (if l == 0 then [rows] else []) + (if l == 1 then [inner] else [])
      ensures Extents([1, 2], [inner, columns], l) == (if l == 1 then [inner] else []) + (if l == 2 then [columns] else [])
    {
      assert Extents([1], [inner], l) == if l == 1 then [inner] else [];
      assert Extents([2], [columns], l) == if l == 2 then [columns] else [];
    }
    forall l: Label
      ensures AllExtents([[1, 2]], [[inner, columns]], l) == Extents([1, 2], [inner, columns], l)
    {
      assert Extents([1, 2], [inner, columns], l) + [] == Extents([1, 2], [inner, columns], l);
    }
  }

  lemma MatMulShapes(acc: Arithmetic, rows: nat, inner: nat, columns: nat)
    ensures var (e, shapes) := (MatMul(acc), [[rows, inner], [inner, columns]]);
            && Reaches(e, shapes) && OutShape(e.out, e.ins, shapes) == [rows, columns]
            && Summed(e.ins, e.out, []) == [1] && SumShape([1], e.ins, shapes) == [inner]
  {
    hide AllExtents;
    var ins, shapes := [[0, 1], [1, 2]], [[rows, inner], [inner, columns]];
    MatMulExtents(rows, inner, columns);
    forall n: nat
      ensures FirstNotOne([n]) == n
    {
      assert FirstNotOne([]) == 1;
    }
    var out: seq<Label> := [0, 2];
    assert out[1..] == [2] && out[1..][1..] == [];
    assert OutShape(out[1..], ins, shapes) == [columns] + OutShape([], ins, shapes);
    MatMulSummed();
    assert InReach([1], [inner], [0, 2], ins, shapes) && InReach([2], [columns], [0, 2], ins, shapes);
    assert InReach(ins[0], shapes[0], [0, 2], ins, shapes) && InReach(ins[1], shapes[1], [0, 2], ins, shapes);
  }

  lemma MatMulSummed()
    ensures Summed([[0, 1], [1, 2]], [0, 2], []) == [1]
  {
    assert SummedIn([0, 1], [0, 2], []) == SummedIn([1], [0, 2], []) == [1];
    assert SummedIn([1, 2], [0, 2], [1]) == SummedIn([2], [0, 2], [1]) == [1];
    assert Summed([[1, 2]], [0, 2], [1]) == [1];
  }

  /** Element `(i, j)` of a matrix product, of any extents: the fold over all `k`, in order,
      of `x[i, k]` times `y[k, j]`. */
  lemma MatMulIsRowByColumn(acc: Arithmetic, x: Tensor, y: Tensor, rows: nat, inner: nat, columns: nat, i: nat, j: nat)
    returns (terms: seq<int>)
    requires ShapeOf(x) == [rows, inner] && ShapeOf(y) == [inner, columns] && i < rows && j < columns
    ensures var r := ApplyEinSum(MatMul(acc), [x, y]);
            && r.Some? && ShapeOf(r.value) == [rows, columns]
            && |terms| == inner && (forall k | 0 <= k < inner :: terms[k] == Multiplied(acc, x, y, i, j, k))
            && IsFold(acc.add, acc.zero, terms, At(r.value, [i, j]))
  {
    hide Sum, Reaches, OutShape, SumShape, Summed, Multiplied, IsFold;
    assert Shapes([x, y]) == [[rows, inner], [inner, columns]];
    MatMulShapes(acc, rows, inner, columns);
    terms := MatMulSums(acc, acc.zero, x, y, rows, inner, columns, i, j, 0);
    var e := MatMul(acc);
    var r := ApplyEinSum(e, [x, y]).value;
    TableAt(r, OutShape(e.out, e.ins, Shapes([x, y])), Elements(e, [x, y]), [i, j]);
  }
}
