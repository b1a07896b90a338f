/** What each edit of a tensor's axes makes: when it applies, the shape, and every element.
    Adding, dropping and reshaping axes keep the elements in their order. */
module AxisValues {
  import opened Outcomes
  import opened Tensors
  import opened Indexing
  import opened AxisOps

  // ---- Elements in order ----

  /** The elements of a tensor, row after row. */
  function Flat(t: Tensor): seq<int> {
    match t
    case Scalar(value) => [value]
    case Rows(_, rows) => FlatRows(rows)
  }

  function FlatRows(rows: seq<Tensor>): seq<int> {
    if rows == [] then [] else Flat(rows[0]) + FlatRows(rows[1..])
  }

  lemma {:induction false} FlatLength(t: Tensor)
    requires Sound(t)
    ensures |Flat(t)| == Volume(ShapeOf(t))
  {
    if t.Rows? {
      assert ShapeOf(t)[1..] == t.inner;
      forall r | r in t.rows
        ensures |Flat(r)| == Volume(t.inner)
      {
        FlatLength(r);
      }
      FlatRowsLength(t.rows, Volume(t.inner));
    }
  }

  lemma {:induction false} FlatRowsLength(rows: seq<Tensor>, n: nat)
    requires forall r | r in rows :: |Flat(r)| == n
    ensures |FlatRows(rows)| == |rows| * n
  {
    if rows != [] {
      assert rows[0] in rows && forall r | r in rows[1..] :: r in rows;
      FlatRowsLength(rows[1..], n);
      NextRow(|rows|, n);
    }
  }

  lemma {:induction false} RavelBelow(idx: Index, shape: Shape)
    requires InShape(idx, shape)
    ensures Ravel(idx, shape) < Volume(shape)
    decreases |idx|
  {
    if shape != [] {
      assert InShape(idx[1..], shape[1..]);
      RavelBelow(idx[1..], shape[1..]);
      RowFits(idx[0], shape[0], Ravel(idx[1..], shape[1..]), Volume(shape[1..]));
    }
  }

  lemma RowFits(i: nat, n: nat, rest: nat, stride: nat)
    requires i < n && rest < stride
    ensures i * stride + rest < n * stride
  {
    assert (i + 1) * stride <= n * stride;
  }

  /** The element at an index is at its row-major position. */
  lemma {:induction false} FlatAt(t: Tensor, idx: Index)
    requires Sound(t) && InShape(idx, ShapeOf(t))
    ensures Ravel(idx, ShapeOf(t)) < |Flat(t)| && Flat(t)[Ravel(idx, ShapeOf(t))] == At(t, idx)
  {
    RavelBelow(idx, ShapeOf(t));
    FlatLength(t);
    if t.Rows? {
      var inner := t.inner;
      assert ShapeOf(t)[1..] == inner && idx[0] < ShapeOf(t)[0] == |t.rows|;
      InRow(idx, |t.rows|, inner);
      assert t.rows[idx[0]] in t.rows;
      FlatAt(t.rows[idx[0]], idx[1..]);
      forall r | r in t.rows
        ensures |Flat(r)| == Volume(inner)
      {
        FlatLength(r);
      }
      FlatRowsAt(t.rows, Volume(inner), idx[0], Ravel(idx[1..], inner));
    }
  }

  lemma {:induction false} FlatRowsAt(rows: seq<Tensor>, n: nat, i: nat, k: nat)
    requires (forall r | r in rows :: |Flat(r)| == n) && i < |rows| && k < n
    ensures i * n + k < |FlatRows(rows)| && FlatRows(rows)[i * n + k] == Flat(rows[i])[k]
    decreases |rows|
  {
    hide Flat;
    assert rows[0] in rows && rows[i] in rows && forall r | r in rows[1..] :: r in rows;
    if i > 0 {
      FlatRowsAt(rows[1..], n, i - 1, k);
      NextRow(i, n);
      assert rows[1..][i - 1] == rows[i];
    }
  }

  lemma NextRow(i: nat, stride: nat)
    requires i > 0
    ensures i * stride == stride + (i - 1) * stride
  {}

  lemma {:induction false} UnravelIs(n: nat, shape: Shape)
    requires n < Volume(shape)
    ensures InShape(Unravel(n, shape), shape) && Ravel(Unravel(n, shape), shape) == n
    decreases |shape|
  {
    if shape != [] {
      var stride := Volume(shape[1..]);
      RowOf(n, shape[0], stride);
      UnravelIs(n % stride, shape[1..]);
      var idx, rest := Unravel(n, shape), Unravel(n % stride, shape[1..]);
      assert idx == [n / stride] + rest && idx[1..] == rest;
      forall k | 0 <= k < |shape|
        ensures idx[k] < shape[k]
      {
        assert k > 0 ==> rest[k - 1] < shape[1..][k - 1];
      }
    }
  }

  lemma RowOf(n: nat, rows: nat, stride: nat)
    requires n < rows * stride
    ensures stride > 0 && n / stride < rows && (n / stride) * stride + n % stride == n
  {
    assert stride > 0;
    NotBeyond(n / stride, rows, stride);
  }

  lemma NotBeyond(row: nat, rows: nat, stride: nat)
    ensures row >= rows ==> row * stride >= rows * stride
  {}

  lemma {:induction false} VolumeJoins(a: Shape, b: Shape)
    ensures Volume(a + b) == Volume(a) * Volume(b)
  {
    if a == [] {
      assert a + b == b;
    } else {
      assert (a + b)[1..] == a[1..] + b;
      VolumeJoins(a[1..], b);
      assert a[0] * (Volume(a[1..]) * Volume(b)) == (a[0] * Volume(a[1..])) * Volume(b);
    }
  }

  lemma {:induction false} RavelJoins(i: Index, a: Shape, j: Index, b: Shape)
    requires |i| == |a|
    ensures Ravel(i + j, a + b) == Ravel(i, a) * Volume(b) + Ravel(j, b)
    decreases |i|
  {
    if a == [] {
      assert i + j == j && a + b == b;
    } else {
      assert (a + b)[1..] == a[1..] + b && (i + j)[1..] == i[1..] + j;
      RavelJoins(i[1..], a[1..], j, b);
      VolumeJoins(a[1..], b);
      Regroup(i[0], Volume(a[1..]), Volume(b), Ravel(i[1..], a[1..]));
    }
  }

  lemma Regroup(x: nat, v: nat, w: nat, r: nat)
    ensures x * (v * w) + r * w == (x * v + r) * w
  {}

  // ---- Keeping the order ----

  lemma RavelOfThree(head: Index, h: Shape, i: Index, a: Shape, tail: Index, t: Shape)
    requires |head| == |h| && |i| == |a|
    ensures Ravel(head + i + tail, h + a + t) == (Ravel(head, h) * Volume(a) + Ravel(i, a)) * Volume(t) + Ravel(tail, t)
    ensures Volume(h + a + t) == Volume(h) * Volume(a) * Volume(t)
  {
    hide Ravel, Volume;
    RavelJoins(head + i, h + a, tail, t);
    RavelJoins(head, h, i, a);
    VolumeJoins(h + a, t);
    VolumeJoins(h, a);
  }

  /** Swapping the middle of an index for one of as many elements at the same position keeps
      the position of the whole. */
  lemma MiddleKept(head: Index, h: Shape, i: Index, a: Shape, j: Index, b: Shape, tail: Index, t: Shape)
    requires |head| == |h| && |i| == |a| && |j| == |b| && Volume(a) == Volume(b) && Ravel(i, a) == Ravel(j, b)
    ensures Ravel(head + i + tail, h + a + t) == Ravel(head + j + tail, h + b + t)
    ensures Volume(h + a + t) == Volume(h + b + t)
  {
    hide Ravel, Volume;
    RavelOfThree(head, h, i, a, tail, t);
    RavelOfThree(head, h, j, b, tail, t);
  }

  /** Read each at the same position, two tensors hold the same elements in the same order. */
  lemma SameOrder(t: Tensor, u: Tensor, source: Index -> Index)
    requires Sound(t) && Sound(u) && Volume(ShapeOf(t)) == Volume(ShapeOf(u))
    requires forall idx | InShape(idx, ShapeOf(u)) ::
      && InShape(source(idx), ShapeOf(t)) && Ravel(source(idx), ShapeOf(t)) == Ravel(idx, ShapeOf(u))
      && At(u, idx) == At(t, source(idx))
    ensures Flat(u) == Flat(t)
  {
    FlatLength(t);
    FlatLength(u);
    forall n | 0 <= n < |Flat(u)|
      ensures Flat(u)[n] == Flat(t)[n]
    {
      var idx := Unravel(n, ShapeOf(u));
      UnravelIs(n, ShapeOf(u));
      FlatAt(u, idx);
      FlatAt(t, source(idx));
    }
  }

  lemma InShapeJoins(i: Index, a: Shape, j: Index, b: Shape)
    requires |i| == |a| && |j| == |b|
    ensures InShape(i + j, a + b) <==> InShape(i, a) && InShape(j, b)
  {
    if InShape(i + j, a + b) {
      forall k | 0 <= k < |a|
        ensures i[k] < a[k]
      {
        assert (i + j)[k] < (a + b)[k];
      }
      forall k | 0 <= k < |b|
        ensures j[k] < b[k]
      {
        assert (i + j)[|a| + k] < (a + b)[|a| + k];
      }
    }
  }

  lemma MiddleInShape(head: Index, h: Shape, i: Index, a: Shape, tail: Index, t: Shape)
    requires |head| == |h| && |i| == |a| && |tail| == |t|
    ensures InShape(head + i + tail, h + a + t) <==> InShape(head, h) && InShape(i, a) && InShape(tail, t)
  {
    hide InShape;
    InShapeJoins(head + i, h + a, tail, t);
    InShapeJoins(head, h, i, a);
  }

  /** `idx`, whose middle is in `b`, is read where the same position in `a` is. */
  ghost predicate MiddleRead(source: Index -> Index, from: nat, a: Shape, b: Shape, idx: Index)
    requires from + |b| <= |idx|
  {
    exists i: Index ::
      InShape(i, a) && Ravel(i, a) == Ravel(idx[from..from + |b|], b) && source(idx) == idx[..from] + i + idx[from + |b|..]
  }

  /** Tensors read so hold the same elements in the same order. */
  lemma MiddleKeepsOrder(t: Tensor, u: Tensor, source: Index -> Index, head: Shape, a: Shape, b: Shape, tail: Shape)
    requires Sound(t) && Sound(u) && ShapeOf(t) == head + a + tail && ShapeOf(u) == head + b + tail && Volume(a) == Volume(b)
    requires forall idx: Index | InShape(idx, ShapeOf(u)) ::
      |head| + |b| <= |idx| && MiddleRead(source, |head|, a, b, idx) && At(u, idx) == At(t, source(idx))
    ensures Flat(u) == Flat(t)
  {
    hide Volume, Ravel, At, Sound, InShape, MiddleRead;
    forall idx: Index | InShape(idx, ShapeOf(u))
      ensures InShape(source(idx), ShapeOf(t)) && Ravel(source(idx), ShapeOf(t)) == Ravel(idx, ShapeOf(u))
    {
      MiddleMoved(source, head, a, b, tail, idx);
    }
    VolumesEqual(head, a, b, tail);
    SameOrder(t, u, source);
  }

  lemma VolumesEqual(head: Shape, a: Shape, b: Shape, tail: Shape)
    requires Volume(a) == Volume(b)
    ensures Volume(head + a + tail) == Volume(head + b + tail)
  {
    hide Volume;
    VolumeJoins(head + a, tail);
    VolumeJoins(head + b, tail);
    VolumeJoins(head, a);
    VolumeJoins(head, b);
  }

  lemma ShapesLong(idx: Index, shape: Shape)
    requires InShape(idx, shape)
    ensures |idx| == |shape|
  {}

  lemma MiddleMoved(source: Index -> Index, h: Shape, a: Shape, b: Shape, t: Shape, idx: Index)
    requires Volume(a) == Volume(b) && InShape(idx, h + b + t)
    requires |h| + |b| <= |idx| && MiddleRead(source, |h|, a, b, idx)
    ensures InShape(source(idx), h + a + t) && Ravel(source(idx), h + a + t) == Ravel(idx, h + b + t)
  {
    hide Volume, Ravel, InShape;
    ShapesLong(idx, h + b + t);
    var (head, mid, tail) := (idx[..|h|], idx[|h|..|h| + |b|], idx[|h| + |b|..]);
    var i: Index :| InShape(i, a) && Ravel(i, a) == Ravel(mid, b) && source(idx) == head + i + tail;
    assert idx == head + mid + tail;
    ShapesLong(i, a);
    MiddleInShape(head, h, mid, b, tail, t);
    MiddleInShape(head, h, i, a, tail, t);
    MiddleKept(head, h, mid, b, i, a, tail, t);
  }

  // ---- What each edit makes ----

  /** `r` has the shape, and the elements of `t` in their order. */
  ghost predicate Reshaped(t: Tensor, r: Option<Tensor>, shape: Shape) {
    r.Some? && Sound(r.value) && ShapeOf(r.value) == shape && Flat(r.value) == Flat(t)
  }

  lemma EditKeepsOrder(op: AxisOp, t: Tensor, head: Shape, a: Shape, b: Shape, tail: Shape)
    requires Sound(t) && Canonical(op) == op && ShapeOf(t) == head + a + tail && Volume(a) == Volume(b)
    requires RequiredRank(op) <= |ShapeOf(t)| && ChangedShape(op, ShapeOf(t)) == Some(head + b + tail)
    requires forall idx: Index | InShape(idx, head + b + tail) ::
      |head| + |b| <= |idx| && MiddleRead((i: Index) => SourceIndex(op, ShapeOf(t), i), |head|, a, b, idx)
    ensures Reshaped(t, ApplyAxis(op, t), head + b + tail)
  {
    hide Volume, MiddleRead, Flat, ChangedShape, SourceIndex, Canonical;
    var shape := ShapeOf(t);
    var u := ApplyAxis(op, t).value;
    var source := (i: Index) => SourceIndex(op, shape, i);
    forall idx: Index | InShape(idx, ShapeOf(u))
      ensures At(u, idx) == At(t, source(idx))
    {
      TableAt(u, head + b + tail, Reader(op, t), idx);
      EditReads(op, t, idx);
    }
    MiddleKeepsOrder(t, u, source, head, a, b, tail);
  }

  lemma OneIsFlat(idx: Index)
    requires InShape(idx, [1])
    ensures Volume([1]) == 1 == Volume([]) && Ravel(idx, [1]) == 0 == Ravel([], []) && InShape([], [])
  {
    var one: Shape := [1];
    assert one[1..] == [] && idx[0] == 0;
  }

  /** Adding an axis: at any place up to the rank, of extent one. */
  lemma AddExactly(a: nat, t: Tensor)
    requires Sound(t)
    ensures var (r, shape) := (ApplyAxis(Add(a), t), ShapeOf(t));
            && (r.Some? <==> a <= |shape|)
            && (a <= |shape| ==> Reshaped(t, r, shape[..a] + [1] + shape[a..]))
  {
    hide Reader, IsTable, Sound, Flat, Volume, Ravel, Reshaped;
    var shape := ShapeOf(t);
    if a <= |shape| {
      var head, tail := shape[..a], shape[a..];
      assert shape == head + [] + tail;
      OneIsFlat([0]);
      forall idx: Index | InShape(idx, head + [1] + tail)
        ensures |head| + 1 <= |idx| && MiddleRead((i: Index) => SourceIndex(Add(a), shape, i), |head|, [], [1], idx)
      {
        var mid := idx[a..a + 1];
        assert (head + [1] + tail)[a] == 1 && idx[a] < 1;
        OneIsFlat(mid);
        assert InShape([], []) && Ravel([], []) == Ravel(mid, [1]);
        assert RemoveAt(idx, a) == idx[..a] + [] + idx[a + 1..];
      }
      EditKeepsOrder(Add(a), t, head, [], [1], tail);
    }
  }

  /** Dropping an axis: any of extent one. */
  lemma RmExactly(a: nat, t: Tensor)
    requires Sound(t)
    ensures var (r, shape) := (ApplyAxis(Rm(a), t), ShapeOf(t));
            && (r.Some? <==> a < |shape| && shape[a] == 1)
            && (r.Some? ==> Reshaped(t, r, shape[..a] + shape[a + 1..]))
  {
    hide Reader, IsTable, Sound, Flat, Volume, Ravel, Reshaped;
    var shape := ShapeOf(t);
    if a < |shape| && shape[a] == 1 {
      var head, tail := shape[..a], shape[a + 1..];
      assert shape == head + [1] + tail && head + [] + tail == head + tail;
      OneIsFlat([0]);
      forall idx: Index | InShape(idx, head + [] + tail)
        ensures |head| + 0 <= |idx| && MiddleRead((i: Index) => SourceIndex(Rm(a), shape, i), |head|, [1], [], idx)
      {
        assert idx[a..a + 0] == [] && InShape([0], [1]) && Ravel([0], [1]) == Ravel([], []);
        assert InsertAt(idx, a, 0) == idx[..a] + [0] + idx[a + 0..];
      }
      EditKeepsOrder(Rm(a), t, head, [1], [], tail);
    }
  }

  lemma {:induction false} VolumeOfOnes(shape: Shape)
    requires AllOnes(shape)
    ensures Volume(shape) == 1
  {
    if shape != [] {
      assert shape[0] == 1;
      assert AllOnes(shape[1..]) by {
        forall k | 0 <= k < |shape| - 1
          ensures shape[1..][k] == 1
        {
          assert shape[k + 1] == 1;
        }
      }
      VolumeOfOnes(shape[1..]);
    }
  }

  /** Reads the same position of the middle. */
  lemma ReshapeReads(at: nat, before: Shape, after: Shape, shape: Shape, made: Shape, idx: Index)
    requires at + |before| <= |shape| && |made| == |after| && Volume(made) == Volume(shape[at..at + |before|])
    requires made == (if shape[at..at + |before|] == before then after else Ones(|after|))
    requires InShape(idx, shape[..at] + made + shape[at + |before|..])
    ensures at + |made| <= |idx|
    ensures MiddleRead((i: Index) => SourceIndex(Reshape(at, before, after), shape, i), at, shape[at..at + |before|], made, idx)
  {
    hide Volume, Ravel, Unravel, InShape, Ones;
    var read := shape[at..at + |before|];
    var (head, tail) := (shape[..at], shape[at + |before|..]);
    ShapesLong(idx, head + made + tail);
    var (i, mid, j) := (idx[..at], idx[at..at + |made|], idx[at + |made|..]);
    assert idx == i + mid + j;
    MiddleInShape(i, head, mid, made, j, tail);
    RavelBelow(mid, made);
    UnravelIs(Ravel(mid, made), read);
    var there := Unravel(Ravel(mid, made), read);
    assert SourceIndex(Reshape(at, before, after), shape, idx) == i + there + j;
  }

  /** The shape a reshape makes: the axes it names, or as many ones as it names where the
      tensor has ones; if these are there and it names as many elements after as before. */
  ghost predicate ReshapesTo(at: nat, before: Shape, after: Shape, shape: Shape, made: Shape) {
    && Volume(before) == Volume(after) && at + |before| <= |shape| && |made| == |after|
    && if shape[at..at + |before|] == before then made == after
       else AllOnes(shape[at..at + |before|]) && AllOnes(made)
  }

  /** A reshape reaches no axis past the tensor's. One that only adds or drops an axis of one
      does just that, whatever is there; any other applies exactly when it reshapes what is
      there, and keeps the elements' order. */
  lemma ReshapeExactly(at: nat, before: Shape, after: Shape, t: Tensor)
    requires Sound(t)
    ensures var (r, shape) := (ApplyAxis(Reshape(at, before, after), t), ShapeOf(t));
            if at + |before| > |shape| then r == None
            else if |before| == 1 && after == [before[0], 1] then r == ApplyAxis(Add(at + 1), t)
            else if |before| == 1 && after == [1, before[0]] then r == ApplyAxis(Add(at), t)
            else if |after| == 1 && before == [after[0], 1] then r == ApplyAxis(Rm(at + 1), t)
            else if |after| == 1 && before == [1, after[0]] then r == ApplyAxis(Rm(at), t)
            else
              && (r.Some? <==> exists made :: ReshapesTo(at, before, after, shape, made))
              && forall made | ReshapesTo(at, before, after, shape, made) ::
                   Reshaped(t, r, shape[..at] + made + shape[at + |before|..])
  {
    hide Reader, IsTable, Sound, Flat, Volume, Ravel, Unravel, SourceIndex, ShapeOf, Reshaped;
    var (op, shape) := (Reshape(at, before, after), ShapeOf(t));
    if Canonical(op) == op {
      var r := ApplyAxis(op, t);
      if r.Some? {
        var made := if shape[at..at + |before|] == before then after else Ones(|after|);
        assert ReshapesTo(at, before, after, shape, made);
      }
      forall made | ReshapesTo(at, before, after, shape, made)
        ensures Reshaped(t, r, shape[..at] + made + shape[at + |before|..])
      {
        ReshapeMakes(at, before, after, t, made);
      }
    }
  }

  lemma ReshapeMakes(at: nat, before: Shape, after: Shape, t: Tensor, made: Shape)
    requires Sound(t) && Canonical(Reshape(at, before, after)) == Reshape(at, before, after)
    requires ReshapesTo(at, before, after, ShapeOf(t), made)
    ensures Reshaped(t, ApplyAxis(Reshape(at, before, after), t), ShapeOf(t)[..at] + made + ShapeOf(t)[at + |before|..])
  {
    hide Reader, IsTable, Sound, Flat, Volume, Ravel, Unravel, SourceIndex, Reshaped, MiddleRead, Canonical;
    var (op, shape) := (Reshape(at, before, after), ShapeOf(t));
    var (head, read, tail) := (shape[..at], shape[at..at + |before|], shape[at + |before|..]);
    assert shape == head + read + tail;
    if read != before {
      assert made == Ones(|after|);
      VolumeOfOnes(read);
      VolumeOfOnes(made);
    }
    forall idx: Index | InShape(idx, head + made + tail)
      ensures |head| + |made| <= |idx| && MiddleRead((i: Index) => SourceIndex(op, shape, i), |head|, read, made, idx)
    {
      ReshapeReads(at, before, after, shape, made, idx);
    }
    EditKeepsOrder(op, t, head, read, made, tail);
  }

  /** `s` with the entry at `from` taken out and put in at `to`. */
  function Moved(s: seq<nat>, from: nat, to: nat): (r: seq<nat>)
    requires from < |s| && to < |s|
    ensures |r| == |s|
  {
    var rest := s[..from] + s[from + 1..];
    rest[..to] + [s[from]] + rest[to..]
  }

  lemma PutIn(rest: seq<nat>, to: nat, x: nat)
    requires to <= |rest|
    ensures var r := rest[..to] + [x] + rest[to..]; r == InsertAt(rest, to, x) && RemoveAt(r, to) == rest && r[to] == x
  {
    var r := rest[..to] + [x] + rest[to..];
    assert r[..to] == rest[..to] && r[to + 1..] == rest[to..];
  }

  lemma MoveReadsBack(from: nat, to: nat, s: seq<nat>)
    requires from < |s| && to < |s|
    ensures Moved(s, from, to) == InsertAt(RemoveAt(s, from), to, s[from])
    ensures InsertAt(RemoveAt(Moved(s, from, to), to), from, Moved(s, from, to)[to]) == s
  {
    hide InsertAt;
    var rest := s[..from] + s[from + 1..];
    assert RemoveAt(s, from) == rest;
    PutIn(rest, to, s[from]);
    InsertUndoesRemove(s, from);
  }

  lemma SwapIsEither(at: nat, s: seq<nat>)
    requires at + 1 < |s|
    ensures Moved(s, at + 1, at) == Moved(s, at, at + 1)
  {}

  lemma MovedInShape(from: nat, to: nat, idx: Index, shape: Shape)
    requires from < |shape| && to < |shape| && InShape(idx, shape)
    ensures InShape(Moved(idx, from, to), Moved(shape, from, to))
  {
    var (rest, axes) := (idx[..from] + idx[from + 1..], shape[..from] + shape[from + 1..]);
    forall k | 0 <= k < |rest|
      ensures rest[k] < axes[k]
    {
      assert rest[k] == idx[if k < from then k else k + 1] && axes[k] == shape[if k < from then k else k + 1];
    }
  }

  /** Moving an axis: any to any place, and each element to the index so moved. */
  lemma MoveExactly(from: nat, to: nat, t: Tensor)
    requires Sound(t)
    ensures var (r, shape) := (ApplyAxis(Move(from, to), t), ShapeOf(t));
            && (r.Some? <==> from < |shape| && to < |shape|)
            && (r.Some? ==> Sound(r.value) && ShapeOf(r.value) == Moved(shape, from, to))
            && (r.Some? ==> forall idx: Index | InShape(idx, shape) :: At(r.value, Moved(idx, from, to)) == At(t, idx))
  {
    hide Reader, At, Sound, Moved, InsertAt, RemoveAt;
    var shape := ShapeOf(t);
    if from < |shape| && to < |shape| {
      MoveReadsBack(from, to, shape);
      if from == to + 1 {
        SwapIsEither(to, shape);
        MoveReadsBack(to, from, shape);
      }
      var r := ApplyAxis(Move(from, to), t).value;
      forall idx: Index | InShape(idx, shape)
        ensures At(r, Moved(idx, from, to)) == At(t, idx)
      {
        ShapesLong(idx, shape);
        MovedInShape(from, to, idx, shape);
        TableAt(r, Moved(shape, from, to), Reader(Canonical(Move(from, to)), t), Moved(idx, from, to));
        if from == to + 1 {
          SwapIsEither(to, idx);
          MoveReadsBack(to, from, idx);
          MoveReads(to, from, t, Moved(idx, from, to));
        } else {
          MoveReadsBack(from, to, idx);
          MoveReads(from, to, t, Moved(idx, from, to));
        }
      }
    }
  }
}
