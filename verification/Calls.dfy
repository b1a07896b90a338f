/** Calls and the seats they explode into: slicing a call's inputs, and stacking
    its seats' outputs back into one answer. */
module Calls {
  import opened Outcomes
  import opened Tensors
  import opened LaneTables

  type Values = seq<Tensor>

  /** One `run()` on a handle; `done` names the channel its caller waits on. */
  datatype Call = Call(leased: LaneId, inputs: Values, done: nat)

  /** One seat of one call. `lane` is the lane it sits in, which is its caller's
      until a turn borrows another for it. */
  datatype Seat = Seat(call: nat, lane: LaneId, ix: nat, inputs: Values)

  /** Whether slot `ix` carries the batch axis: false past the end of the flags. */
  predicate Batched(flags: seq<bool>, ix: nat) {
    ix < |flags| && flags[ix]
  }

  /** How many seats the batched inputs from `ix` on ask for, given what the ones
      before asked: the first scalar or disagreement decides the error. */
  function AskedFrom(inputs: Values, batchIn: seq<bool>, ix: nat, seats: Option<nat>): Result<Option<nat>>
    requires |inputs| == |batchIn|
    decreases |inputs| - ix
  {
    if ix >= |inputs| then Ok(seats)
    else if !batchIn[ix] then AskedFrom(inputs, batchIn, ix + 1, seats)
    else if inputs[ix].Scalar? then Err(ScalarBatch(ix))
    else if seats.Some? && seats.value != |inputs[ix].rows| then Err(SeatsDisagree(ix))
    else AskedFrom(inputs, batchIn, ix + 1, Some(|inputs[ix].rows|))
  }

  /** The batched inputs are ranked and carry `n` rows each. */
  ghost predicate AsksFor(inputs: Values, batchIn: seq<bool>, n: nat) {
    && |inputs| == |batchIn|
    && forall ix | 0 <= ix < |inputs| && batchIn[ix] :: inputs[ix].Rows? && |inputs[ix].rows| == n
  }

  /** One seat's slice of the inputs: batched ones one row, shared ones whole. */
  function SeatSlice(inputs: Values, batchIn: seq<bool>, n: nat, seat: nat): (r: Values)
    requires AsksFor(inputs, batchIn, n) && seat < n
    ensures |r| == |inputs|
  {
    seq(|inputs|, ix requires 0 <= ix < |inputs| =>
      if batchIn[ix] then SliceRows(inputs[ix], seat, seat + 1) else inputs[ix])
  }

  lemma {:induction false} AskedCharacterised(inputs: Values, batchIn: seq<bool>, ix: nat, seats: Option<nat>)
    requires |inputs| == |batchIn| && ix <= |inputs|
    requires forall j | 0 <= j < ix && batchIn[j] ::
               inputs[j].Rows? && seats == Some(|inputs[j].rows|)
    requires seats.Some? ==> exists j :: 0 <= j < ix && batchIn[j]
    ensures var r := AskedFrom(inputs, batchIn, ix, seats);
            && (r.Ok? && r.value.Some? ==> AsksFor(inputs, batchIn, r.value.value)
                                           && exists j :: 0 <= j < |inputs| && batchIn[j])
            && (r.Ok? && r.value.None? ==> forall j | 0 <= j < |inputs| :: !batchIn[j])
            && (r.Err? ==> forall n: nat :: !AsksFor(inputs, batchIn, n))
    decreases |inputs| - ix
  {
    if ix < |inputs| {
      if !batchIn[ix] {
        AskedCharacterised(inputs, batchIn, ix + 1, seats);
      } else if inputs[ix].Scalar? {
      } else if seats.Some? && seats.value != |inputs[ix].rows| {
        var j :| 0 <= j < ix && batchIn[j];
        assert |inputs[j].rows| != |inputs[ix].rows|;
      } else {
        AskedCharacterised(inputs, batchIn, ix + 1, Some(|inputs[ix].rows|));
      }
    }
  }

  /** `Call::explode`: the inputs of each seat of the call. */
  function Explode(inputs: Values, batchIn: seq<bool>): Result<seq<Values>> {
    if |inputs| != |batchIn| then Err(WrongInputCount)
    else match AskedFrom(inputs, batchIn, 0, None)
      case Err(e) => Err(e)
      case Ok(asked) =>
        AskedCharacterised(inputs, batchIn, 0, None);
        var n := if asked.Some? then asked.value else 1;
        if n == 0 then Err(NoSeatAsked)
        else if n == 1 then Ok([inputs])
        else Ok(seq(n, seat requires 0 <= seat < n => SeatSlice(inputs, batchIn, n, seat)))
  }

  /** How many seats a call asks for; a call feeding no batched input asks for one. */
  ghost predicate Asks(inputs: Values, batchIn: seq<bool>, n: nat) {
    && AsksFor(inputs, batchIn, n)
    && ((forall ix | 0 <= ix < |batchIn| :: !batchIn[ix]) ==> n == 1)
  }

  /** A call explodes exactly when its batched inputs agree on a positive number
      of seats, and seat `i` then gets row `i` of each of them. */
  lemma ExplodeExactly(inputs: Values, batchIn: seq<bool>)
    ensures Explode(inputs, batchIn).Ok? <==> exists n: nat :: n > 0 && Asks(inputs, batchIn, n)
    ensures forall n: nat | n > 0 && Asks(inputs, batchIn, n) ::
              && Explode(inputs, batchIn).Ok?
              && |Explode(inputs, batchIn).value| == n
              && forall seat | 0 <= seat < n ::
                   Explode(inputs, batchIn).value[seat] == SeatSlice(inputs, batchIn, n, seat)
  {
    if |inputs| == |batchIn| {
      AskedCharacterised(inputs, batchIn, 0, None);
      forall n: nat | n > 0 && Asks(inputs, batchIn, n)
        ensures Explode(inputs, batchIn).Ok?
        ensures |Explode(inputs, batchIn).value| == n
        ensures forall seat | 0 <= seat < n ::
                  Explode(inputs, batchIn).value[seat] == SeatSlice(inputs, batchIn, n, seat)
      {
        if n == 1 {
          forall ix | 0 <= ix < |inputs|
            ensures SeatSlice(inputs, batchIn, 1, 0)[ix] == inputs[ix]
          {
            if batchIn[ix] {
              assert inputs[ix].rows[0..1] == inputs[ix].rows;
            }
          }
          assert SeatSlice(inputs, batchIn, 1, 0) == inputs;
        }
      }
      var r := AskedFrom(inputs, batchIn, 0, None);
      if r.Ok? && r.value.None? {
        assert Asks(inputs, batchIn, 1);
      } else if r.Ok? {
        assert Asks(inputs, batchIn, r.value.value);
      }
    }
  }

  /** What every seat of an exploded call looks like, whatever the call. */
  lemma ExplodedSeats(inputs: Values, batchIn: seq<bool>)
    requires Explode(inputs, batchIn).Ok?
    ensures |inputs| == |batchIn| && |Explode(inputs, batchIn).value| > 0
    ensures forall s | s in Explode(inputs, batchIn).value :: AsksFor(s, batchIn, 1)
    ensures Asks(inputs, batchIn, |Explode(inputs, batchIn).value|)
  {
    ExplodeExactly(inputs, batchIn);
    var n: nat :| n > 0 && Asks(inputs, batchIn, n);
    forall s | s in Explode(inputs, batchIn).value
      ensures AsksFor(s, batchIn, 1)
    {
      var i :| 0 <= i < n && Explode(inputs, batchIn).value[i] == s;
      assert s == SeatSlice(inputs, batchIn, n, i);
    }
  }

  /** `Call::explode` as the loop it is. */
  method ExplodeCall(call: Call, batchIn: seq<bool>) returns (r: Result<seq<Values>>)
    ensures r == Explode(call.inputs, batchIn)
    ensures r.Ok? ==> |r.value| > 0 && forall s | s in r.value :: AsksFor(s, batchIn, 1)
  {
    if |call.inputs| != |batchIn| {
      return Err(WrongInputCount);
    }
    if Explode(call.inputs, batchIn).Ok? {
      ExplodedSeats(call.inputs, batchIn);
    }
    AskedCharacterised(call.inputs, batchIn, 0, None);
    var seats: Option<nat> := None;
    for ix := 0 to |call.inputs|
      invariant AskedFrom(call.inputs, batchIn, 0, None) == AskedFrom(call.inputs, batchIn, ix, seats)
    {
      if batchIn[ix] {
        if call.inputs[ix].Scalar? {
          return Err(ScalarBatch(ix));
        }
        var asked := |call.inputs[ix].rows|;
        if seats.Some? && seats.value != asked {
          return Err(SeatsDisagree(ix));
        }
        seats := Some(asked);
      }
    }
    var n := if seats.Some? then seats.value else 1;
    if n == 0 {
      return Err(NoSeatAsked);
    }
    if n == 1 {
      return Ok([call.inputs]);
    }
    r := Ok(seq(n, seat requires 0 <= seat < n => SeatSlice(call.inputs, batchIn, n, seat)));
  }

  /** Output `ix` of every seat. A seat without one reads as a scalar, which no
      stack takes. */
  function OutputColumn(served: seq<Values>, ix: nat): (r: seq<Tensor>)
    ensures |r| == |served|
  {
    seq(|served|, i requires 0 <= i < |served| => if ix < |served[i]| then served[i][ix] else Scalar(0))
  }

  function AssembleFrom(served: seq<Values>, batchOut: seq<bool>, ix: nat): Result<Values>
    requires |served| > 0
    decreases |served[0]| - ix
  {
    if ix >= |served[0]| then Ok([])
    else
      var stacked := if Batched(batchOut, ix) then StackRows(OutputColumn(served, ix)) else Some(served[0][ix]);
      if stacked.None? then Err(StackFailed(ix))
      else match AssembleFrom(served, batchOut, ix + 1)
        case Err(e) => Err(e)
        case Ok(rest) => Ok([stacked.value] + rest)
  }

  /** `Completer::answer`: one seat's outputs handed back as they are, several
      seats' stacked, the shared ones as the first seat got them. */
  function Assemble(served: seq<Values>, batchOut: seq<bool>): Result<Values>
    requires |served| > 0
  {
    if |served| == 1 then Ok(served[0]) else AssembleFrom(served, batchOut, 0)
  }

  /** One seat's outputs: one row wide where batched. */
  predicate OneRow(outputs: Values, batchOut: seq<bool>) {
    forall ix | 0 <= ix < |outputs| && Batched(batchOut, ix) :: outputs[ix].Rows? && |outputs[ix].rows| == 1
  }

  /** And as many as `width`. */
  ghost predicate OneRowWide(outputs: Values, batchOut: seq<bool>, width: nat) {
    |outputs| == width && OneRow(outputs, batchOut)
  }

  /** Output `ix` of the answer: every seat's row in its place, or the first seat's own. */
  predicate RowsAt(served: seq<Values>, batchOut: seq<bool>, ix: nat, out: Tensor)
    requires |served| > 0 && ix < |served[0]|
  {
    if Batched(batchOut, ix) then
      && out.Rows? && |out.rows| == |served|
      && forall i | 0 <= i < |served| ::
           ix < |served[i]| && served[i][ix].Rows? && served[i][ix].inner == out.inner && served[i][ix].rows == [out.rows[i]]
    else out == served[0][ix]
  }

  lemma {:induction false} AssembledFrom(served: seq<Values>, batchOut: seq<bool>, ix: nat)
    requires |served| > 0 && ix <= |served[0]|
    requires forall s | s in served :: OneRow(s, batchOut)
    requires AssembleFrom(served, batchOut, ix).Ok?
    ensures var r := AssembleFrom(served, batchOut, ix).value;
            && |r| == |served[0]| - ix
            && forall k | 0 <= k < |r| :: RowsAt(served, batchOut, ix + k, r[k])
    decreases |served[0]| - ix
  {
    if ix < |served[0]| {
      AssembledFrom(served, batchOut, ix + 1);
      var r := AssembleFrom(served, batchOut, ix).value;
      var rest := AssembleFrom(served, batchOut, ix + 1).value;
      if Batched(batchOut, ix) {
        ColumnRows(served, batchOut, ix);
      }
      forall k | 0 <= k < |r|
        ensures RowsAt(served, batchOut, ix + k, r[k])
      {
        if k > 0 {
          assert r[k] == rest[k - 1] && ix + k == (ix + 1) + (k - 1);
        }
      }
    }
  }

  lemma ColumnRows(served: seq<Values>, batchOut: seq<bool>, ix: nat)
    requires |served| > 0 && ix < |served[0]| && Batched(batchOut, ix)
    requires (forall s | s in served :: OneRow(s, batchOut)) && StackRows(OutputColumn(served, ix)).Some?
    ensures RowsAt(served, batchOut, ix, StackRows(OutputColumn(served, ix)).value)
  {
    var column := OutputColumn(served, ix);
    var out := StackRows(column).value;
    assert column[0] in column;
    forall i | 0 <= i < |served|
      ensures ix < |served[i]| && column[i] == served[i][ix] && |column[i].rows| == 1 && column[i].inner == out.inner
    {
      assert served[i] in served && column[i] in column;
    }
    ConcatOfSingles(column);
    forall i | 0 <= i < |served|
      ensures served[i][ix].rows == [out.rows[i]]
    {
      assert column[i].rows == [column[i].rows[0]];
    }
  }

  /** The answer to a call of several seats carries the seats' rows in the order
      the call asked for them, and the first seat's shared outputs. */
  lemma AnswerIsRowByRow(served: seq<Values>, batchOut: seq<bool>)
    requires |served| > 0
    requires forall s | s in served :: OneRow(s, batchOut)
    requires Assemble(served, batchOut).Ok?
    ensures var r := Assemble(served, batchOut).value;
            |r| == |served[0]| && forall k | 0 <= k < |r| :: RowsAt(served, batchOut, k, r[k])
  {
    assert served[0] in served;
    if |served| > 1 {
      AssembledFrom(served, batchOut, 0);
      var r := Assemble(served, batchOut).value;
      forall k | 0 <= k < |r|
        ensures RowsAt(served, batchOut, k, r[k])
      {
        assert RowsAt(served, batchOut, 0 + k, r[k]);
      }
    } else {
      forall k | 0 <= k < |served[0]| && Batched(batchOut, k)
        ensures served[0][k].rows == [served[0][k].rows[0]]
      {}
    }
  }

  /** Output `ix` of all the seats stacks: each has it, ranked, and alike off axis 0. */
  predicate StacksAt(served: seq<Values>, ix: nat)
    requires |served| > 0 && ix < |served[0]|
  {
    forall i | 0 <= i < |served| ::
      ix < |served[i]| && served[i][ix].Rows? && served[0][ix].Rows? && served[i][ix].inner == served[0][ix].inner
  }

  /** The first batched output, from `from` on, that does not stack. */
  predicate FirstUnstacked(served: seq<Values>, batchOut: seq<bool>, from: nat, k: nat)
    requires |served| > 0
  {
    && from <= k < |served[0]| && Batched(batchOut, k) && !StacksAt(served, k)
    && forall j | from <= j < k && Batched(batchOut, j) :: StacksAt(served, j)
  }

  lemma ColumnStacks(served: seq<Values>, ix: nat)
    requires |served| > 0 && ix < |served[0]|
    ensures Stackable(OutputColumn(served, ix)) <==> StacksAt(served, ix)
  {
    var column := OutputColumn(served, ix);
    assert column[0] == served[0][ix];
    if Stackable(column) {
      forall i | 0 <= i < |served|
        ensures ix < |served[i]| && served[i][ix].Rows? && served[i][ix].inner == served[0][ix].inner
      {
        assert column[i] in column;
      }
    }
  }

  /** From output `ix` on: assembled if every batched output stacks; otherwise the first
      that does not names the error. */
  lemma {:induction false} AssembledIfStacking(served: seq<Values>, batchOut: seq<bool>, ix: nat)
    requires |served| > 0 && ix <= |served[0]|
    ensures var r := AssembleFrom(served, batchOut, ix);
            && (r.Ok? <==> forall k | ix <= k < |served[0]| && Batched(batchOut, k) :: StacksAt(served, k))
            && (r.Err? ==> exists k: nat :: FirstUnstacked(served, batchOut, ix, k) && r.error == StackFailed(k))
    decreases |served[0]| - ix
  {
    if ix < |served[0]| {
      ColumnStacks(served, ix);
      AssembledIfStacking(served, batchOut, ix + 1);
      var r := AssembleFrom(served, batchOut, ix);
      if r.Err? {
        if Batched(batchOut, ix) && !StacksAt(served, ix) {
          assert FirstUnstacked(served, batchOut, ix, ix);
        } else {
          var k: nat :| FirstUnstacked(served, batchOut, ix + 1, k) && r.error == StackFailed(k);
          assert FirstUnstacked(served, batchOut, ix, k);
        }
      }
    }
  }

  /** One seat, or every batched output stacks. */
  predicate Stacks(served: seq<Values>, batchOut: seq<bool>)
    requires |served| > 0
  {
    |served| == 1 || forall k | 0 <= k < |served[0]| && Batched(batchOut, k) :: StacksAt(served, k)
  }

  /** A call is answered with outputs if and only if it asked for one seat, or every batched
      output of its seats stacks; otherwise the first that does not names the error. */
  lemma AssembleExactly(served: seq<Values>, batchOut: seq<bool>)
    requires |served| > 0
    ensures var r := Assemble(served, batchOut);
            && (r.Ok? <==> Stacks(served, batchOut))
            && (|served| == 1 ==> r == Ok(served[0]))
            && (r.Err? ==> exists k: nat :: FirstUnstacked(served, batchOut, 0, k) && r.error == StackFailed(k))
  {
    AssembledIfStacking(served, batchOut, 0);
  }

  /** A refused call is refused for the first thing wrong with it: the number of its inputs,
      the first batched one that is a scalar or disagrees with the batched ones before it, or
      that they ask for no seat. */
  lemma RefusedFor(inputs: Values, batchIn: seq<bool>)
    requires Explode(inputs, batchIn).Err?
    ensures var e := Explode(inputs, batchIn).error;
            if |inputs| != |batchIn| then e == WrongInputCount
            else if AsksFor(inputs, batchIn, 0) then e == NoSeatAsked
            else exists ix, n: nat :: FirstWrong(inputs, batchIn, ix, n)
                   && e == if inputs[ix].Scalar? then ScalarBatch(ix) else SeatsDisagree(ix)
  {
    if |inputs| == |batchIn| {
      AskedCharacterised(inputs, batchIn, 0, None);
      WrongFrom(inputs, batchIn, 0, None);
    }
  }

  /** The batched inputs before `ix` all ask for `n` seats, and `ix` does not. */
  ghost predicate FirstWrong(inputs: Values, batchIn: seq<bool>, ix: int, n: nat) {
    && 0 <= ix < |inputs| == |batchIn| && batchIn[ix]
    && (forall j | 0 <= j < ix && batchIn[j] :: inputs[j].Rows? && |inputs[j].rows| == n)
    && (inputs[ix].Scalar? || (|inputs[ix].rows| != n && exists j :: 0 <= j < ix && batchIn[j]))
  }

  lemma {:induction false} WrongFrom(inputs: Values, batchIn: seq<bool>, ix: nat, seats: Option<nat>)
    requires |inputs| == |batchIn| && ix <= |inputs|
    requires forall j | 0 <= j < ix && batchIn[j] :: inputs[j].Rows? && seats == Some(|inputs[j].rows|)
    requires seats.Some? ==> exists j :: 0 <= j < ix && batchIn[j]
    ensures AskedFrom(inputs, batchIn, ix, seats).Err? ==>
      var e := AskedFrom(inputs, batchIn, ix, seats).error;
      exists k, n: nat :: FirstWrong(inputs, batchIn, k, n) && e == if inputs[k].Scalar? then ScalarBatch(k) else SeatsDisagree(k)
    decreases |inputs| - ix
  {
    if ix < |inputs| {
      if !batchIn[ix] {
        WrongFrom(inputs, batchIn, ix + 1, seats);
      } else if inputs[ix].Scalar? || (seats.Some? && seats.value != |inputs[ix].rows|) {
        assert FirstWrong(inputs, batchIn, ix, if seats.Some? then seats.value else 0);
      } else {
        WrongFrom(inputs, batchIn, ix + 1, Some(|inputs[ix].rows|));
      }
    }
  }
}
