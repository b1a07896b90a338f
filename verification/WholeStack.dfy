/** The whole stack: a stateless model batchified, served by the laned worker, and
    hidden behind the interface it had before. */
module WholeStack {
  import opened Outcomes
  import opened Calls
  import opened LaneTables
  import opened Queues
  import opened Turns
  import opened Streams
  import opened LaneModels
  import opened WideCalls
  import opened Unbatched

  /** A stateless model, before it was given a batch axis. */
  type Original = Values -> Values

  /** One seat's inputs without the axis of one they came with. */
  function Narrowed(inputs: Values, batchIn: seq<bool>): Values {
    var r := AxisDropped(inputs, batchIn);
    if r.Some? then r.value else []
  }

  /** The interior answers every seat of a turn what the original answers that seat
      alone, each with its axis of one. */
  ghost predicate SeatBySeat<S(!new)>(setup: Setup<S>, f: Original) {
    forall state: S, batched: Values, n: nat ::
      n > 0 && AsksFor(batched, setup.batchIn, n) && setup.interior.run(state, batched).1.Some?
      && Occupies(setup.interior.run(state, batched).1.value, setup.batchOut, n)
      ==> ServesSeats(setup, f, batched, setup.interior.run(state, batched).1.value, n)
  }

  ghost predicate ServesSeats<S>(setup: Setup<S>, f: Original, batched: Values, outputs: Values, n: nat)
    requires AsksFor(batched, setup.batchIn, n) && Occupies(outputs, setup.batchOut, n)
  {
    forall i | 0 <= i < n ::
      SeatOutputs(outputs, setup.batchOut, n, i)
      == AxisAdded(f(Narrowed(SeatSlice(batched, setup.batchIn, n, i), setup.batchIn)), setup.batchOut)
  }

  /** The lane model of a stateless interior: no lane holds anything. */
  ghost function Memoryless<S>(setup: Setup<S>, f: Original): LaneModel<S, ()> {
    LaneModel((_, _) => (), (), (_: (), inputs: Values) => ((), AxisAdded(f(Narrowed(inputs, setup.batchIn)), setup.batchOut)))
  }

  lemma MemorylessIsLaneWise<S(!new)>(setup: Setup<S>, f: Original)
    requires SeatBySeat(setup, f)
    ensures LaneWise(setup, Memoryless(setup, f)) && Stateless(Memoryless(setup, f))
  {
    var m := Memoryless(setup, f);
    forall state: S, seating: Seating, batched: Values
      ensures RunIsLaneWise(setup, m, state, seating, batched)
    {
      var (published, ok) := setup.interior.seat(state, seating);
      var outputs := setup.interior.run(published, batched).1;
      var n := |seating.lanes|;
      if n > 0 && AsksFor(batched, setup.batchIn, n) && outputs.Some? && Occupies(outputs.value, setup.batchOut, n) {
        assert ServesSeats(setup, f, batched, outputs.value, n);
      }
    }
    assert forall state: S, lane: LaneId :: ResetIsLocal(setup, m, state, lane);
    assert forall state: S, seating: Seating :: SeatingIsInert(setup, m, state, seating);
  }

  /** Asked through the hidden axis, one seat is what is asked for. */
  lemma AddedAsksOne(x: Values, batchIn: seq<bool>)
    requires |x| == |batchIn|
    ensures Asks(AxisAdded(x, batchIn), batchIn, 1)
    ensures Explode(AxisAdded(x, batchIn), batchIn) == Ok([AxisAdded(x, batchIn)])
    ensures Narrowed(AxisAdded(x, batchIn), batchIn) == x
  {
    var inputs := AxisAdded(x, batchIn);
    assert Asks(inputs, batchIn, 1);
    ExplodeExactly(inputs, batchIn);
    AskedCharacterised(inputs, batchIn, 0, None);
    DropUndoesAdd(x, batchIn);
  }

  /** The same number of outputs whatever the inputs. */
  ghost predicate Answers(f: Original, width: nat) {
    forall x: Values :: |f(x)| == width
  }

  /** Over every run of the worker, a call made through the hidden axis and answered with
      outputs has the axis one seat wide on every batched output, so that dropping it
      succeeds, and what is left is exactly the original's answer. */
  lemma HiddenLanedIsOriginal<S(!new)>(setup: Setup<S>, f: Original, width: nat, state: S, maxLanes: nat, events: seq<Event>,
                                      a: Answer, x: Values)
    requires SeatBySeat(setup, f) && Answers(f, width)
    requires AllowedRun(setup, Fresh(state, maxLanes), events)
    requires a in Ran(setup, Fresh(state, maxLanes), events).world.queue.outbox && a.result.Ok?
    requires |x| == |setup.batchIn|
    requires var sys := Ran(setup, Fresh(state, maxLanes), events);
             a.call < |sys.received| && sys.received[a.call].call.inputs == AxisAdded(x, setup.batchIn)
    ensures AxisDropped(a.result.value, setup.batchOut) == Some(f(x))
  {
    var m := Memoryless(setup, f);
    MemorylessIsLaneWise(setup, f);
    forall inputs | AsksFor(inputs, setup.batchIn, 1)
      ensures OneRowWide(Apply(m, inputs), setup.batchOut, width)
    {
      assert |f(Narrowed(inputs, setup.batchIn))| == width;
    }
    WideCallsAreTransparent(setup, m, width, state, maxLanes, events, a);
    AddedAsksOne(x, setup.batchIn);
    var inputs, answer := AxisAdded(x, setup.batchIn), a.result.value;
    assert IsRowByRow(setup, m, inputs, answer, 1);
    OneSeatIsWhole(inputs, setup.batchIn);
    var own := Apply(m, inputs);
    assert own == AxisAdded(f(x), setup.batchOut);
    assert |f(x)| == width == |answer|;
    forall ix | 0 <= ix < |answer|
      ensures (if Batched(setup.batchOut, ix) then DropAxis0(answer[ix]) else Some(answer[ix])) == Some(f(x)[ix])
    {
      if Batched(setup.batchOut, ix) {
        assert own[ix].rows == [answer[ix].rows[0]];
      }
    }
    DroppedPointwise(answer, setup.batchOut, f(x));
  }

  lemma OneSeatIsWhole(inputs: Values, batchIn: seq<bool>)
    requires AsksFor(inputs, batchIn, 1)
    ensures SeatSlice(inputs, batchIn, 1, 0) == inputs
  {
    forall ix | 0 <= ix < |inputs|
      ensures SeatSlice(inputs, batchIn, 1, 0)[ix] == inputs[ix]
    {
      if batchIn[ix] {
        assert inputs[ix].rows[0..1] == inputs[ix].rows;
      }
    }
  }
}
