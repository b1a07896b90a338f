/** What the worker takes on trust about the model it serves: every lane is a
    stream of its own, and a turn moves each seated lane by that lane's own seat.
    Nothing is asked of a lane whose run failed, nor of one whose reset did. */
module LaneModels {
  import opened Outcomes
  import opened Tensors
  import opened LaneTables
  import opened Calls
  import opened Turns
  import opened Streams

  /** One stream of the model: what a lane holds, what a fresh one holds, and what
      one seat of a turn does to it. */
  datatype LaneModel<!S, !L> = LaneModel(
    view: (S, LaneId) -> L,
    blank: L,
    step: (L, Values) -> (L, Values))

  ghost predicate ResetIsLocal<S, L>(setup: Setup<S>, m: LaneModel<S, L>, state: S, lane: LaneId) {
    var (after, ok) := setup.interior.reset(state, lane);
    && (ok ==> m.view(after, lane) == m.blank)
    && forall l: LaneId | l != lane :: m.view(after, l) == m.view(state, l)
  }

  ghost predicate SeatingIsInert<S, L>(setup: Setup<S>, m: LaneModel<S, L>, state: S, seating: Seating) {
    var (after, _) := setup.interior.seat(state, seating);
    forall l: LaneId :: m.view(after, l) == m.view(state, l)
  }

  ghost predicate RunIsLaneWise<S, L>(setup: Setup<S>, m: LaneModel<S, L>, state: S, seating: Seating, batched: Values) {
    var (published, ok) := setup.interior.seat(state, seating);
    var (after, outputs) := setup.interior.run(published, batched);
    var n := |seating.lanes|;
    ok ==>
      && (forall l: LaneId | l !in seating.lanes :: m.view(after, l) == m.view(state, l))
      && (Seatable(seating.lanes, seating.maxLanes) && AsksFor(batched, setup.batchIn, n)
          && outputs.Some? && Occupies(outputs.value, setup.batchOut, n)
          ==> forall i | 0 <= i < n ::
                (m.view(after, seating.lanes[i]), SeatOutputs(outputs.value, setup.batchOut, n, i))
                == m.step(m.view(state, seating.lanes[i]), SeatSlice(batched, setup.batchIn, n, i)))
  }

  ghost predicate LaneWise<S(!new), L>(setup: Setup<S>, m: LaneModel<S, L>) {
    && (forall state, lane :: ResetIsLocal(setup, m, state, lane))
    && (forall state, seating :: SeatingIsInert(setup, m, state, seating))
    && (forall state, seating, batched :: RunIsLaneWise(setup, m, state, seating, batched))
  }

  // ---- Stacking a turn's inputs and slicing them again ----

  /** What a seat fed is what the run reads in that seat of the stacked turn. */
  lemma GatherKeepsSeats(batchIn: seq<bool>, seated: seq<Seat>)
    requires |seated| > 0
    requires forall s | s in seated :: |s.inputs| == |batchIn|
    requires GatherFrom(batchIn, seated, 0).Ok?
    ensures var batched := GatherFrom(batchIn, seated, 0).value;
            && AsksFor(batched, batchIn, |seated|)
            && forall i | 0 <= i < |seated| :: SeatSlice(batched, batchIn, |seated|, i) == seated[i].inputs
  {
    var batched := GatherFrom(batchIn, seated, 0).value;
    forall ix | 0 <= ix < |batchIn|
      ensures batchIn[ix] ==> batched[ix].Rows? && |batched[ix].rows| == |seated|
      ensures forall i | 0 <= i < |seated| ::
                |seated[i].inputs| == |batchIn|
                && seated[i].inputs[ix]
                   == if batchIn[ix] then SliceRows(batched[ix], i, i + 1) else batched[ix]
    {
      GatherOneKeepsSeats(batchIn, seated, ix, batched[ix]);
    }
    assert AsksFor(batched, batchIn, |seated|);
    forall i | 0 <= i < |seated|
      ensures SeatSlice(batched, batchIn, |seated|, i) == seated[i].inputs
    {
      assert |seated[i].inputs| == |batchIn| by {
        assert seated[i] in seated;
      }
      assert forall ix | 0 <= ix < |batchIn| ::
          SeatSlice(batched, batchIn, |seated|, i)[ix] == seated[i].inputs[ix];
    }
  }

  lemma GatherOneKeepsSeats(batchIn: seq<bool>, seated: seq<Seat>, ix: nat, t: Tensor)
    requires |seated| > 0 && ix < |batchIn|
    requires forall s | s in seated :: |s.inputs| == |batchIn|
    requires GatherOne(batchIn, seated, ix) == Ok(t)
    ensures batchIn[ix] ==> t.Rows? && |t.rows| == |seated|
    ensures forall i | 0 <= i < |seated| ::
              |seated[i].inputs| == |batchIn|
              && seated[i].inputs[ix] == if batchIn[ix] then SliceRows(t, i, i + 1) else t
  {
    var column := InputColumn(seated, ix);
    assert forall i | 0 <= i < |seated| :: column[i] in column && seated[i] in seated;
    if batchIn[ix] {
      SinglesStack(column, t);
    }
  }

  /** What stacks, one row each, is sliced back one row each. */
  lemma SinglesStack(column: seq<Tensor>, t: Tensor)
    requires StackRows(column) == Some(t) && forall i | 0 <= i < |column| :: column[i].Rows? && |column[i].rows| == 1
    ensures t.Rows? && |t.rows| == |column| && forall i | 0 <= i < |column| :: column[i] == SliceRows(t, i, i + 1)
  {
    hide ShapeOf, Sound;
    ConcatOfSingles(column);
    forall i | 0 <= i < |column|
      ensures column[i] == SliceRows(t, i, i + 1)
    {
      assert column[i] in column;
      assert column[i].rows == [column[i].rows[0]] == t.rows[i..i + 1];
    }
  }

  // ---- What a turn does to each lane ----

  /** Running the turn moves each seated lane by its own seat, serves each seat what
      its own lane answers, and leaves every other lane alone. */
  lemma TurnIsLaneWise<S(!new), L>(setup: Setup<S>, m: LaneModel<S, L>, state: S, taken: seq<bool>, seated: seq<Seat>)
    requires LaneWise(setup, m)
    requires |seated| > 0 && forall s | s in seated :: |s.inputs| == |setup.batchIn|
    requires Seatable(LanesOf(seated), |taken|)
    ensures var (after, served) := TurnRun(setup, state, taken, seated);
            && (forall l: LaneId | l !in LanesOf(seated) :: m.view(after, l) == m.view(state, l))
            && (served.Ok? ==> forall i | 0 <= i < |seated| ::
                  (m.view(after, seated[i].lane), served.value[i])
                  == m.step(m.view(state, seated[i].lane), seated[i].inputs))
  {
    match SeatLanes(taken, LanesOf(seated)) {
      case Err(_) =>
      case Ok(seating) =>
        SeatingAccepts(|taken|, LanesOf(seated));
        assert SeatingIsInert(setup, m, state, seating);
        match GatherFrom(setup.batchIn, seated, 0) {
          case Err(_) =>
          case Ok(batched) =>
            GatherKeepsSeats(setup.batchIn, seated);
            assert RunIsLaneWise(setup, m, state, seating, batched);
            var (after, served) := TurnRun(setup, state, taken, seated);
            forall i | 0 <= i < |seated| && served.Ok?
              ensures (m.view(after, seated[i].lane), served.value[i])
                      == m.step(m.view(state, seated[i].lane), seated[i].inputs)
            {
              var (published, ok) := setup.interior.seat(state, seating);
              var (_, outputs) := setup.interior.run(published, batched);
              assert seating == Seating(LanesOf(seated), |taken|);
              assert ok && outputs.Some? && Occupies(outputs.value, setup.batchOut, |seated|);
              assert served.value[i] == SeatOutputs(outputs.value, setup.batchOut, |seated|, i);
              assert seating.lanes[i] == seated[i].lane;
              assert SeatSlice(batched, setup.batchIn, |seated|, i) == seated[i].inputs;
            }
        }
    }
  }

  /** Refused before it ran, a turn leaves every lane as it was. */
  lemma RefusedTurnMovesNobody<S(!new), L>(setup: Setup<S>, m: LaneModel<S, L>, state: S, taken: seq<bool>, seated: seq<Seat>)
    requires LaneWise(setup, m)
    requires |seated| > 0 && forall s | s in seated :: |s.inputs| == |setup.batchIn|
    ensures var (after, served) := TurnRun(setup, state, taken, seated);
            served.Err? && served.error != RunFailed && !served.error.WrongOccupancy?
            ==> forall l: LaneId :: m.view(after, l) == m.view(state, l)
  {
    match SeatLanes(taken, LanesOf(seated)) {
      case Err(_) =>
      case Ok(seating) => assert SeatingIsInert(setup, m, state, seating);
    }
  }

  /** Filling a turn leaves every leased lane alone, and every lane it lends blank. */
  ghost predicate FilledBlank<S, L>(m: LaneModel<S, L>, before: seq<bool>, was: S, f: Filling<S>) {
    && (forall l: LaneId | Holds(before, l) :: m.view(f.state, l) == m.view(was, l))
    && (forall l | l in f.borrowed :: m.view(f.state, l) == m.blank)
  }

  lemma {:induction false} FillIsLocal<S(!new), L>(setup: Setup<S>, m: LaneModel<S, L>, before: seq<bool>, was: S, f: Filling<S>, seats: seq<Seat>)
    requires LaneWise(setup, m)
    requires LentSoundly(before, f) && forall s | s in seats :: Holds(before, s.lane)
    requires FilledBlank(m, before, was, f)
    ensures FilledBlank(m, before, was, FillAll(setup, f, seats))
    decreases |seats|
  {
    if seats != [] {
      var g := FillStep(setup, f, seats[0]);
      FillStepKeepsLedger(setup, before, f, seats[0]);
      var lane := LowestFree(f.taken);
      assert ResetIsLocal(setup, m, f.state, lane);
      forall l | l in g.borrowed
        ensures m.view(g.state, l) == m.blank
      {
        assert l in f.borrowed ==> f.taken[l];
      }
      FillIsLocal(setup, m, before, was, g, seats[1..]);
    }
  }
}
