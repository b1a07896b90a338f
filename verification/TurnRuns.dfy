/** What running a filled turn does, whatever the interior: which part of it refuses, what
    state each leaves, and what every seat is served. */
module TurnRuns {
  import opened Outcomes
  import opened Tensors
  import opened LaneTables
  import opened Calls
  import opened Turns
  import opened LaneModels

  // ---- The turn's inputs ----

  /** `t` has the one row each seat feeds input `ix`, in seat order, where it is batched, and
      is what every seat feeds it where it is not. */
  predicate GathersAt(batchIn: seq<bool>, seated: seq<Seat>, ix: nat, t: Tensor)
    requires ix < |batchIn| && forall s | s in seated :: |s.inputs| == |batchIn|
  {
    if batchIn[ix] then
      && t.Rows? && |t.rows| == |seated|
      && forall i | 0 <= i < |seated| :: assert seated[i] in seated; seated[i].inputs[ix] == Rows(t.inner, [t.rows[i]])
    else forall i | 0 <= i < |seated| :: assert seated[i] in seated; seated[i].inputs[ix] == t
  }

  predicate Gathers(batchIn: seq<bool>, seated: seq<Seat>, batched: Values)
    requires forall s | s in seated :: |s.inputs| == |batchIn|
  {
    |batched| == |batchIn| && forall ix | 0 <= ix < |batchIn| :: GathersAt(batchIn, seated, ix, batched[ix])
  }

  predicate OneRowEach(seated: seq<Seat>, ix: nat) {
    forall i | 0 <= i < |seated| :: ix < |seated[i].inputs| && seated[i].inputs[ix].Rows? && |seated[i].inputs[ix].rows| == 1
  }

  /** Why input `ix` does not gather. */
  function GatherError(batchIn: seq<bool>, seated: seq<Seat>, ix: nat): Error {
    if !Batched(batchIn, ix) then SharedInputsDiffer(ix)
    else if !OneRowEach(seated, ix) then NotOneSeat(ix) else StackFailed(ix)
  }

  /** The first input that does not. */
  ghost predicate FirstUngathered(batchIn: seq<bool>, seated: seq<Seat>, ix: nat)
    requires forall s | s in seated :: |s.inputs| == |batchIn|
  {
    ix < |batchIn| && !CanGather(batchIn, seated, ix) && forall j | 0 <= j < ix :: CanGather(batchIn, seated, j)
  }

  ghost predicate CanGather(batchIn: seq<bool>, seated: seq<Seat>, ix: nat)
    requires ix < |batchIn| && forall s | s in seated :: |s.inputs| == |batchIn|
  {
    exists t :: GathersAt(batchIn, seated, ix, t)
  }

  lemma GatherOneExactly(batchIn: seq<bool>, seated: seq<Seat>, ix: nat)
    requires |seated| > 0 && ix < |batchIn| && forall s | s in seated :: |s.inputs| == |batchIn|
    ensures var r := GatherOne(batchIn, seated, ix);
            && (forall t :: r == Ok(t) <==> GathersAt(batchIn, seated, ix, t))
            && (r.Err? ==> r.error == GatherError(batchIn, seated, ix))
  {
    hide ConcatRows;
    var column := InputColumn(seated, ix);
    forall i | 0 <= i < |seated|
      ensures seated[i] in seated && column[i] == seated[i].inputs[ix] && column[i] in column
    {}
    if batchIn[ix] {
      ColumnOfSingles(seated, ix, column);
      forall t
        ensures GatherOne(batchIn, seated, ix) == Ok(t) <==> GathersAt(batchIn, seated, ix, t)
      {
        SinglesGather(batchIn, seated, ix, t);
      }
    } else {
      forall t | t in column
        ensures exists i :: 0 <= i < |seated| && column[i] == t
      {}
    }
  }

  lemma ColumnOfSingles(seated: seq<Seat>, ix: nat, column: seq<Tensor>)
    requires |column| == |seated| && forall i | 0 <= i < |seated| :: ix < |seated[i].inputs| && column[i] == seated[i].inputs[ix]
    ensures (exists t :: t in column && (t.Scalar? || |t.rows| != 1)) <==> !OneRowEach(seated, ix)
  {
    if !OneRowEach(seated, ix) {
      var i :| 0 <= i < |seated| && !(seated[i].inputs[ix].Rows? && |seated[i].inputs[ix].rows| == 1);
      assert column[i] in column;
    }
  }

  lemma SinglesGather(batchIn: seq<bool>, seated: seq<Seat>, ix: nat, t: Tensor)
    requires |seated| > 0 && ix < |batchIn| && batchIn[ix] && forall s | s in seated :: |s.inputs| == |batchIn|
    ensures GatherOne(batchIn, seated, ix) == Ok(t) <==> GathersAt(batchIn, seated, ix, t)
  {
    hide GatherOne, GathersAt;
    if GatherOne(batchIn, seated, ix) == Ok(t) {
      GatheredHasRows(batchIn, seated, ix, t);
    }
    if GathersAt(batchIn, seated, ix, t) {
      RowsAreGathered(batchIn, seated, ix, t);
    }
  }

  lemma GatheredHasRows(batchIn: seq<bool>, seated: seq<Seat>, ix: nat, t: Tensor)
    requires |seated| > 0 && ix < |batchIn| && batchIn[ix] && forall s | s in seated :: |s.inputs| == |batchIn|
    requires GatherOne(batchIn, seated, ix) == Ok(t)
    ensures GathersAt(batchIn, seated, ix, t)
  {
    hide GatherOne, ShapeOf, Sound;
    GatherOneKeepsSeats(batchIn, seated, ix, t);
    forall i | 0 <= i < |seated|
      ensures seated[i] in seated && seated[i].inputs[ix] == Rows(t.inner, [t.rows[i]])
    {
      assert seated[i].inputs[ix] == SliceRows(t, i, i + 1);
      assert t.rows[i..i + 1] == [t.rows[i]];
    }
  }

  lemma SinglesAreRows(column: seq<Tensor>, t: Tensor)
    requires |column| > 0 && t.Rows? && |t.rows| == |column|
    requires forall i | 0 <= i < |column| :: column[i] == Rows(t.inner, [t.rows[i]])
    ensures (forall x | x in column :: x.Rows? && |x.rows| == 1) && StackRows(column) == Some(t)
  {
    hide ShapeOf, Sound;
    forall x | x in column
      ensures x.Rows? && |x.rows| == 1 && x.inner == t.inner
    {
      var i :| 0 <= i < |column| && column[i] == x;
    }
    assert column[0] in column;
    ConcatOfSingles(column);
    assert ConcatRows(column) == t.rows;
  }

  lemma RowsAreGathered(batchIn: seq<bool>, seated: seq<Seat>, ix: nat, t: Tensor)
    requires |seated| > 0 && ix < |batchIn| && batchIn[ix] && forall s | s in seated :: |s.inputs| == |batchIn|
    requires GathersAt(batchIn, seated, ix, t)
    ensures GatherOne(batchIn, seated, ix) == Ok(t)
  {
    hide ShapeOf, Sound, ConcatRows, StackRows;
    var column := InputColumn(seated, ix);
    forall i | 0 <= i < |seated|
      ensures column[i] == Rows(t.inner, [t.rows[i]])
    {
      assert seated[i] in seated;
    }
    SinglesAreRows(column, t);
  }

  /** The turn's inputs gather exactly where each of them does; otherwise the first that does
      not says why. */
  lemma GatherExactly(batchIn: seq<bool>, seated: seq<Seat>)
    requires |seated| > 0 && forall s | s in seated :: |s.inputs| == |batchIn|
    ensures var r := GatherFrom(batchIn, seated, 0);
            && (forall batched :: r == Ok(batched) <==> Gathers(batchIn, seated, batched))
            && (r.Err? ==> exists ix: nat :: FirstUngathered(batchIn, seated, ix) && r.error == GatherError(batchIn, seated, ix))
  {
    hide GatherOne, GathersAt, GatherError, Gathers, CanGather;
    var r := GatherFrom(batchIn, seated, 0);
    forall ix: nat | ix < |batchIn|
      ensures forall t :: GatherOne(batchIn, seated, ix) == Ok(t) <==> GathersAt(batchIn, seated, ix, t)
      ensures GatherOne(batchIn, seated, ix).Err? ==> GatherOne(batchIn, seated, ix).error == GatherError(batchIn, seated, ix)
    {
      GatherOneExactly(batchIn, seated, ix);
    }
    if r.Ok? {
      AllGather(batchIn, seated, r.value);
    } else {
      var k :| 0 <= k < |batchIn| && GatherOne(batchIn, seated, k) == Err(r.error)
               && forall j | 0 <= j < k :: GatherOne(batchIn, seated, j).Ok?;
      forall j | 0 <= j < k
        ensures CanGather(batchIn, seated, j)
      {
        OneGathers(batchIn, seated, j, GatherOne(batchIn, seated, j).value);
      }
      if CanGather(batchIn, seated, k) {
        var t := SomeGathered(batchIn, seated, k);
      }
      assert FirstUngathered(batchIn, seated, k);
      forall batched
        ensures !Gathers(batchIn, seated, batched)
      {
        if Gathers(batchIn, seated, batched) {
          EachGathers(batchIn, seated, batched, k);
        }
      }
    }
  }

  lemma EachGathers(batchIn: seq<bool>, seated: seq<Seat>, batched: Values, ix: nat)
    requires ix < |batchIn| && forall s | s in seated :: |s.inputs| == |batchIn|
    requires Gathers(batchIn, seated, batched)
    ensures CanGather(batchIn, seated, ix)
  {
    assert GathersAt(batchIn, seated, ix, batched[ix]);
  }

  lemma OneGathers(batchIn: seq<bool>, seated: seq<Seat>, ix: nat, t: Tensor)
    requires ix < |batchIn| && (forall s | s in seated :: |s.inputs| == |batchIn|) && GathersAt(batchIn, seated, ix, t)
    ensures CanGather(batchIn, seated, ix)
  {}

  lemma SomeGathered(batchIn: seq<bool>, seated: seq<Seat>, ix: nat) returns (t: Tensor)
    requires ix < |batchIn| && (forall s | s in seated :: |s.inputs| == |batchIn|) && CanGather(batchIn, seated, ix)
    ensures GathersAt(batchIn, seated, ix, t)
  {
    t :| GathersAt(batchIn, seated, ix, t);
  }

  lemma AllGather(batchIn: seq<bool>, seated: seq<Seat>, values: Values)
    requires |seated| > 0 && forall s | s in seated :: |s.inputs| == |batchIn|
    requires GatherFrom(batchIn, seated, 0) == Ok(values)
    requires forall ix: nat, t | ix < |batchIn| :: GatherOne(batchIn, seated, ix) == Ok(t) <==> GathersAt(batchIn, seated, ix, t)
    ensures forall batched :: batched == values <==> Gathers(batchIn, seated, batched)
  {
    hide GatherOne, GathersAt;
    forall ix: nat | ix < |batchIn|
      ensures GatherOne(batchIn, seated, ix) == Ok(values[ix])
    {
      assert GatherOne(batchIn, seated, ix) == Ok(values[ix - 0]);
    }
    forall batched | Gathers(batchIn, seated, batched)
      ensures batched == values
    {
      forall ix | 0 <= ix < |batchIn|
        ensures batched[ix] == values[ix]
      {
        assert GathersAt(batchIn, seated, ix, batched[ix]);
      }
    }
  }

  // ---- The turn ----

  /** Every seat gets its own row of the batched outputs, and the others whole. */
  predicate Scattered(batchOut: seq<bool>, outputs: Values, served: seq<Values>) {
    forall i | 0 <= i < |served| ::
      && |served[i]| == |outputs|
      && forall o | 0 <= o < |outputs| ::
           if Batched(batchOut, o) then
             outputs[o].Rows? && i < |outputs[o].rows| && served[i][o] == Rows(outputs[o].inner, [outputs[o].rows[i]])
           else served[i][o] == outputs[o]
  }

  predicate Misfits(outputs: Values, batchOut: seq<bool>, n: nat, o: nat) {
    o < |outputs| && Batched(batchOut, o) && !(outputs[o].Rows? && |outputs[o].rows| == n)
  }

  /** What the interior's answer is made into. */
  ghost predicate Handed(batchOut: seq<bool>, n: nat, outputs: Option<Values>, served: Result<seq<Values>>) {
    if outputs.None? then served == Err(RunFailed)
    else if forall o: nat :: !Misfits(outputs.value, batchOut, n, o) then
      served.Ok? && |served.value| == n && Scattered(batchOut, outputs.value, served.value)
    else
      exists o: nat :: Misfits(outputs.value, batchOut, n, o) && served == Err(WrongOccupancy(o))
                       && forall p: nat | p < o :: !Misfits(outputs.value, batchOut, n, p)
  }

  predicate CanSit(taken: seq<bool>, seated: seq<Seat>) {
    && (forall i | 0 <= i < |seated| :: Holds(taken, seated[i].lane))
    && forall i, j | 0 <= i < j < |seated| :: seated[i].lane != seated[j].lane
  }

  lemma ScatterExactly(outputs: Values, batchOut: seq<bool>, n: nat)
    ensures Handed(batchOut, n, Some(outputs), Scatter(outputs, batchOut, n))
  {
    if Occupies(outputs, batchOut, n) {
      var served := Scatter(outputs, batchOut, n).value;
      forall i, o | 0 <= i < n && 0 <= o < |outputs| && Batched(batchOut, o)
        ensures served[i][o] == Rows(outputs[o].inner, [outputs[o].rows[i]])
      {
        assert outputs[o].rows[i..i + 1] == [outputs[o].rows[i]];
      }
    } else {
      assert Misfits(outputs, batchOut, n, FirstMisfitOutput(outputs, batchOut, n, 0));
    }
  }

  /** Running a turn: refused, with the state as it was, where a lane is not held or seated
      twice or the inputs do not gather; refused as the interior left it where that refuses
      the seating; and otherwise what the interior makes of the gathered inputs, sliced back
      seat by seat if there is a row for each. */
  lemma TurnExactly<S>(setup: Setup<S>, state: S, taken: seq<bool>, seated: seq<Seat>)
    requires |seated| > 0 && forall s | s in seated :: |s.inputs| == |setup.batchIn|
    ensures var (after, served) := TurnRun(setup, state, taken, seated);
            var (published, ok) := setup.interior.seat(state, Seating(LanesOf(seated), |taken|));
            && (!CanSit(taken, seated) || (forall batched :: !Gathers(setup.batchIn, seated, batched)) ==>
                  after == state && served.Err?)
            && forall batched | CanSit(taken, seated) && Gathers(setup.batchIn, seated, batched) ::
                 if !ok then after == published && served == Err(SeatingRefused)
                 else
                   var (ran, outputs) := setup.interior.run(published, batched);
                   after == ran && Handed(setup.batchOut, |seated|, outputs, served)
  {
    hide GatherFrom, Scatter, Occupies, Handed, Gathers;
    GatherExactly(setup.batchIn, seated);
    SitsExactly(taken, seated);
    var r := GatherFrom(setup.batchIn, seated, 0);
    if r.Ok? {
      assert Gathers(setup.batchIn, seated, r.value);
      var published := setup.interior.seat(state, Seating(LanesOf(seated), |taken|)).0;
      var outputs := setup.interior.run(published, r.value).1;
      if outputs.Some? {
        ScatterExactly(outputs.value, setup.batchOut, |seated|);
      } else {
        NothingHanded(setup.batchOut, |seated|);
      }
    }
  }

  lemma NothingHanded(batchOut: seq<bool>, n: nat)
    ensures Handed(batchOut, n, None, Err(RunFailed))
  {}

  lemma SitsExactly(taken: seq<bool>, seated: seq<Seat>)
    ensures CanSit(taken, seated) ==> SeatLanes(taken, LanesOf(seated)) == Ok(Seating(LanesOf(seated), |taken|))
    ensures SeatLanes(taken, LanesOf(seated)).Ok? ==> CanSit(taken, seated)
  {
    var lanes := LanesOf(seated);
    SeatingAccepts(|taken|, lanes);
    assert forall i | 0 <= i < |seated| :: lanes[i] == seated[i].lane && lanes[i] in lanes;
    if CanSit(taken, seated) {
      forall l | l in lanes
        ensures Holds(taken, l)
      {
        var i :| 0 <= i < |lanes| && lanes[i] == l;
      }
    }
  }
}
