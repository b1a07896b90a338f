/** When nothing goes wrong on the whole stack: exactly when a turn of seats that fit goes
    through, and that calls which agree are all served. */
module StackServices {
  import opened Outcomes
  import opened Tensors
  import opened LaneTables
  import opened Calls
  import Queues
  import opened Turns
  import opened ExactlyOnce
  import opened Streams
  import opened Fairness
  import opened LaneModels
  import opened LanedGraphs
  import opened Fates
  import SameRuns
  import Unbatched

  // ---- One turn ----

  predicate AllFit(m: Model, seated: seq<Seat>) {
    forall s | s in seated :: Fit(m, s.inputs, true, 1)
  }

  /** The original runs on what each seat has. */
  predicate AllRun(m: Model, seated: seq<Seat>) {
    forall s | s in seated :: |s.inputs| == |m.ins| && RunOriginal(m, 1, SeatOf(m, s.inputs, 0)).Some?
  }

  /** The seats feed one and the same value of every input that is not batched. */
  predicate Agree(m: Model, seated: seq<Seat>)
    requires AllFit(m, seated)
  {
    forall s, t, ix | s in seated && t in seated && 0 <= ix < |m.ins| && !InFlags(m)[ix] :: s.inputs[ix] == t.inputs[ix]
  }

  lemma FitAt(m: Model, inputs: Values, ix: nat)
    requires Fit(m, inputs, true, 1) && ix < |m.ins|
    ensures |inputs| == |m.ins| == |m.shapes| && Sound(inputs[ix])
    ensures ShapeOf(inputs[ix]) == (if InFlags(m)[ix] then [1] else []) + m.shapes[ix]
    ensures InFlags(m)[ix] ==> inputs[ix].Rows? && |inputs[ix].rows| == 1 && inputs[ix].inner == m.shapes[ix]
  {
    assert inputs[ix] in inputs;
    if InFlags(m)[ix] {
      LeadingRows(inputs[ix], 1, m.shapes[ix]);
    }
  }

  lemma SinglesAreSound(column: seq<Tensor>, shape: Shape)
    requires |column| > 0
    requires forall i | 0 <= i < |column| :: column[i].Rows? && |column[i].rows| == 1 && column[i].inner == shape && Sound(column[i])
    ensures StackRows(column).Some? && Sound(StackRows(column).value) && ShapeOf(StackRows(column).value) == [|column|] + shape
  {
    ConcatOfSingles(column);
    var rows := ConcatRows(column);
    forall k | 0 <= k < |rows|
      ensures ShapeOf(rows[k]) == shape && Sound(rows[k])
    {
      assert rows[k] == column[k].rows[0] && rows[k] in column[k].rows;
    }
  }

  lemma OneGathers(m: Model, seated: seq<Seat>, ix: nat)
    requires |seated| > 0 && AllFit(m, seated) && Agree(m, seated) && ix < |m.ins|
    ensures forall s | s in seated :: |s.inputs| == |InFlags(m)|
    ensures |m.shapes| == |m.ins|
    ensures var r := GatherOne(InFlags(m), seated, ix);
            r.Ok? && Sound(r.value) && ShapeOf(r.value) == (if InFlags(m)[ix] then [|seated|] else []) + m.shapes[ix]
  {
    forall s | s in seated
      ensures |s.inputs| == |InFlags(m)|
    {
      FitAt(m, s.inputs, ix);
    }
    FitAt(m, seated[0].inputs, ix);
    var column := InputColumn(seated, ix);
    forall i | 0 <= i < |column|
      ensures column[i] == seated[i].inputs[ix] && Sound(column[i])
      ensures InFlags(m)[ix] ==> column[i].Rows? && |column[i].rows| == 1 && column[i].inner == m.shapes[ix]
      ensures !InFlags(m)[ix] ==> column[i] == column[0]
    {
      assert seated[i] in seated && seated[0] in seated;
      FitAt(m, seated[i].inputs, ix);
    }
    if InFlags(m)[ix] {
      SinglesAreSound(column, m.shapes[ix]);
    }
  }

  /** Seats that fit and agree gather into inputs that fit the whole turn. */
  lemma AllGather(m: Model, seated: seq<Seat>)
    requires |seated| > 0 && AllFit(m, seated) && Agree(m, seated)
    ensures forall s | s in seated :: |s.inputs| == |InFlags(m)|
    ensures var r := GatherFrom(InFlags(m), seated, 0); r.Ok? && Fit(m, r.value, true, |seated|)
  {
    hide GatherOne, Fit, Agree, AllFit;
    forall s | s in seated
      ensures |s.inputs| == |InFlags(m)|
    {
      InputsInAll(m, s, seated);
    }
    forall ix | 0 <= ix < |m.ins|
      ensures GatherOne(InFlags(m), seated, ix).Ok?
    {
      OneGathers(m, seated, ix);
    }
    var xs := GatherFrom(InFlags(m), seated, 0).value;
    forall ix | 0 <= ix < |xs|
      ensures |m.shapes| == |m.ins| && Sound(xs[ix])
      ensures ShapeOf(xs[ix]) == (if InFlags(m)[ix] then [|seated|] else []) + m.shapes[ix]
    {
      OneGathers(m, seated, ix);
      assert GatherOne(InFlags(m), seated, ix) == Ok(xs[ix - 0]);
    }
    InputsInAll(m, seated[0], seated);
    ShapedFit(m, xs, |seated|);
  }

  lemma InputsInAll(m: Model, s: Seat, seated: seq<Seat>)
    requires AllFit(m, seated) && s in seated
    ensures |s.inputs| == |InFlags(m)| == |m.shapes|
  {}

  lemma ShapedFit(m: Model, xs: Values, n: nat)
    requires |xs| == |m.ins| == |m.shapes|
    requires forall ix | 0 <= ix < |xs| ::
      Sound(xs[ix]) && ShapeOf(xs[ix]) == (if InFlags(m)[ix] then [n] else []) + m.shapes[ix]
    ensures Fit(m, xs, true, n)
  {
    hide Sound;
    forall x | x in xs
      ensures Sound(x)
    {
      var ix :| 0 <= ix < |xs| && xs[ix] == x;
    }
  }

  lemma FitAsks(m: Model, xs: Values, n: nat)
    requires Fit(m, xs, true, n)
    ensures AsksFor(xs, InFlags(m), n)
  {
    forall ix | 0 <= ix < |xs| && InFlags(m)[ix]
      ensures xs[ix].Rows? && |xs[ix].rows| == n
    {
      LeadingRows(xs[ix], n, m.shapes[ix]);
    }
  }

  lemma ServedOccupies(m: Model, n: nat, xs: Values, outs: Values)
    requires |xs| == |m.ins| && |outs| == |m.outs| && forall o | 0 <= o < |m.outs| :: Serves(m, n, xs, o, outs[o])
    ensures Occupies(outs, OutFlags(m), n)
  {
    hide SeatOf;
    forall o | 0 <= o < |outs| && Calls.Batched(OutFlags(m), o)
      ensures outs[o].Rows? && |outs[o].rows| == n
    {
      assert Serves(m, n, xs, o, outs[o]);
    }
  }

  lemma SharedGathered(batchIn: seq<bool>, seated: seq<Seat>, ix: nat, s: Seat, t: Seat)
    requires |seated| > 0 && ix < |batchIn| && !batchIn[ix] && s in seated && t in seated
    requires forall u | u in seated :: |u.inputs| == |batchIn|
    requires GatherOne(batchIn, seated, ix).Ok?
    ensures s.inputs[ix] == t.inputs[ix]
  {
    var column := InputColumn(seated, ix);
    var i :| 0 <= i < |seated| && seated[i] == s;
    var j :| 0 <= j < |seated| && seated[j] == t;
    assert column[i] in column && column[j] in column;
  }

  lemma GatheredRuns(m: Model, seated: seq<Seat>, xs: Values)
    requires |seated| > 0 && AllRun(m, seated) && |xs| == |m.ins| && Fit(m, xs, true, |seated|)
    requires forall s | s in seated :: |s.inputs| == |InFlags(m)|
    requires GatherFrom(InFlags(m), seated, 0) == Ok(xs)
    ensures Runnable(m, |seated|, xs)
  {
    hide Fit, RunOriginal, GatherFrom, SeatOf;
    GatherKeepsSeats(InFlags(m), seated);
    forall i | 0 <= i < |seated|
      ensures RunOriginal(m, 1, SeatOf(m, xs, i)).Some?
    {
      assert seated[i] in seated;
      SliceFits(m, xs, |seated|, i);
    }
  }

  /** What the seat with `inputs` is served. */
  function SeatAnswer(m: Model, inputs: Values): Values
    requires |inputs| == |m.ins|
  {
    Unbatched.AxisAdded(LanedGraphs.Answer(m, SeatOf(m, inputs, 0)), OutFlags(m))
  }

  /** A gathered turn the graph answers serves each seat the original's answer to it. */
  lemma GatheredServes(m: Model, seated: seq<Seat>, xs: Values)
    requires Batchable(m) && |seated| > 0 && |xs| == |m.ins| && Fit(m, xs, true, |seated|) && Runnable(m, |seated|, xs)
    requires forall s | s in seated :: |s.inputs| == |InFlags(m)|
    requires GatherFrom(InFlags(m), seated, 0) == Ok(xs)
    ensures RunTurn(m, |seated|, xs).Some? && |RunTurn(m, |seated|, xs).value| == |m.outs|
    ensures var outs := RunTurn(m, |seated|, xs).value;
            && Occupies(outs, OutFlags(m), |seated|)
            && forall i | 0 <= i < |seated| ::
                 |seated[i].inputs| == |m.ins| && SeatOutputs(outs, OutFlags(m), |seated|, i) == SeatAnswer(m, seated[i].inputs)
  {
    hide Batchable, Fit, Runnable, RunTurn, Serves, GatherFrom, SeatOf, LanedGraphs.Answer, Occupies;
    var n := |seated|;
    TurnServes(m, n, xs);
    var outs := RunTurn(m, n, xs).value;
    ServedOccupies(m, n, xs, outs);
    GatherKeepsSeats(InFlags(m), seated);
    forall i | 0 <= i < n
      ensures |seated[i].inputs| == |m.ins| && SeatOutputs(outs, OutFlags(m), n, i) == SeatAnswer(m, seated[i].inputs)
    {
      assert seated[i] in seated;
      SliceFits(m, xs, n, i);
      var answer := SeatAnswer(m, seated[i].inputs);
      forall o | 0 <= o < |m.outs|
        ensures SeatOutputs(outs, OutFlags(m), n, i)[o] == answer[o]
      {
        assert Serves(m, n, xs, o, outs[o]);
        SlotServed(m, n, xs, outs, i, o);
      }
    }
  }

  /** Gathered, such seats run at the width of the turn and nothing is left bound; over any
      other width they are refused, and it stays. */
  lemma AgreeingTurnRuns(m: Model, maxSeats: nat, left: Width, taken: seq<bool>, seated: seq<Seat>)
    requires Batchable(m) && true in InFlags(m)
    requires |seated| > 0 && AllFit(m, seated) && AllRun(m, seated) && SeatLanes(taken, LanesOf(seated)).Ok?
    requires Agree(m, seated)
    ensures forall s | s in seated :: |s.inputs| == |InFlags(m)|
    ensures var (after, served) := TurnRun(SetupOf(m, maxSeats), left, taken, seated);
            && (served.Ok? <==> left.None? || left.value == |seated|)
            && after == (if served.Ok? then None else left)
            && (served.Ok? ==> forall i | 0 <= i < |seated| ::
                  |seated[i].inputs| == |m.ins| && served.value[i] == SeatAnswer(m, seated[i].inputs))
  {
    hide Batchable, GraphRun, GatherOne, GatherFrom, AllRun, Runnable, SeatAnswer, SeatOutputs, Occupies, SeatLanes, Agree;
    var n := |seated|;
    AllGather(m, seated);
    var xs := GatherFrom(InFlags(m), seated, 0).value;
    FitAsks(m, xs, n);
    GatheredRuns(m, seated, xs);
    GatheredServes(m, seated, xs);
    GraphRunAsked(m, left, xs, n);
  }

  /** A turn of seats that fit and the original runs on, in lanes that can be seated, goes
      through if and only if they agree on every shared input and no other width is left
      bound by a turn that failed. It leaves none bound if it goes through, and what was if
      it does not. */
  lemma FittingTurnRuns(m: Model, maxSeats: nat, left: Width, taken: seq<bool>, seated: seq<Seat>)
    requires Batchable(m) && true in InFlags(m)
    requires |seated| > 0 && AllFit(m, seated) && AllRun(m, seated) && SeatLanes(taken, LanesOf(seated)).Ok?
    ensures forall s | s in seated :: |s.inputs| == |InFlags(m)|
    ensures var (after, served) := TurnRun(SetupOf(m, maxSeats), left, taken, seated);
            && (served.Ok? <==> Agree(m, seated) && (left.None? || left.value == |seated|))
            && after == if served.Ok? then None else left
  {
    hide Batchable, GraphRun, GatherOne, GatherFrom, AllRun;
    if Agree(m, seated) {
      AgreeingTurnRuns(m, maxSeats, left, taken, seated);
    } else {
      var s, t, ix :| s in seated && t in seated && 0 <= ix < |m.ins| && !InFlags(m)[ix] && s.inputs[ix] != t.inputs[ix];
      if GatherFrom(InFlags(m), seated, 0).Ok? {
        assert GatherOne(InFlags(m), seated, ix) == Ok(GatherFrom(InFlags(m), seated, 0).value[ix - 0]);
        SharedGathered(InFlags(m), seated, ix, s, t);
      }
    }
  }

  // ---- Every run ----

  /** One seat that fits, the original runs on, and feeds the common value of every shared
      input. */
  predicate Proper(m: Model, common: Values, inputs: Values) {
    && Fit(m, inputs, true, 1) && |common| == |m.ins| && RunOriginal(m, 1, SeatOf(m, inputs, 0)).Some?
    && forall ix | 0 <= ix < |m.ins| && !InFlags(m)[ix] :: inputs[ix] == common[ix]
  }

  /** A call of `n` such seats. */
  ghost predicate ProperCall(m: Model, common: Values, inputs: Values, n: nat) {
    && n > 0 && |inputs| == |m.ins| == |common| && Fit(m, inputs, true, n) && Runnable(m, n, inputs)
    && forall ix | 0 <= ix < |m.ins| && !InFlags(m)[ix] :: inputs[ix] == common[ix]
  }

  ghost predicate AllProper(m: Model, common: Values, received: seq<Received>) {
    forall r | r in received :: ProperCall(m, common, r.call.inputs, SeatsIn(InFlags(m), r.call.inputs))
  }

  predicate NoFailure(outbox: seq<Queues.Answer>) {
    forall a | a in outbox :: a.result.Ok?
  }

  lemma ProperExplodes(m: Model, common: Values, inputs: Values, n: nat)
    requires ProperCall(m, common, inputs, n) && true in InFlags(m)
    ensures Explode(inputs, InFlags(m)).Ok? && |Explode(inputs, InFlags(m)).value| == n
    ensures forall i | 0 <= i < n ::
              var seat := Explode(inputs, InFlags(m)).value[i];
              Proper(m, common, seat) && SeatOf(m, seat, 0) == SeatOf(m, inputs, i)
  {
    hide Fit, RunOriginal, SeatOf, Explode;
    FitAsks(m, inputs, n);
    assert Asks(inputs, InFlags(m), n);
    ExplodeExactly(inputs, InFlags(m));
    forall i | 0 <= i < n
      ensures var seat := Explode(inputs, InFlags(m)).value[i];
              Proper(m, common, seat) && SeatOf(m, seat, 0) == SeatOf(m, inputs, i)
    {
      SliceFits(m, inputs, n, i);
    }
  }

  /** Every seat of the turn is proper. */
  lemma SeatsAreProper(m: Model, maxSeats: nat, common: Values, sys: System<Width>)
    requires Settled(SetupOf(m, maxSeats), sys) && AllProper(m, common, sys.received) && true in InFlags(m)
    ensures WellFed(SetupOf(m, maxSeats), sys.world)
    ensures forall s | s in Filled(SetupOf(m, maxSeats), sys.world).seated ::
              IsSlice(sys.received, InFlags(m), s) && Proper(m, common, s.inputs)
  {
    hide Matched, AnsweredOnce, Ledger, Explode, FillAll, ProperCall, Proper;
    var setup := SetupOf(m, maxSeats);
    SettledIsWellFed(setup, sys);
    FillingKeeps(setup, Filling(sys.world.state, sys.world.taken, [], [], []), sys.world.queue.seats);
    var f := Filled(setup, sys.world);
    forall s | s in f.seated
      ensures IsSlice(sys.received, InFlags(m), s) && Proper(m, common, s.inputs)
    {
      var t :| t in sys.world.queue.seats && s == t.(lane := s.lane);
      assert IsSlice(sys.received, InFlags(m), t);
      var inputs := sys.received[t.call].call.inputs;
      assert sys.received[t.call] in sys.received;
      ProperExplodes(m, common, inputs, SeatsIn(InFlags(m), inputs));
    }
  }

  lemma ProperAgree(m: Model, common: Values, seated: seq<Seat>)
    requires forall s | s in seated :: Proper(m, common, s.inputs)
    ensures AllFit(m, seated) && Agree(m, seated) && AllRun(m, seated)
  {
    hide RunOriginal, SeatOf;
  }

  lemma ProperRuns(m: Model, common: Values, received: seq<Received>)
    requires AllProper(m, common, received) && true in InFlags(m)
    ensures RunsOnAll(m, received)
  {
    hide Fit, RunOriginal, SeatOf, Explode, ProperCall;
    forall r | r in received
      ensures SameRuns.AsksOnly(InFlags(m), Meant(m), r.call.inputs)
    {
      ProperExplodes(m, common, r.call.inputs, SeatsIn(InFlags(m), r.call.inputs));
      var seats := Explode(r.call.inputs, InFlags(m)).value;
      forall s | s in seats
        ensures Meant(m)(s)
      {
        var i :| 0 <= i < |seats| && seats[i] == s;
      }
    }
  }

  /** Filling a turn leaves the width as it is. */
  lemma {:induction false} FillKeepsWidth(m: Model, maxSeats: nat, f: Filling<Width>, seats: seq<Seat>)
    ensures FillAll(SetupOf(m, maxSeats), f, seats).state == f.state
    decreases |seats|
  {
    if seats != [] {
      FillKeepsWidth(m, maxSeats, FillStep(SetupOf(m, maxSeats), f, seats[0]), seats[1..]);
    }
  }

  /** The seat was dealt the original's answer to it. */
  ghost predicate DealtItsAnswer(m: Model, received: seq<Received>, key: (nat, nat), deal: Result<Values>) {
    && key.0 < |received| && Explode(received[key.0].call.inputs, InFlags(m)).Ok?
    && key.1 < |Explode(received[key.0].call.inputs, InFlags(m)).value|
    && var seat := Explode(received[key.0].call.inputs, InFlags(m)).value[key.1];
       |seat| == |m.ins| && deal == Ok(SeatAnswer(m, seat))
  }

  ghost predicate AllDealt(m: Model, received: seq<Received>, log: Log) {
    forall key | key in log :: DealtItsAnswer(m, received, key, log[key])
  }

  lemma {:induction false} NotingDealt(m: Model, received: seq<Received>, log: Log, seats: seq<Seat>, deals: seq<Result<Values>>)
    requires |seats| == |deals| && AllDealt(m, received, log)
    requires forall i | 0 <= i < |seats| :: DealtItsAnswer(m, received, (seats[i].call, seats[i].ix), deals[i])
    ensures AllDealt(m, received, NotedAll(log, seats, deals))
    decreases |seats|
  {
    hide DealtItsAnswer;
    if seats != [] {
      NotingDealt(m, received, Noted(log, seats[0], deals[0]), seats[1..], deals[1..]);
    }
  }

  lemma TurnDealsAll(m: Model, maxSeats: nat, common: Values, sys: System<Width>, log: Log)
    requires Batchable(m) && true in InFlags(m)
    requires Settled(SetupOf(m, maxSeats), sys) && AllProper(m, common, sys.received) && AllDealt(m, sys.received, log)
    requires WellFed(SetupOf(m, maxSeats), sys.world) && sys.world.state == None
    ensures AllDealt(m, sys.received, NotedTurn(SetupOf(m, maxSeats), sys.world, log))
    ensures Next(SetupOf(m, maxSeats), sys, Turn).world.state == None
  {
    hide Batchable, Settled, Proper, Fit, TurnRun, FillAll, LandAll, NotedAll, WellFed, SeatLanes, AllProper, AllDealt, Explode;
    var setup := SetupOf(m, maxSeats);
    var f := Filled(setup, sys.world);
    FilledIsWellFed(setup, sys.world);
    FillKeepsWidth(m, maxSeats, Filling(sys.world.state, sys.world.taken, [], [], []), sys.world.queue.seats);
    if f.seated != [] {
      BorrowingIsSound(setup, sys);
      SeatsAreProper(m, maxSeats, common, sys);
      ProperAgree(m, common, f.seated);
      AgreeingTurnRuns(m, maxSeats, f.state, f.taken, f.seated);
      var deals := Dealt(TurnRun(setup, f.state, f.taken, f.seated).1, |f.seated|);
      forall i | 0 <= i < |f.seated|
        ensures DealtItsAnswer(m, sys.received, (f.seated[i].call, f.seated[i].ix), deals[i])
      {
        assert f.seated[i] in f.seated;
      }
      NotingDealt(m, sys.received, log, f.seated, deals);
    }
  }

  lemma StepDealsAll(m: Model, maxSeats: nat, common: Values, sys: System<Width>, log: Log, event: Event)
    requires Batchable(m) && true in InFlags(m)
    requires Settled(SetupOf(m, maxSeats), sys) && AllProper(m, common, sys.received) && AllDealt(m, sys.received, log)
    requires WellFed(SetupOf(m, maxSeats), sys.world) && Allowed(sys, event) && sys.world.state == None
    ensures AllDealt(m, Next(SetupOf(m, maxSeats), sys, event).received,
                     if event.Turn? then NotedTurn(SetupOf(m, maxSeats), sys.world, log) else log)
    ensures Next(SetupOf(m, maxSeats), sys, event).world.state == None
  {
    hide Batchable, Settled, AllProper, Turned, WellFed, Explode, NotedTurn, SeatAnswer;
    match event {
      case Heard(_) =>
      case Turn => TurnDealsAll(m, maxSeats, common, sys, log);
    }
  }

  lemma {:induction false} RunsDealAll(m: Model, maxSeats: nat, common: Values, sys: System<Width>, log: Log, events: seq<Event>)
    requires Batchable(m) && true in InFlags(m)
    requires Settled(SetupOf(m, maxSeats), sys) && AllDealt(m, sys.received, log)
    requires AllowedRun(SetupOf(m, maxSeats), sys, events) && sys.world.state == None
    requires AllProper(m, common, Ran(SetupOf(m, maxSeats), sys, events).received)
    ensures AllDealt(m, Ran(SetupOf(m, maxSeats), sys, events).received, LogOf(SetupOf(m, maxSeats), sys, log, events))
    decreases |events|
  {
    hide Batchable, Settled, ProperCall, AllDealt, Next, NotedTurn, WellFed, Allowed;
    var setup := SetupOf(m, maxSeats);
    if events != [] {
      StepKeepsSettled(setup, sys, events[0]);
      ReceivedGrows(setup, sys, events);
      var all := Ran(setup, sys, events).received;
      forall r | r in sys.received
        ensures ProperCall(m, common, r.call.inputs, SeatsIn(InFlags(m), r.call.inputs))
      {
        assert r in all;
      }
      StepDealsAll(m, maxSeats, common, sys, log, events[0]);
      RunsDealAll(m, maxSeats, common, Next(setup, sys, events[0]),
                  if events[0].Turn? then NotedTurn(setup, sys.world, log) else log, events[1..]);
    }
  }

  // ---- What the calls are answered ----

  /** Every seat of a proper call has an answer of its own. */
  ghost predicate AllAnswer(m: Model, inputs: Values, n: nat)
    requires |inputs| == |m.ins|
  {
    forall i | 0 <= i < n :: AnswerOf(m, SeatOf(m, inputs, i)).Some?
  }

  /** The answer to a call of `n` seats: on every output the original's answers to them. */
  ghost predicate ServesCall(m: Model, n: nat, inputs: Values, answer: Values)
    requires |inputs| == |m.ins|
  {
    |answer| == |m.outs| && forall o | 0 <= o < |m.outs| :: Serves(m, n, inputs, o, answer[o])
  }

  /** The seats of a proper call answer alike, so what they were dealt stacks, into a turn's
      worth. */
  lemma DealsServe(m: Model, common: Values, inputs: Values, n: nat, outs: seq<Values>)
    requires Batchable(m) && ProperCall(m, common, inputs, n) && |outs| == n
    requires forall i | 0 <= i < n :: outs[i] == Unbatched.AxisAdded(LanedGraphs.Answer(m, SeatOf(m, inputs, i)), OutFlags(m))
    ensures Stacks(outs, OutFlags(m)) && AllAnswer(m, inputs, n)
    ensures forall answer | IsRows(outs, OutFlags(m), answer) :: ServesCall(m, n, inputs, answer)
  {
    hide Batchable, Fit, Runnable, RunTurn, SeatOf, LanedGraphs.Answer, AnswerOf;
    TurnServes(m, n, inputs);
    var turn := RunTurn(m, n, inputs).value;
    forall o | 0 <= o < |m.outs| && Calls.Batched(OutFlags(m), o)
      ensures StacksAt(outs, o)
    {
      assert Serves(m, n, inputs, o, turn[o]);
    }
    forall i | 0 <= i < n
      ensures AnswerOf(m, SeatOf(m, inputs, i)).Some?
    {
      SeatHasAnswer(m, n, inputs, i);
    }
    forall answer, o | IsRows(outs, OutFlags(m), answer) && 0 <= o < |m.outs|
      ensures Serves(m, n, inputs, o, answer[o])
    {
      assert RowsAt(outs, OutFlags(m), o, answer[o]);
      RowsServe(m, n, inputs, outs, o, turn[o], answer[o]);
    }
  }

  lemma SeatHasAnswer(m: Model, n: nat, inputs: Values, i: nat)
    requires |inputs| == |m.ins| && Batchable(m) && Runnable(m, n, inputs) && i < n
    ensures AnswerOf(m, SeatOf(m, inputs, i)).Some?
  {
    hide Batchable;
    OriginalAnswers(m, SeatOf(m, inputs, i));
  }

  lemma RowsServe(m: Model, n: nat, inputs: Values, outs: seq<Values>, o: nat, turn: Tensor, out: Tensor)
    requires |inputs| == |m.ins| && o < |m.outs| && |outs| == n > 0 && Serves(m, n, inputs, o, turn)
    requires forall i | 0 <= i < n :: outs[i] == Unbatched.AxisAdded(LanedGraphs.Answer(m, SeatOf(m, inputs, i)), OutFlags(m))
    requires o < |outs[0]| && RowsAt(outs, OutFlags(m), o, out)
    ensures Serves(m, n, inputs, o, out)
  {
    hide SeatOf, LanedGraphs.Answer;
    if Calls.Batched(OutFlags(m), o) {
      forall i | 0 <= i < n
        ensures out.rows[i] == LanedGraphs.Answer(m, SeatOf(m, inputs, i))[o]
        ensures out.inner == ShapeOf(LanedGraphs.Answer(m, SeatOf(m, inputs, i))[o])
      {
        assert outs[i][o] == InsertAxis0(LanedGraphs.Answer(m, SeatOf(m, inputs, i))[o]);
        assert outs[i][o].rows == [out.rows[i]];
      }
    } else {
      assert out == outs[0][o];
    }
  }

  /** However wide the calls: when all made are proper, every answer there is carries the
      original's own answers, row `i` of each batched output that to seat `i`. */
  lemma ProperCallsAreServed(m: Model, maxSeats: nat, maxLanes: nat, common: Values, events: seq<Event>, a: Queues.Answer)
    requires Batchable(m) && true in InFlags(m)
    requires AllowedRun(SetupOf(m, maxSeats), Fresh(None, maxLanes), events)
    requires var sys := Ran(SetupOf(m, maxSeats), Fresh(None, maxLanes), events);
             AllProper(m, common, sys.received) && a in sys.world.queue.outbox
    ensures var sys := Ran(SetupOf(m, maxSeats), Fresh(None, maxLanes), events);
            && a.call < |sys.received| && a.result.Ok?
            && var inputs := sys.received[a.call].call.inputs;
               var n := SeatsIn(InFlags(m), inputs);
               && |inputs| == |m.ins| && n > 0 && AllAnswer(m, inputs, n) && ServesCall(m, n, inputs, a.result.value)
  {
    hide Batchable, Settled, Ran, AllowedRun, LogOf, Explode, Fit, Runnable, AllProper, AllDealt, Stacks, IsRows, AllAnswer, ServesCall;
    var setup, start := SetupOf(m, maxSeats), Fresh<Width>(None, maxLanes);
    FreshIsSettled(setup, None, maxLanes);
    NothingDealt(m);
    RunsDealAll(m, maxSeats, common, start, map[], events);
    var sys, log := Ran(setup, start, events), LogOf(setup, start, map[], events);
    CallOfAnswer(setup, None, maxLanes, events, a);
    var inputs := sys.received[a.call].call.inputs;
    var n := SeatsIn(InFlags(m), inputs);
    ProperAt(m, common, sys.received, a.call);
    ProperExplodes(m, common, inputs, n);
    AnsweredWithOutputs(setup, None, maxLanes, events, a);
    NoneFailed(m, sys.received, log, a.call, n);
    var outs := OutsOf(log, a.call, n);
    OutsAreAnswers(m, sys.received, log, a.call, inputs, n);
    DealsServe(m, common, inputs, n, outs);
  }

  lemma NothingDealt(m: Model)
    ensures AllDealt(m, [], map[])
  {}

  lemma CallOfAnswer(setup: Setup<Width>, state: Width, maxLanes: nat, events: seq<Event>, a: Queues.Answer)
    requires AllowedRun(setup, Fresh(state, maxLanes), events)
    requires a in Ran(setup, Fresh(state, maxLanes), events).world.queue.outbox
    ensures a.call < |Ran(setup, Fresh(state, maxLanes), events).received|
  {
    hide Explode;
    FreshIsSettled(setup, state, maxLanes);
    RunsStaySettled(setup, Fresh(state, maxLanes), events);
  }

  lemma ProperAt(m: Model, common: Values, received: seq<Received>, id: nat)
    requires AllProper(m, common, received) && id < |received|
    ensures ProperCall(m, common, received[id].call.inputs, SeatsIn(InFlags(m), received[id].call.inputs))
  {
    assert received[id] in received;
  }

  lemma NoneFailed(m: Model, received: seq<Received>, log: Log, id: nat, n: nat)
    requires AllDealt(m, received, log)
    ensures forall ix: nat | ix < n :: !Failed(log, id, ix)
  {
    hide Explode;
  }

  lemma OutsAreAnswers(m: Model, received: seq<Received>, log: Log, id: nat, inputs: Values, n: nat)
    requires AllDealt(m, received, log) && AllServed(log, id, n) && id < |received| && received[id].call.inputs == inputs
    requires |inputs| == |m.ins| && Explode(inputs, InFlags(m)).Ok? && |Explode(inputs, InFlags(m)).value| == n
    requires forall i | 0 <= i < n ::
               var seat := Explode(inputs, InFlags(m)).value[i]; |seat| == |m.ins| && SeatOf(m, seat, 0) == SeatOf(m, inputs, i)
    ensures forall i | 0 <= i < n ::
              OutsOf(log, id, n)[i] == Unbatched.AxisAdded(LanedGraphs.Answer(m, SeatOf(m, inputs, i)), OutFlags(m))
  {
    hide Explode, SeatOf, LanedGraphs.Answer;
    forall i | 0 <= i < n
      ensures OutsOf(log, id, n)[i] == Unbatched.AxisAdded(LanedGraphs.Answer(m, SeatOf(m, inputs, i)), OutFlags(m))
    {
      assert DealtItsAnswer(m, received, (id, i), log[(id, i)]);
    }
  }

  lemma {:induction false} RunsJoin<S>(setup: Setup<S>, sys: System<S>, first: seq<Event>, rest: seq<Event>)
    requires AllowedRun(setup, sys, first) && AllowedRun(setup, Ran(setup, sys, first), rest)
    ensures AllowedRun(setup, sys, first + rest)
    ensures Ran(setup, sys, first + rest) == Ran(setup, Ran(setup, sys, first), rest)
    decreases |first|
  {
    hide Next, Allowed, WellFed;
    if first == [] {
      assert first + rest == rest;
    } else {
      RunsJoin(setup, Next(setup, sys, first[0]), first[1..], rest);
      assert (first + rest)[0] == first[0] && (first + rest)[1..] == first[1..] + rest;
    }
  }

  lemma SomeAnswer(outbox: seq<Queues.Answer>, id: nat) returns (a: Queues.Answer)
    requires AnswerCount(outbox, id) > 0
    ensures a in outbox && a.call == id
  {
    if forall b | b in outbox :: b.call != id {
      NeverAnswered(outbox, id);
    }
    a :| a in outbox && a.call == id;
  }

  /** The promise in full: when the calls made are proper, however many seats each asks for,
      no call is ever answered with a failure, and every one of them is answered, within as
      many turns as there are seats queued, exactly what the original graph answers each of
      its seats. */
  lemma EveryCallIsServed(m: Model, maxSeats: nat, maxLanes: nat, common: Values, before: seq<Event>, after: seq<Event>,
                          id: nat)
    returns (a: Queues.Answer)
    requires Batchable(m) && true in InFlags(m) && maxSeats >= 1
    requires AllowedRun(SetupOf(m, maxSeats), Fresh(None, maxLanes), before)
    requires var sys := Ran(SetupOf(m, maxSeats), Fresh(None, maxLanes), before);
             && AllowedRun(SetupOf(m, maxSeats), sys, after)
             && AllProper(m, common, Ran(SetupOf(m, maxSeats), sys, after).received)
             && id < |sys.received| && TurnsIn(after) >= |sys.world.queue.seats|
    ensures var setup := SetupOf(m, maxSeats);
            var last := Ran(setup, Ran(setup, Fresh(None, maxLanes), before), after);
            && NoFailure(last.world.queue.outbox) && AnswerCount(last.world.queue.outbox, id) == 1
            && a in last.world.queue.outbox && a.call == id < |last.received|
            && var inputs := last.received[id].call.inputs;
               var n := SeatsIn(InFlags(m), inputs);
               && |inputs| == |m.ins| && n > 0 && AllAnswer(m, inputs, n)
               && a.result.Ok? && ServesCall(m, n, inputs, a.result.value)
  {
    hide Batchable, Settled, Ran, AllowedRun, AnswerCount, AllProper, AllAnswer, ServesCall, SeatsIn;
    var setup, start := SetupOf(m, maxSeats), Fresh<Width>(None, maxLanes);
    FreshIsSettled(setup, None, maxLanes);
    RunsStaySettled(setup, start, before);
    var sys := Ran(setup, start, before);
    EveryCallIsAnswered(setup, sys, after, id);
    RunsJoin(setup, start, before, after);
    var last := Ran(setup, start, before + after);
    forall b | b in last.world.queue.outbox
      ensures b.result.Ok?
    {
      ProperCallsAreServed(m, maxSeats, maxLanes, common, before + after, b);
    }
    a := SomeAnswer(last.world.queue.outbox, id);
    ProperCallsAreServed(m, maxSeats, maxLanes, common, before + after, a);
  }

  /** Called through the hidden interface, one seat at a time, what is left of the answer
      once its axis is dropped is the original's answer to what was asked. */
  lemma EveryHiddenCallIsServed(m: Model, maxSeats: nat, maxLanes: nat, common: Values, before: seq<Event>,
                                after: seq<Event>, id: nat, x: Values)
    returns (a: Queues.Answer)
    requires Batchable(m) && true in InFlags(m) && maxSeats >= 1 && Fit(m, x, false, 1)
    requires AllowedRun(SetupOf(m, maxSeats), Fresh(None, maxLanes), before)
    requires var sys := Ran(SetupOf(m, maxSeats), Fresh(None, maxLanes), before);
             && AllowedRun(SetupOf(m, maxSeats), sys, after)
             && AllProper(m, common, Ran(SetupOf(m, maxSeats), sys, after).received)
             && id < |sys.received| && TurnsIn(after) >= |sys.world.queue.seats|
             && sys.received[id].call.inputs == Unbatched.AxisAdded(x, InFlags(m))
    ensures var setup := SetupOf(m, maxSeats);
            var last := Ran(setup, Ran(setup, Fresh(None, maxLanes), before), after);
            && AnswerCount(last.world.queue.outbox, id) == 1 && a in last.world.queue.outbox && a.call == id
            && a.result.Ok? && AnswerOf(m, x).Some?
            && Unbatched.AxisDropped(a.result.value, OutFlags(m)) == AnswerOf(m, x)
  {
    hide Batchable, Settled, Ran, AllowedRun, Fit, AnswerOf, AnswerCount, AllProper, AllAnswer, ServesCall, SeatsIn, RunsOnAll;
    var setup, start := SetupOf(m, maxSeats), Fresh<Width>(None, maxLanes);
    FreshIsSettled(setup, None, maxLanes);
    RunsStaySettled(setup, start, before);
    var sys := Ran(setup, start, before);
    a := EveryCallIsServed(m, maxSeats, maxLanes, common, before, after, id);
    RunsJoin(setup, start, before, after);
    ReceivedGrows(setup, sys, after);
    ProperRuns(m, common, Ran(setup, sys, after).received);
    StackIsOriginal(m, maxSeats, maxLanes, before + after, a, x);
  }
}
