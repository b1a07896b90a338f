/** Calls of several seats: split over turns, mixed with other calls and lent other
    lanes, a call is answered as if its seats had been served one by one in order. */
module WideCalls {
  import opened Outcomes
  import opened LaneTables
  import opened Calls
  import opened Queues
  import opened Turns
  import opened ExactlyOnce
  import opened Streams
  import opened Fairness
  import opened LaneModels
  import opened Fates

  /** What a seat is served does not depend on what its lane holds. */
  ghost predicate Stateless<S, L(!new)>(m: LaneModel<S, L>) {
    forall l: L, inputs: Values :: m.step(l, inputs).1 == m.step(m.blank, inputs).1
  }

  /** A stateless model, applied to one seat. */
  ghost function Apply<S, L>(m: LaneModel<S, L>, inputs: Values): Values {
    m.step(m.blank, inputs).1
  }

  /** The model applied to every seat of a call, in the order it asked for them. */
  ghost function ApplySeats<S, L>(m: LaneModel<S, L>, inputs: Values, batchIn: seq<bool>): (r: seq<Values>)
    requires Explode(inputs, batchIn).Ok?
    ensures |r| == |Explode(inputs, batchIn).value|
  {
    var seats := Explode(inputs, batchIn).value;
    seq(|seats|, i requires 0 <= i < |seats| => Apply(m, seats[i]))
  }

  /** Every seat dealt outputs was dealt the model's, applied to its own inputs. */
  ghost predicate DealsApply<S, L>(setup: Setup<S>, m: LaneModel<S, L>, received: seq<Received>, log: Log) {
    forall key | key in log && log[key].Ok? ::
      && key.0 < |received| && Explode(received[key.0].call.inputs, setup.batchIn).Ok?
      && key.1 < |Explode(received[key.0].call.inputs, setup.batchIn).value|
      && log[key].value == Apply(m, Explode(received[key.0].call.inputs, setup.batchIn).value[key.1])
  }

  lemma {:induction false} NotingApplies<S, L>(setup: Setup<S>, m: LaneModel<S, L>, received: seq<Received>, log: Log,
                                               seats: seq<Seat>, deals: seq<Result<Values>>)
    requires |seats| == |deals| && DealsApply(setup, m, received, log)
    requires forall i | 0 <= i < |seats| ::
               IsSlice(received, setup.batchIn, seats[i])
               && (deals[i].Ok? ==> deals[i].value == Apply(m, seats[i].inputs))
    ensures DealsApply(setup, m, received, NotedAll(log, seats, deals))
    decreases |seats|
  {
    hide Explode;
    if seats != [] {
      NotingApplies(setup, m, received, Noted(log, seats[0], deals[0]), seats[1..], deals[1..]);
    }
  }

  /** A turn deals every seat it goes through for the model's answer to that seat. */
  lemma TurnApplies<S(!new), L(!new)>(setup: Setup<S>, m: LaneModel<S, L>, sys: System<S>, log: Log)
    requires Settled(setup, sys) && LaneWise(setup, m) && Stateless(m)
    requires DealsApply(setup, m, sys.received, log) && WellFed(setup, sys.world)
    ensures DealsApply(setup, m, sys.received, NotedTurn(setup, sys.world, log))
  {
    hide Explode, FillAll, Matched, AnsweredOnce, Ledger, NotedAll, DealsApply, TurnRun;
    var w := sys.world;
    FilledIsWellFed(setup, w);
    FillingKeeps(setup, Filling(w.state, w.taken, [], [], []), w.queue.seats);
    BorrowingIsSound(setup, sys);
    var f := Filled(setup, w);
    if f.seated != [] {
      var served := TurnRun(setup, f.state, f.taken, f.seated).1;
      TurnIsLaneWise(setup, m, f.state, f.taken, f.seated);
      var deals := Dealt(served, |f.seated|);
      forall i | 0 <= i < |f.seated|
        ensures IsSlice(sys.received, setup.batchIn, f.seated[i])
        ensures deals[i].Ok? ==> deals[i].value == Apply(m, f.seated[i].inputs)
      {
        assert f.seated[i] in f.seated;
        var t :| t in w.queue.seats && f.seated[i] == t.(lane := f.seated[i].lane);
        assert IsSlice(sys.received, setup.batchIn, t);
        if served.Ok? {
          assert (m.step(m.view(f.state, f.seated[i].lane), f.seated[i].inputs)).1 == served.value[i];
        }
      }
      NotingApplies(setup, m, sys.received, log, f.seated, deals);
    }
  }

  lemma StepApplies<S(!new), L(!new)>(setup: Setup<S>, m: LaneModel<S, L>, sys: System<S>, log: Log, event: Event)
    requires Settled(setup, sys) && LaneWise(setup, m) && Stateless(m)
    requires WellFed(setup, sys.world) && Allowed(sys, event)
    requires DealsApply(setup, m, sys.received, log)
    ensures DealsApply(setup, m, Next(setup, sys, event).received,
                       if event.Turn? then NotedTurn(setup, sys.world, log) else log)
  {
    hide Settled, Turned, Explode, WellFed, NotedTurn;
    match event {
      case Heard(Ask(call)) =>
        var after := Next(setup, sys, event);
        assert forall k | 0 <= k < |sys.received| :: after.received[k] == sys.received[k];
      case Heard(_) =>
      case Turn => TurnApplies(setup, m, sys, log);
    }
  }

  lemma {:induction false} RunsApply<S(!new), L(!new)>(setup: Setup<S>, m: LaneModel<S, L>, sys: System<S>, log: Log,
                                                       events: seq<Event>)
    requires Settled(setup, sys) && LaneWise(setup, m) && Stateless(m)
    requires AllowedRun(setup, sys, events) && DealsApply(setup, m, sys.received, log)
    ensures DealsApply(setup, m, Ran(setup, sys, events).received, LogOf(setup, sys, log, events))
    decreases |events|
  {
    hide Settled, DealsApply, LaneWise, Stateless, Next, WellFed, NotedTurn, Allowed;
    if events != [] {
      StepKeepsSettled(setup, sys, events[0]);
      StepApplies(setup, m, sys, log, events[0]);
      RunsApply(setup, m, Next(setup, sys, events[0]), if events[0].Turn? then NotedTurn(setup, sys.world, log) else log,
                events[1..]);
    }
  }

  /** One seat in, one row out of every batched output, always as many outputs. */
  ghost predicate AnswersOneRow<S, L>(setup: Setup<S>, m: LaneModel<S, L>, width: nat) {
    forall inputs | AsksFor(inputs, setup.batchIn, 1) :: OneRowWide(Apply(m, inputs), setup.batchOut, width)
  }

  /** The answer of a stateless model to a call of `k` seats, row by row. */
  ghost predicate IsRowByRow<S, L>(setup: Setup<S>, m: LaneModel<S, L>, inputs: Values, answer: Values, k: nat) {
    && AsksFor(inputs, setup.batchIn, k) && k > 0
    && forall ix | 0 <= ix < |answer| ::
         if Batched(setup.batchOut, ix)
         then answer[ix].Rows? && |answer[ix].rows| == k
              && forall i | 0 <= i < k ::
                   var own := Apply(m, SeatSlice(inputs, setup.batchIn, k, i));
                   |own| == |answer| && own[ix].Rows? && own[ix].rows == [answer[ix].rows[i]]
         else var first := Apply(m, SeatSlice(inputs, setup.batchIn, k, 0));
              |first| == |answer| && answer[ix] == first[ix]
  }

  /** Over every run, every call of a stateless model that no turn failed a seat of is
      answered with outputs if and only if the model's outputs for its seats stack: row `i`
      from seat `i`, however its seats were split over turns, mixed with other calls and lent
      other lanes. */
  lemma WideCallsAreServed<S(!new), L(!new)>(setup: Setup<S>, m: LaneModel<S, L>, width: nat, state: S, maxLanes: nat,
                                             events: seq<Event>, a: Answer)
    requires LaneWise(setup, m) && Stateless(m) && AnswersOneRow(setup, m, width)
    requires AllowedRun(setup, Fresh(state, maxLanes), events)
    requires a in Ran(setup, Fresh(state, maxLanes), events).world.queue.outbox
    requires var sys := Ran(setup, Fresh(state, maxLanes), events);
             a.call < |sys.received| ==> Explode(sys.received[a.call].call.inputs, setup.batchIn).Ok?
    ensures var sys := Ran(setup, Fresh(state, maxLanes), events);
            var log := LogOf(setup, Fresh(state, maxLanes), map[], events);
            && a.call < |sys.received|
            && var inputs := sys.received[a.call].call.inputs;
               var all := ApplySeats(m, inputs, setup.batchIn);
               && |all| > 0
               && (a.result.Ok? <==> (forall ix: nat | ix < |all| :: !Failed(log, a.call, ix)) && Stacks(all, setup.batchOut))
               && (a.result.Ok? ==> |a.result.value| == width && IsRowByRow(setup, m, inputs, a.result.value, |all|))
  {
    hide Explode, LogOf, Ran, AllowedRun, DealsApply, LaneWise, Stateless, Stacks, RowsAt, Apply;
    var sys := Ran(setup, Fresh(state, maxLanes), events);
    var log := LogOf(setup, Fresh(state, maxLanes), map[], events);
    FreshIsSettled(setup, state, maxLanes);
    NothingApplies(setup, m);
    RunsApply(setup, m, Fresh(state, maxLanes), map[], events);
    AnsweredWithOutputs(setup, state, maxLanes, events, a);
    var inputs := sys.received[a.call].call.inputs;
    var all := ApplySeats(m, inputs, setup.batchIn);
    if forall ix: nat | ix < |all| :: !Failed(log, a.call, ix) {
      DealtSeats(setup, m, sys.received, log, a.call);
      if a.result.Ok? {
        RowsOfSeats(setup, m, width, inputs, a.result.value);
      }
    } else {
      SomeSeat(setup, inputs);
    }
  }

  lemma NothingApplies<S, L>(setup: Setup<S>, m: LaneModel<S, L>)
    ensures DealsApply(setup, m, [], map[])
  {}

  lemma SomeSeat<S>(setup: Setup<S>, inputs: Values)
    requires Explode(inputs, setup.batchIn).Ok?
    ensures |Explode(inputs, setup.batchIn).value| > 0
  {
    hide Explode;
    ExplodedSeats(inputs, setup.batchIn);
  }

  /** Dealt by the model, the seats' outputs are the model's. */
  lemma DealtSeats<S, L>(setup: Setup<S>, m: LaneModel<S, L>, received: seq<Received>, log: Log, id: nat)
    requires DealsApply(setup, m, received, log) && id < |received|
    requires Explode(received[id].call.inputs, setup.batchIn).Ok?
    requires AllServed(log, id, |Explode(received[id].call.inputs, setup.batchIn).value|)
    ensures OutsOf(log, id, |Explode(received[id].call.inputs, setup.batchIn).value|)
            == ApplySeats(m, received[id].call.inputs, setup.batchIn)
  {
    hide Explode;
  }

  lemma RowsOfSeats<S, L>(setup: Setup<S>, m: LaneModel<S, L>, width: nat, inputs: Values, answer: Values)
    requires AnswersOneRow(setup, m, width) && Explode(inputs, setup.batchIn).Ok?
    requires |ApplySeats(m, inputs, setup.batchIn)| > 0
    requires IsRows(ApplySeats(m, inputs, setup.batchIn), setup.batchOut, answer)
    ensures |answer| == width && IsRowByRow(setup, m, inputs, answer, |ApplySeats(m, inputs, setup.batchIn)|)
  {
    hide Explode, Apply;
    ExplodeExactly(inputs, setup.batchIn);
    ExplodedSeats(inputs, setup.batchIn);
    var seats, all := Explode(inputs, setup.batchIn).value, ApplySeats(m, inputs, setup.batchIn);
    forall i | 0 <= i < |seats|
      ensures all[i] == Apply(m, SeatSlice(inputs, setup.batchIn, |seats|, i)) && |all[i]| == width
    {
      assert seats[i] in seats;
      assert OneRowWide(Apply(m, seats[i]), setup.batchOut, width);
    }
  }

  /** In particular every call answered with outputs is answered row by row. */
  lemma WideCallsAreTransparent<S(!new), L(!new)>(setup: Setup<S>, m: LaneModel<S, L>, width: nat, state: S, maxLanes: nat,
                                                  events: seq<Event>, a: Answer)
    requires LaneWise(setup, m) && Stateless(m) && AnswersOneRow(setup, m, width)
    requires AllowedRun(setup, Fresh(state, maxLanes), events)
    requires a in Ran(setup, Fresh(state, maxLanes), events).world.queue.outbox && a.result.Ok?
    ensures var sys := Ran(setup, Fresh(state, maxLanes), events);
            && a.call < |sys.received|
            && |a.result.value| == width
            && Explode(sys.received[a.call].call.inputs, setup.batchIn).Ok?
            && IsRowByRow(setup, m, sys.received[a.call].call.inputs, a.result.value,
                          |Explode(sys.received[a.call].call.inputs, setup.batchIn).value|)
  {
    hide Explode, LogOf, Ran, AllowedRun, IsRowByRow, Stacks, AnswersOneRow, LaneWise, Stateless;
    AnsweredAsDealt(setup, state, maxLanes, events);
    var sys := Ran(setup, Fresh(state, maxLanes), events);
    var log := LogOf(setup, Fresh(state, maxLanes), map[], events);
    assert IsTold(log, setup.batchIn, setup.batchOut, sys.received, a);
    WideCallsAreServed(setup, m, width, state, maxLanes, events, a);
  }

  // ---- What has landed is always a prefix of the call ----

  /** Seats of one call queue in the order the call asked for them. */
  ghost predicate Ascending(seats: seq<Seat>) {
    forall i, j | 0 <= i < j < |seats| && seats[i].call == seats[j].call :: seats[i].ix < seats[j].ix
  }

  lemma {:induction false} AscendingHeads(seats: seq<Seat>, call: nat, ix: nat)
    requires Ascending(seats)
    requires forall k | 0 <= k < |seats| && seats[k].call == call :: seats[k].ix > ix
    ensures SeatCount(seats, call, ix) == 0
  {
    if seats != [] {
      AscendingHeads(seats[1..], call, ix);
    }
  }

  lemma {:induction false} FillKeepsAscending<S>(setup: Setup<S>, f: Filling<S>, seats: seq<Seat>)
    requires Ascending(f.waiting + seats)
    ensures Ascending(FillAll(setup, f, seats).waiting)
    decreases |seats|
  {
    if seats == [] {
      assert f.waiting + seats == f.waiting;
    } else {
      var g := FillStep(setup, f, seats[0]);
      var all := f.waiting + seats;
      var n := |f.waiting|;
      if g.waiting == f.waiting {
        forall i, j | 0 <= i < j < |g.waiting + seats[1..]|
                      && (g.waiting + seats[1..])[i].call == (g.waiting + seats[1..])[j].call
          ensures (g.waiting + seats[1..])[i].ix < (g.waiting + seats[1..])[j].ix
        {
          assert (g.waiting + seats[1..])[i] == all[if i < n then i else i + 1];
          assert (g.waiting + seats[1..])[j] == all[if j < n then j else j + 1];
        }
      } else {
        assert g.waiting + seats[1..] == all;
      }
      FillKeepsAscending(setup, g, seats[1..]);
    }
  }

  lemma {:induction false} RetainedIsAscending(seats: seq<Seat>, dropped: nat)
    requires Ascending(seats)
    ensures Ascending(Retained(seats, dropped))
  {
    if seats != [] {
      RetainedIsAscending(seats[1..], dropped);
      var rest := Retained(seats[1..], dropped);
      forall k | 0 <= k < |rest| && rest[k].call == seats[0].call
        ensures seats[0].ix < rest[k].ix
      {
        assert rest[k] in rest;
        var j :| 1 <= j < |seats| && seats[j] == rest[k];
      }
    }
  }

  lemma {:induction false} LandingIsAscending(q: QueueView, seats: seq<Seat>, verdicts: seq<Result<Values>>, batchOut: seq<bool>)
    requires |seats| == |verdicts| && FitAll(q, seats) && Ascending(q.seats)
    ensures Ascending(LandAll(q, seats, verdicts, batchOut).seats)
    decreases |seats|
  {
    if seats != [] {
      assert forall s | s in seats[1..] :: Fits(q, s);
      RetainedIsAscending(q.seats, seats[0].call);
      LandingIsAscending(Landed(q, seats[0], verdicts[0], batchOut), seats[1..], verdicts[1..], batchOut);
    }
  }

  /** Landing other slots leaves an open one open, as long as its call still waits. */
  lemma {:induction false} LandingLeavesOpen(q: QueueView, seats: seq<Seat>, verdicts: seq<Result<Values>>, batchOut: seq<bool>, call: nat, ix: nat)
    requires |seats| == |verdicts| && FitAll(q, seats)
    requires SeatCount(seats, call, ix) == 0
    ensures var r := LandAll(q, seats, verdicts, batchOut);
            call in r.completers ==> Open(r, call, ix) == Open(q, call, ix)
    decreases |seats|
  {
    if seats != [] {
      assert forall s | s in seats[1..] :: Fits(q, s);
      LandingLeavesOpen(Landed(q, seats[0], verdicts[0], batchOut), seats[1..], verdicts[1..], batchOut, call, ix);
      LandingKeepsSlots(Landed(q, seats[0], verdicts[0], batchOut), seats[1..], verdicts[1..], batchOut);
    }
  }

  /** Once a seat of a lane must wait, so must every later one of that lane. */
  lemma {:induction false} LaterSeatsWait<S(!new)>(setup: Setup<S>, f: Filling<S>, seats: seq<Seat>, s: Seat, ix: nat)
    requires ResetsSucceed(setup.interior) && MustWait(setup, f, s)
    requires forall t | t in seats && t.call == s.call :: t.lane == s.lane
    ensures SeatCount(FillAll(setup, f, seats).waiting, s.call, ix)
            == SeatCount(f.waiting, s.call, ix) + SeatCount(seats, s.call, ix)
    decreases |seats|
  {
    if seats != [] {
      StillWaits(setup, f, s, seats[0]);
      FullTable(f.taken);
      SeatCountConcat(f.waiting, [seats[0]], s.call, ix);
      LaterSeatsWait(setup, FillStep(setup, f, seats[0]), seats[1..], s, ix);
    }
  }

  /** If slot `a` of a call is left waiting, so is every later slot queued with it. */
  lemma {:induction false} WaitingIsASuffix<S(!new)>(setup: Setup<S>, f: Filling<S>, seats: seq<Seat>, call: nat, a: nat, b: nat)
    requires ResetsSucceed(setup.interior) && a < b && Ascending(seats)
    requires forall s, t | s in seats && t in seats && s.call == t.call :: s.lane == t.lane
    requires SeatCount(f.waiting, call, a) == 0
    ensures SeatCount(FillAll(setup, f, seats).waiting, call, a) > 0
            ==> SeatCount(FillAll(setup, f, seats).waiting, call, b) >= SeatCount(seats, call, b)
    decreases |seats|
  {
    if seats != [] {
      var s := seats[0];
      var g := FillStep(setup, f, s);
      FullTable(f.taken);
      SeatCountConcat(f.waiting, [s], call, a);
      SeatCountConcat(f.waiting, [s], call, b);
      if s.call == call && s.ix >= a {
        AscendingHeads(seats[1..], call, a);
        WaitingGrows(setup, g, seats[1..], call, a);
        if s.ix == a && g.waiting != f.waiting {
          LaterSeatsWait(setup, g, seats[1..], s, b);
        }
      } else {
        WaitingIsASuffix(setup, g, seats[1..], call, a, b);
      }
    }
  }

  /** Seats of a call queue in order and land in order: what has landed is always a
      prefix of the call. */
  ghost predicate LandedInOrder(q: QueueView) {
    && Ascending(q.seats)
    && forall call, a: nat, b: nat | call in q.completers && a < b < |q.completers[call].served| && Open(q, call, a) ::
         Open(q, call, b)
  }

  lemma PushLandsInOrder(q: QueueView, call: Call, batchIn: seq<bool>)
    requires LandedInOrder(q) && forall s | s in q.seats :: s.call < q.calls
    ensures LandedInOrder(Pushed(q, call, batchIn))
  {
    var r := Pushed(q, call, batchIn);
    forall i, j | 0 <= i < j < |r.seats| && r.seats[i].call == r.seats[j].call
      ensures r.seats[i].ix < r.seats[j].ix
    {
      if i < |q.seats| {
        assert r.seats[i] in q.seats;
      }
      if j < |q.seats| {
        assert r.seats[j] in q.seats;
      }
    }
    forall c, a: nat, b: nat | c in r.completers && a < b < |r.completers[c].served| && Open(r, c, a)
      ensures Open(r, c, b)
    {
      if !(Explode(call.inputs, batchIn).Ok? && c == q.calls) {
        assert Open(q, c, a);
        assert Open(q, c, b);
      }
    }
  }

  lemma TurnLandsInOrder<S(!new)>(setup: Setup<S>, sys: System<S>)
    requires Settled(setup, sys) && ResetsSucceed(setup.interior) && LandedInOrder(sys.world.queue)
    requires WellFed(setup, sys.world)
    ensures LandedInOrder(Turned(setup, sys.world).queue)
  {
    var w := sys.world;
    var start := Filling(w.state, w.taken, [], [], []);
    var f := Filled(setup, w);
    var r := Turned(setup, w).queue;
    FilledIsWellFed(setup, w);
    assert [] + w.queue.seats == w.queue.seats;
    FillKeepsAscending(setup, start, w.queue.seats);
    var waiting := w.queue.(seats := f.waiting);
    TurnKeeps(setup, w);
    TurnShrinks(setup, w);
    if f.seated != [] {
      var (_, served) := TurnRun(setup, f.state, f.taken, f.seated);
      LandingIsAscending(waiting, f.seated, Verdicts(served, |f.seated|), setup.batchOut);
    }
    forall c, a: nat, b: nat | c in r.completers && a < b < |r.completers[c].served| && Open(r, c, a)
      ensures Open(r, c, b)
    {
      SlotStaysOpen(setup, sys, c, a, b);
    }
  }

  lemma SlotStaysOpen<S(!new)>(setup: Setup<S>, sys: System<S>, c: nat, a: nat, b: nat)
    requires Settled(setup, sys) && ResetsSucceed(setup.interior) && LandedInOrder(sys.world.queue)
    requires WellFed(setup, sys.world)
    requires var r := Turned(setup, sys.world).queue;
             c in r.completers && a < b < |r.completers[c].served| && Open(r, c, a)
    ensures Open(Turned(setup, sys.world).queue, c, b)
  {
    hide Ledger, AnsweredOnce, Explode, FillAll, LandAll, TurnRun, AllGivenBack;
    var w := sys.world;
    var start := Filling(w.state, w.taken, [], [], []);
    var f := Filled(setup, w);
    var r := Turned(setup, w).queue;
    FilledIsWellFed(setup, w);
    TurnKeeps(setup, w);
    TurnShrinks(setup, w);
    assert SlotMatched([], r, c, a);
    assert SlotMatched([], w.queue, c, a);
    assert SlotMatched([], w.queue, c, b);
    FillingSplits(setup, start, w.queue.seats, c, a);
    FillingSplits(setup, start, w.queue.seats, c, b);
    var waiting := w.queue.(seats := f.waiting);
    forall s, t | s in w.queue.seats && t in w.queue.seats && s.call == t.call
      ensures s.lane == t.lane
    {
      assert InOwnLane(sys.received, s) && InOwnLane(sys.received, t);
    }
    if f.seated != [] {
      var (_, served) := TurnRun(setup, f.state, f.taken, f.seated);
      var verdicts := Verdicts(served, |f.seated|);
      LandingMovesUp(waiting, f.seated, verdicts, setup.batchOut, c, a);
      WaitingIsASuffix(setup, start, w.queue.seats, c, a, b);
      assert SeatCount(f.seated, c, a) == 0;
      LandingLeavesOpen(waiting, f.seated, verdicts, setup.batchOut, c, a);
      assert Open(w.queue, c, b);
      LandingLeavesOpen(waiting, f.seated, verdicts, setup.batchOut, c, b);
    }
  }

  lemma {:induction false} RunsLandInOrder<S(!new)>(setup: Setup<S>, sys: System<S>, events: seq<Event>)
    requires Settled(setup, sys) && ResetsSucceed(setup.interior) && LandedInOrder(sys.world.queue)
    requires AllowedRun(setup, sys, events)
    ensures LandedInOrder(Ran(setup, sys, events).world.queue)
    decreases |events|
  {
    if events != [] {
      SettledIsWellFed(setup, sys);
      StepKeepsSettled(setup, sys, events[0]);
      match events[0] {
        case Heard(Ask(call)) => PushLandsInOrder(sys.world.queue, call, setup.batchIn);
        case Heard(_) =>
        case Turn => TurnLandsInOrder(setup, sys);
      }
      RunsLandInOrder(setup, Next(setup, sys, events[0]), events[1..]);
    }
  }

  /** The first `p` seats have landed, and no other. */
  predicate LandedUpTo(served: seq<Option<Values>>, p: nat) {
    p < |served| && forall ix | 0 <= ix < |served| :: served[ix].Some? <==> ix < p
  }

  lemma InOrderIsAPrefix(q: QueueView, call: nat)
    requires LandedInOrder(q) && call in q.completers && !IsFull(q.completers[call].served)
    ensures exists p :: LandedUpTo(q.completers[call].served, p)
  {
    var served := q.completers[call].served;
    var p := FirstEmpty(served);
    assert Open(q, call, p);
    forall ix: nat | p < ix < |served|
      ensures served[ix].None?
    {
      assert Open(q, call, ix);
    }
    assert LandedUpTo(served, p);
  }

  /** With resets succeeding, over every run: what has landed of a call still
      waiting is its first so many seats. */
  lemma LandedIsAlwaysAPrefix<S(!new)>(setup: Setup<S>, state: S, maxLanes: nat, events: seq<Event>, call: nat)
    requires ResetsSucceed(setup.interior)
    requires AllowedRun(setup, Fresh(state, maxLanes), events)
    requires call in Ran(setup, Fresh(state, maxLanes), events).world.queue.completers
    ensures exists p :: LandedUpTo(Ran(setup, Fresh(state, maxLanes), events).world.queue.completers[call].served, p)
  {
    FreshIsSettled(setup, state, maxLanes);
    RunsStaySettled(setup, Fresh(state, maxLanes), events);
    RunsLandInOrder(setup, Fresh(state, maxLanes), events);
    InOrderIsAPrefix(Ran(setup, Fresh(state, maxLanes), events).world.queue, call);
  }

  function FirstEmpty(served: seq<Option<Values>>): (p: nat)
    requires !IsFull(served)
    ensures p < |served| && served[p].None? && forall i | 0 <= i < p :: served[i].Some?
  {
    if served[0].None? then 0
    else
      assert served == [served[0]] + served[1..];
      1 + FirstEmpty(served[1..])
  }
}
