/** Who gets seated, and when: the head of the queue always, every leased lane
    every turn when a turn may be as wide as the table, and nobody left waiting
    who could have been seated. */
module Fairness {
  import opened Outcomes
  import opened LaneTables
  import opened Calls
  import opened Queues
  import opened Turns
  import opened ExactlyOnce
  import opened Streams

  /** How many seats come before slot `ix` of `call` in the queue. */
  function Ahead(seats: seq<Seat>, call: nat, ix: nat): (n: nat)
    ensures n <= |seats|
    ensures n < |seats| <==> SeatCount(seats, call, ix) > 0
  {
    if seats == [] || (seats[0].call == call && seats[0].ix == ix) then 0
    else 1 + Ahead(seats[1..], call, ix)
  }

  lemma {:induction false} AheadOfConcat(a: seq<Seat>, b: seq<Seat>, call: nat, ix: nat)
    ensures Ahead(a + b, call, ix)
            == if SeatCount(a, call, ix) > 0 then Ahead(a, call, ix) else |a| + Ahead(b, call, ix)
  {
    if a == [] {
      assert a + b == b;
    } else {
      assert (a + b)[1..] == a[1..] + b;
      AheadOfConcat(a[1..], b, call, ix);
    }
  }

  lemma {:induction false} AheadRetained(seats: seq<Seat>, dropped: nat, call: nat, ix: nat)
    requires call != dropped
    ensures Ahead(Retained(seats, dropped), call, ix) <= Ahead(seats, call, ix)
  {
    if seats != [] {
      AheadRetained(seats[1..], dropped, call, ix);
      AheadOfConcat(if seats[0].call != dropped then [seats[0]] else [], Retained(seats[1..], dropped), call, ix);
    }
  }

  // ---- The queue moves ----

  /** Whoever stays behind keeps its place: nobody overtakes into the waiting part. */
  lemma {:induction false} WaitingKeepsOrder<S>(setup: Setup<S>, f: Filling<S>, seats: seq<Seat>, call: nat, ix: nat)
    requires SeatCount(f.waiting, call, ix) == 0 && SeatCount(seats, call, ix) <= 1
    ensures var r := FillAll(setup, f, seats);
            SeatCount(r.waiting, call, ix) > 0 ==> Ahead(r.waiting, call, ix) <= |f.waiting| + Ahead(seats, call, ix)
    decreases |seats|
  {
    if seats != [] {
      var s := seats[0];
      var g := FillStep(setup, f, s);
      SeatCountConcat(f.waiting, [s], call, ix);
      if s.call == call && s.ix == ix {
        WaitingGrows(setup, g, seats[1..], call, ix);
        AheadOfConcat(f.waiting, [s], call, ix);
      } else {
        WaitingKeepsOrder(setup, g, seats[1..], call, ix);
      }
    }
  }

  /** Once waiting, a slot keeps its place to the end of `fill`; a slot neither
      waiting nor to come stays away. */
  lemma {:induction false} WaitingGrows<S>(setup: Setup<S>, f: Filling<S>, seats: seq<Seat>, call: nat, ix: nat)
    ensures var r := FillAll(setup, f, seats);
            && (SeatCount(f.waiting, call, ix) > 0 ==> Ahead(r.waiting, call, ix) == Ahead(f.waiting, call, ix))
            && (SeatCount(f.waiting, call, ix) == 0 && SeatCount(seats, call, ix) == 0
                ==> SeatCount(r.waiting, call, ix) == 0)
    decreases |seats|
  {
    hide Ahead;
    if seats != [] {
      WaitingGrows(setup, FillStep(setup, f, seats[0]), seats[1..], call, ix);
      AheadOfConcat(f.waiting, [seats[0]], call, ix);
      SeatCountConcat(f.waiting, [seats[0]], call, ix);
    }
  }

  /** The head of the queue is seated by every turn that may seat anyone, so every
      seat behind it moves up. */
  lemma HeadIsSeated<S>(setup: Setup<S>, w: World<S>, call: nat, ix: nat)
    requires setup.maxSeats >= 1 && w.queue.seats != []
    requires SeatCount(w.queue.seats, call, ix) <= 1
    ensures var f := Filled(setup, w);
            && |f.seated| > 0 && f.seated[0] == w.queue.seats[0]
            && (SeatCount(f.waiting, call, ix) > 0 ==> Ahead(f.waiting, call, ix) < Ahead(w.queue.seats, call, ix))
  {
    var head := w.queue.seats[0];
    var start := Filling(w.state, w.taken, [], [], []);
    var g := FillStep(setup, start, head);
    assert g.seated == [head] && g.waiting == [];
    SeatedGrows(setup, g, w.queue.seats[1..]);
    WaitingGrows(setup, g, w.queue.seats[1..], call, ix);
    WaitingKeepsOrder(setup, g, w.queue.seats[1..], call, ix);
  }

  lemma {:induction false} SeatedGrows<S>(setup: Setup<S>, f: Filling<S>, seats: seq<Seat>)
    ensures f.seated <= FillAll(setup, f, seats).seated
    ensures |FillAll(setup, f, seats).seated| + |FillAll(setup, f, seats).waiting| == |f.seated| + |f.waiting| + |seats|
    decreases |seats|
  {
    if seats != [] {
      SeatedGrows(setup, FillStep(setup, f, seats[0]), seats[1..]);
    }
  }

  /** A turn whose seat count is capped at zero seats nobody, ever: the worker would
      spin. Capped any higher, it seats somebody whenever somebody waits. */
  lemma SeatsSomebodyUnlessCappedAtZero<S>(setup: Setup<S>, w: World<S>)
    requires w.queue.seats != []
    ensures Filled(setup, w).seated != [] <==> setup.maxSeats >= 1
    ensures setup.maxSeats == 0 ==> Filled(setup, w).waiting == w.queue.seats
  {
    var start := Filling(w.state, w.taken, [], [], []);
    if setup.maxSeats == 0 {
      CappedAtZero(setup, start, w.queue.seats);
    } else {
      SeatedGrows(setup, FillStep(setup, start, w.queue.seats[0]), w.queue.seats[1..]);
    }
  }

  lemma {:induction false} CappedAtZero<S>(setup: Setup<S>, f: Filling<S>, seats: seq<Seat>)
    requires setup.maxSeats == 0
    ensures FillAll(setup, f, seats).seated == f.seated
    ensures FillAll(setup, f, seats).waiting == f.waiting + seats
    decreases |seats|
  {
    if seats != [] {
      CappedAtZero(setup, FillStep(setup, f, seats[0]), seats[1..]);
    }
  }

  lemma {:induction false} LandingMovesUp(q: QueueView, seats: seq<Seat>, verdicts: seq<Result<Values>>, batchOut: seq<bool>, call: nat, ix: nat)
    requires |seats| == |verdicts| && FitAll(q, seats)
    ensures var r := LandAll(q, seats, verdicts, batchOut);
            && |r.seats| <= |q.seats|
            && SeatCount(r.seats, call, ix) <= SeatCount(q.seats, call, ix)
            && (SeatCount(r.seats, call, ix) > 0 ==> Ahead(r.seats, call, ix) <= Ahead(q.seats, call, ix))
    decreases |seats|
  {
    if seats != [] {
      assert forall s | s in seats[1..] :: Fits(q, s);
      LandingMovesUp(Landed(q, seats[0], verdicts[0], batchOut), seats[1..], verdicts[1..], batchOut, call, ix);
      SeatCountRetained(q.seats, seats[0].call, call, ix);
      if seats[0].call != call {
        AheadRetained(q.seats, seats[0].call, call, ix);
      }
    }
  }

  /** One turn: a waiting slot is served, or is strictly nearer the head. */
  lemma TurnMovesUp<S>(setup: Setup<S>, w: World<S>, call: nat, ix: nat)
    requires WellFed(setup, w) && setup.maxSeats >= 1
    requires SeatCount(w.queue.seats, call, ix) <= 1
    ensures var after := Turned(setup, w).queue.seats;
            && SeatCount(after, call, ix) <= SeatCount(w.queue.seats, call, ix)
            && (SeatCount(after, call, ix) > 0 ==> Ahead(after, call, ix) < Ahead(w.queue.seats, call, ix))
  {
    FilledIsWellFed(setup, w);
    var f := Filled(setup, w);
    var start := Filling(w.state, w.taken, [], [], []);
    FillingSplits(setup, start, w.queue.seats, call, ix);
    if w.queue.seats != [] {
      HeadIsSeated(setup, w, call, ix);
      var (_, served) := TurnRun(setup, f.state, f.taken, f.seated);
      LandingMovesUp(w.queue.(seats := f.waiting), f.seated, Verdicts(served, |f.seated|), setup.batchOut, call, ix);
    }
  }

  lemma TurnProgresses<S>(setup: Setup<S>, w: World<S>)
    requires WellFed(setup, w)
    ensures setup.maxSeats >= 1 && w.queue.seats != [] ==> |Turned(setup, w).queue.seats| < |w.queue.seats|
  {
    if setup.maxSeats >= 1 && w.queue.seats != [] {
      FilledIsWellFed(setup, w);
      var f := Filled(setup, w);
      SeatsSomebodyUnlessCappedAtZero(setup, w);
      SeatedGrows(setup, Filling(w.state, w.taken, [], [], []), w.queue.seats);
      var (_, served) := TurnRun(setup, f.state, f.taken, f.seated);
      LandingMovesUp(w.queue.(seats := f.waiting), f.seated, Verdicts(served, |f.seated|), setup.batchOut, 0, 0);
    }
  }

  // ---- No starvation, over whole runs ----

  function TurnsIn(events: seq<Event>): nat {
    if events == [] then 0 else (if events[0].Turn? then 1 else 0) + TurnsIn(events[1..])
  }

  /** A request never pushes back a seat already queued, and never queues again a
      slot of a call already taken in. */
  lemma RequestKeepsPlace<S>(setup: Setup<S>, w: World<S>, request: Request, call: nat, ix: nat)
    requires call < w.queue.calls
    ensures var after := Requested(setup, w, request).queue;
            && SeatCount(after.seats, call, ix) == SeatCount(w.queue.seats, call, ix)
            && (SeatCount(after.seats, call, ix) > 0 ==> Ahead(after.seats, call, ix) == Ahead(w.queue.seats, call, ix))
            && after.calls >= w.queue.calls
  {
    if request.Ask? && Explode(request.call.inputs, setup.batchIn).Ok? {
      var inputs := Explode(request.call.inputs, setup.batchIn).value;
      var added := SeatsOf(w.queue.calls, request.call.leased, inputs);
      SeatCountAdded(w.queue.calls, request.call.leased, inputs, 0, call, ix);
      assert added[0..] == added;
      SeatCountConcat(w.queue.seats, added, call, ix);
      AheadOfConcat(w.queue.seats, added, call, ix);
    }
  }

  lemma SettledCounts<S>(setup: Setup<S>, sys: System<S>, call: nat, ix: nat)
    requires Settled(setup, sys)
    ensures SeatCount(sys.world.queue.seats, call, ix) <= 1
  {
    assert SlotMatched([], sys.world.queue, call, ix);
  }

  lemma StepMovesUp<S>(setup: Setup<S>, sys: System<S>, event: Event, call: nat, ix: nat)
    requires Settled(setup, sys) && WellFed(setup, sys.world) && Allowed(sys, event) && setup.maxSeats >= 1
    requires call < |sys.received|
    ensures var after := Next(setup, sys, event);
            && call < |after.received|
            && (SeatCount(after.world.queue.seats, call, ix) > 0 ==>
                  && SeatCount(sys.world.queue.seats, call, ix) > 0
                  && Ahead(after.world.queue.seats, call, ix)
                     <= Ahead(sys.world.queue.seats, call, ix) - if event.Turn? then 1 else 0)
  {
    hide Explode, Turned, Ledger;
    assert SlotMatched([], sys.world.queue, call, ix);
    match event {
      case Heard(request) => RequestKeepsPlace(setup, sys.world, request, call, ix);
      case Turn => TurnMovesUp(setup, sys.world, call, ix);
    }
  }

  /** A seat with `p` seats ahead of it is served within `p + 1` turns, whatever is
      asked meanwhile, and stays served. */
  lemma {:induction false} NoStarvation<S>(setup: Setup<S>, sys: System<S>, events: seq<Event>, call: nat, ix: nat)
    requires Settled(setup, sys) && AllowedRun(setup, sys, events) && setup.maxSeats >= 1
    requires call < |sys.received|
    requires SeatCount(sys.world.queue.seats, call, ix) > 0
             ==> TurnsIn(events) > Ahead(sys.world.queue.seats, call, ix)
    ensures SeatCount(Ran(setup, sys, events).world.queue.seats, call, ix) == 0
    decreases |events|
  {
    hide Settled, Stepped, Explode, WellFed;
    if events != [] {
      SettledIsWellFed(setup, sys);
      StepKeepsSettled(setup, sys, events[0]);
      assert SeatCount(sys.world.queue.seats, call, ix) <= 1 by { SettledCounts(setup, sys, call, ix); }
      StepMovesUp(setup, sys, events[0], call, ix);
      NoStarvation(setup, Next(setup, sys, events[0]), events[1..], call, ix);
    }
  }

  /** Every call is answered, once and for all, within as many turns as there were
      seats in the queue when it was last waiting, whatever is asked meanwhile. */
  lemma EveryCallIsAnswered<S>(setup: Setup<S>, sys: System<S>, events: seq<Event>, call: nat)
    requires Settled(setup, sys) && AllowedRun(setup, sys, events) && setup.maxSeats >= 1
    requires call < |sys.received| && TurnsIn(events) >= |sys.world.queue.seats|
    ensures var q := Ran(setup, sys, events).world.queue;
            call !in q.completers && AnswerCount(q.outbox, call) == 1
  {
    var after := Ran(setup, sys, events);
    RunsStaySettled(setup, sys, events);
    ReceivedGrows(setup, sys, events);
    SettledCallsWaitOrAreAnswered(setup, after, call);
    forall ix: nat
      ensures SeatCount(after.world.queue.seats, call, ix) == 0
    {
      NoStarvation(setup, sys, events, call, ix);
    }
  }

  lemma {:induction false} ReceivedGrows<S>(setup: Setup<S>, sys: System<S>, events: seq<Event>)
    requires AllowedRun(setup, sys, events)
    ensures sys.received <= Ran(setup, sys, events).received
    decreases |events|
  {
    if events != [] {
      ReceivedGrows(setup, Next(setup, sys, events[0]), events[1..]);
    }
  }

  // ---- Every leased lane, every turn ----

  function LanesBelow(n: nat): (r: set<LaneId>)
    ensures |r| == n
    ensures forall lane: LaneId :: lane in r <==> lane < n
  {
    if n == 0 then {} else LanesBelow(n - 1) + {n - 1}
  }

  lemma {:induction false} Pigeonhole(lanes: seq<LaneId>, holes: set<LaneId>)
    requires forall lane | lane in lanes :: lane in holes
    requires forall i, j | 0 <= i < j < |lanes| :: lanes[i] != lanes[j]
    ensures |lanes| <= |holes|
  {
    if lanes != [] {
      assert forall j | 1 <= j < |lanes| :: lanes[0] != lanes[j];
      Pigeonhole(lanes[1..], holes - {lanes[0]});
    }
  }

  /** Lanes seated together, one lane not among them, leave room for it. */
  lemma SomeLaneIsLeft(lanes: seq<LaneId>, n: nat, left: LaneId)
    requires Seatable(lanes, n) && left < n && left !in lanes
    ensures |lanes| < n
  {
    Pigeonhole(lanes, LanesBelow(n) - {left});
  }

  /** While `fill` has not come to a leased lane, that lane can not be seated: it is
      nobody else's and never lent. So the turn is not full when its turn comes. */
  lemma {:induction false} FirstOfItsLane<S>(setup: Setup<S>, before: seq<bool>, f: Filling<S>, seats: seq<Seat>, i: nat)
    requires LentSoundly(before, f) && forall s | s in seats :: Holds(before, s.lane)
    requires setup.maxSeats >= |before|
    requires i < |seats| && seats[i].lane !in LanesOf(f.seated)
    requires forall j | 0 <= j < i :: seats[j].lane != seats[i].lane
    ensures seats[i] in FillAll(setup, f, seats).seated
    decreases |seats|
  {
    var g := FillStep(setup, f, seats[0]);
    FillStepKeepsLedger(setup, before, f, seats[0]);
    if i == 0 {
      SomeLaneIsLeft(LanesOf(f.seated), |before|, seats[0].lane);
      SeatedGrows(setup, g, seats[1..]);
      assert g.seated[|f.seated|] == seats[0];
    } else {
      assert Holds(before, seats[i].lane);
      var lane := LowestFree(f.taken);
      forall k | 0 <= k < |g.seated|
        ensures LanesOf(g.seated)[k] != seats[i].lane
      {
        assert k < |f.seated| ==> LanesOf(g.seated)[k] == LanesOf(f.seated)[k];
      }
      FirstOfItsLane(setup, before, g, seats[1..], i - 1);
    }
  }

  /** When a turn may be as wide as the table, every stream with a seat waiting has
      its first one seated by the very next turn, in its own lane. */
  lemma EveryLeasedLaneIsSeated<S>(setup: Setup<S>, sys: System<S>, i: nat)
    requires Settled(setup, sys) && setup.maxSeats >= |sys.world.taken|
    requires i < |sys.world.queue.seats|
    requires forall j | 0 <= j < i :: sys.world.queue.seats[j].lane != sys.world.queue.seats[i].lane
    ensures sys.world.queue.seats[i] in Filled(setup, sys.world).seated
  {
    SettledIsWellFed(setup, sys);
    FirstOfItsLane(setup, sys.world.taken, Filling(sys.world.state, sys.world.taken, [], [], []), sys.world.queue.seats, i);
  }

  // ---- Nobody waits who could be seated ----

  ghost predicate ResetsSucceed<S(!new)>(interior: Interior<S>) {
    forall state: S, lane: LaneId :: interior.reset(state, lane).1
  }

  /** The turn is full, or the seat's lane is used and no lane is free. */
  predicate MustWait<S>(setup: Setup<S>, f: Filling<S>, s: Seat) {
    || |f.seated| >= setup.maxSeats
    || (s.lane in LanesOf(f.seated) && FreeCount(f.taken) == 0)
  }

  lemma StillWaits<S(!new)>(setup: Setup<S>, f: Filling<S>, s: Seat, seat: Seat)
    requires MustWait(setup, f, s)
    ensures MustWait(setup, FillStep(setup, f, seat), s)
  {
    var g := FillStep(setup, f, seat);
    FullTable(f.taken);
    if s.lane in LanesOf(f.seated) {
      var k :| 0 <= k < |f.seated| && LanesOf(f.seated)[k] == s.lane;
      assert LanesOf(g.seated)[k] == s.lane;
    }
  }

  lemma {:induction false} FillIsMaximalFrom<S(!new)>(setup: Setup<S>, f: Filling<S>, seats: seq<Seat>)
    requires ResetsSucceed(setup.interior)
    requires forall s | s in f.waiting :: MustWait(setup, f, s)
    ensures forall s | s in FillAll(setup, f, seats).waiting :: MustWait(setup, FillAll(setup, f, seats), s)
    decreases |seats|
  {
    if seats != [] {
      var g := FillStep(setup, f, seats[0]);
      FullTable(f.taken);
      forall s | s in g.waiting
        ensures MustWait(setup, g, s)
      {
        if s in f.waiting {
          StillWaits(setup, f, s, seats[0]);
        }
      }
      FillIsMaximalFrom(setup, g, seats[1..]);
    }
  }

  /** With resets succeeding, a seat left waiting could not have been seated. */
  lemma FillIsMaximal<S(!new)>(setup: Setup<S>, w: World<S>)
    requires ResetsSucceed(setup.interior)
    ensures var f := Filled(setup, w);
            forall s | s in f.waiting :: MustWait(setup, f, s)
  {
    FillIsMaximalFrom(setup, Filling(w.state, w.taken, [], [], []), w.queue.seats);
  }
}
