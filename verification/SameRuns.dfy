/** Two interiors that differ only on inputs nobody feeds serve the same runs. */
module SameRuns {
  import opened LaneTables
  import opened Calls
  import opened Turns
  import opened ExactlyOnce
  import opened Streams
  import opened Fairness
  import opened LaneModels

  /** The interiors run a turn alike when every seat of it is one of those meant. */
  ghost predicate RunsAlike<S>(a: Setup<S>, b: Setup<S>, meant: Values -> bool, state: S, xs: Values, n: nat) {
    n > 0 && AsksFor(xs, a.batchIn, n) && (forall i | 0 <= i < n :: meant(SeatSlice(xs, a.batchIn, n, i)))
    ==> a.interior.run(state, xs) == b.interior.run(state, xs)
  }

  ghost predicate Twins<S(!new)>(a: Setup<S>, b: Setup<S>, meant: Values -> bool) {
    && a.batchIn == b.batchIn && a.batchOut == b.batchOut && a.maxSeats == b.maxSeats
    && a.interior.reset == b.interior.reset && a.interior.seat == b.interior.seat
    && forall state: S, xs: Values, n: nat :: RunsAlike(a, b, meant, state, xs, n)
  }

  /** Every seat the call asks for is one of those meant. */
  ghost predicate AsksOnly(batchIn: seq<bool>, meant: Values -> bool, inputs: Values) {
    Explode(inputs, batchIn).Ok? ==> forall s | s in Explode(inputs, batchIn).value :: meant(s)
  }

  ghost predicate AskedOnly(batchIn: seq<bool>, meant: Values -> bool, received: seq<Received>) {
    forall r | r in received :: AsksOnly(batchIn, meant, r.call.inputs)
  }

  lemma {:induction false} FillsAlike<S>(a: Setup<S>, b: Setup<S>, f: Filling<S>, seats: seq<Seat>)
    requires a.maxSeats == b.maxSeats && a.interior.reset == b.interior.reset
    ensures FillAll(a, f, seats) == FillAll(b, f, seats)
    decreases |seats|
  {
    if seats != [] {
      FillsAlike(a, b, FillStep(a, f, seats[0]), seats[1..]);
    }
  }

  lemma TurnsAlike<S(!new)>(a: Setup<S>, b: Setup<S>, meant: Values -> bool, state: S, taken: seq<bool>, seated: seq<Seat>)
    requires Twins(a, b, meant) && |seated| > 0
    requires forall s | s in seated :: |s.inputs| == |a.batchIn| && meant(s.inputs)
    ensures TurnRun(a, state, taken, seated) == TurnRun(b, state, taken, seated)
  {
    hide GatherOne, GatherFrom, SeatLanes, Scatter, SeatSlice;
    if GatherFrom(a.batchIn, seated, 0).Ok? {
      GatherKeepsSeats(a.batchIn, seated);
      var xs := GatherFrom(a.batchIn, seated, 0).value;
      forall i | 0 <= i < |seated|
        ensures meant(SeatSlice(xs, a.batchIn, |seated|, i))
      {
        assert seated[i] in seated;
      }
      var seating := SeatLanes(taken, LanesOf(seated));
      if seating.Ok? {
        var published := a.interior.seat(state, seating.value).0;
        assert b.interior.seat(state, seating.value) == a.interior.seat(state, seating.value);
        assert RunsAlike(a, b, meant, published, xs, |seated|);
        assert a.interior.run(published, xs) == b.interior.run(published, xs);
      }
    }
  }

  lemma SeatsAsMeant<S>(setup: Setup<S>, sys: System<S>, meant: Values -> bool)
    requires Settled(setup, sys) && AskedOnly(setup.batchIn, meant, sys.received)
    ensures WellFed(setup, sys.world)
    ensures forall s | s in Filled(setup, sys.world).seated :: |s.inputs| == |setup.batchIn| && meant(s.inputs)
  {
    hide Matched, AnsweredOnce, Ledger, Explode, FillAll;
    SettledIsWellFed(setup, sys);
    FillingKeeps(setup, Filling(sys.world.state, sys.world.taken, [], [], []), sys.world.queue.seats);
    forall s | s in Filled(setup, sys.world).seated
      ensures |s.inputs| == |setup.batchIn| && meant(s.inputs)
    {
      var t :| t in sys.world.queue.seats && s == t.(lane := s.lane);
      assert IsSlice(sys.received, setup.batchIn, t);
      assert sys.received[t.call] in sys.received;
    }
  }

  lemma StepsAlike<S(!new)>(a: Setup<S>, b: Setup<S>, meant: Values -> bool, sys: System<S>, event: Event)
    requires Twins(a, b, meant) && Settled(a, sys) && AskedOnly(a.batchIn, meant, sys.received)
    requires WellFed(a, sys.world) && Allowed(sys, event)
    ensures WellFed(b, sys.world) && Next(a, sys, event) == Next(b, sys, event)
  {
    hide Settled, TurnRun, FillAll, LandAll, Explode, AskedOnly, RunsAlike;
    if event.Turn? {
      SeatsAsMeant(a, sys, meant);
      FillsAlike(a, b, Filling(sys.world.state, sys.world.taken, [], [], []), sys.world.queue.seats);
      var f := Filled(a, sys.world);
      if f.seated != [] {
        TurnsAlike(a, b, meant, f.state, f.taken, f.seated);
      }
    }
  }

  lemma {:induction false} RunsAgree<S(!new)>(a: Setup<S>, b: Setup<S>, meant: Values -> bool, sys: System<S>,
                                              events: seq<Event>)
    requires Twins(a, b, meant) && Settled(a, sys) && AllowedRun(a, sys, events)
    requires AskedOnly(a.batchIn, meant, Ran(a, sys, events).received)
    ensures AllowedRun(b, sys, events) && Ran(a, sys, events) == Ran(b, sys, events)
    decreases |events|
  {
    hide Twins, Settled, Next, WellFed, Allowed, AsksOnly;
    if events != [] {
      ReceivedGrows(a, sys, events);
      StepsAlike(a, b, meant, sys, events[0]);
      StepKeepsSettled(a, sys, events[0]);
      RunsAgree(a, b, meant, Next(a, sys, events[0]), events[1..]);
    }
  }
}
