/** How many turns a wide call takes when nobody else is waiting. */
module TurnCount {
  import opened Multiples
  import opened Outcomes
  import opened LaneTables
  import opened Calls
  import opened Queues
  import opened Turns
  import opened ExactlyOnce
  import opened Streams
  import opened Fairness

  function Min(a: nat, b: nat): nat {
    if a <= b then a else b
  }

  /** Seats one turn gives a lone call: its own lane and every free one, up to the
      cap. */
  function Width<S>(setup: Setup<S>, taken: seq<bool>): nat {
    Min(setup.maxSeats, FreeCount(taken) + 1)
  }

  /** Its own lane seated, a lone call borrows as long as there is room and a lane. */
  lemma {:induction false} LoneCallBorrows<S(!new)>(setup: Setup<S>, f: Filling<S>, seats: seq<Seat>, lane: LaneId)
    requires ResetsSucceed(setup.interior)
    requires lane in LanesOf(f.seated) && |f.seated| <= setup.maxSeats
    requires forall s | s in seats :: s.lane == lane
    ensures var m := Min(|seats|, Min(setup.maxSeats - |f.seated|, FreeCount(f.taken)));
            && |FillAll(setup, f, seats).seated| == |f.seated| + m
            && FillAll(setup, f, seats).waiting == f.waiting + seats[m..]
    decreases |seats|
  {
    hide FillStep;
    if seats != [] {
      var g := FillStep(setup, f, seats[0]);
      LoneSeatBorrows(setup, f, seats[0]);
      if |g.seated| == |f.seated| {
        LoneCallBorrows(setup, g, seats[1..], lane);
        assert f.waiting + [seats[0]] + seats[1..] == f.waiting + seats;
      } else {
        LoneCallBorrows(setup, g, seats[1..], lane);
        var m := Min(|seats[1..]|, Min(setup.maxSeats - |g.seated|, FreeCount(g.taken)));
        assert seats[1..][m..] == seats[m + 1..];
      }
    }
  }

  /** A seat whose lane is seated already is lent a free lane if the turn has room and
      there is one, and waits if not. */
  lemma LoneSeatBorrows<S(!new)>(setup: Setup<S>, f: Filling<S>, seat: Seat)
    requires ResetsSucceed(setup.interior) && seat.lane in LanesOf(f.seated) && |f.seated| <= setup.maxSeats
    ensures var g := FillStep(setup, f, seat);
            if |f.seated| < setup.maxSeats && FreeCount(f.taken) > 0 then
              |g.seated| == |f.seated| + 1 && g.waiting == f.waiting && FreeCount(g.taken) == FreeCount(f.taken) - 1
              && seat.lane in LanesOf(g.seated)
            else g == f.(waiting := f.waiting + [seat])
  {
    var g := FillStep(setup, f, seat);
    var free := LowestFree(f.taken);
    FullTable(f.taken);
    var k :| 0 <= k < |f.seated| && LanesOf(f.seated)[k] == seat.lane;
    assert |g.seated| > k && LanesOf(g.seated)[k] == seat.lane;
    if free < |f.taken| {
      TakingCosts(f.taken, free);
    }
  }

  /** The turn of a lone call seats as much of it as there is width for, from the
      front. */
  lemma LoneCallIsFilled<S(!new)>(setup: Setup<S>, w: World<S>, lane: LaneId)
    requires ResetsSucceed(setup.interior) && setup.maxSeats >= 1 && w.queue.seats != []
    requires forall s | s in w.queue.seats :: s.lane == lane
    ensures var m := Min(|w.queue.seats|, Width(setup, w.taken));
            && |Filled(setup, w).seated| == m
            && Filled(setup, w).waiting == w.queue.seats[m..]
  {
    var start := Filling(w.state, w.taken, [], [], []);
    var g := FillStep(setup, start, w.queue.seats[0]);
    assert LanesOf(g.seated)[0] == lane;
    LoneCallBorrows(setup, g, w.queue.seats[1..], lane);
    var m := Min(|w.queue.seats|, Width(setup, w.taken));
    assert w.queue.seats[1..][m - 1..] == w.queue.seats[m..];
  }

  /** The turn's run is refused nowhere and the model answers. */
  predicate GoesThrough<S>(setup: Setup<S>, w: World<S>)
    requires WellFed(setup, w)
  {
    FilledIsWellFed(setup, w);
    var f := Filled(setup, w);
    f.seated != [] ==> TurnRun(setup, f.state, f.taken, f.seated).1.Ok?
  }

  lemma {:induction false} LandingSuccessKeepsQueue(q: QueueView, seats: seq<Seat>, verdicts: seq<Result<Values>>, batchOut: seq<bool>)
    requires |seats| == |verdicts| && FitAll(q, seats)
    requires forall v | v in verdicts :: v.Ok?
    ensures LandAll(q, seats, verdicts, batchOut).seats == q.seats
    decreases |seats|
  {
    if seats != [] {
      assert forall s | s in seats[1..] :: Fits(q, s);
      LandingSuccessKeepsQueue(Landed(q, seats[0], verdicts[0], batchOut), seats[1..], verdicts[1..], batchOut);
    }
  }

  lemma LoneCallTurn<S(!new)>(setup: Setup<S>, sys: System<S>, call: nat)
    requires Settled(setup, sys) && ResetsSucceed(setup.interior) && setup.maxSeats >= 1
    requires forall s | s in sys.world.queue.seats :: s.call == call
    requires WellFed(setup, sys.world) && GoesThrough(setup, sys.world)
    ensures var after := Next(setup, sys, Turn).world;
            && after.taken == sys.world.taken
            && after.queue.seats
               == sys.world.queue.seats[Min(|sys.world.queue.seats|, Width(setup, sys.world.taken))..]
  {
    var w := sys.world;
    BorrowingIsSound(setup, sys);
    FilledIsWellFed(setup, w);
    var f := Filled(setup, w);
    if w.queue.seats != [] {
      assert InOwnLane(sys.received, w.queue.seats[0]);
      LoneCallIsFilled(setup, w, sys.received[call].call.leased);
      var (_, served) := TurnRun(setup, f.state, f.taken, f.seated);
      LandingSuccessKeepsQueue(w.queue.(seats := f.waiting), f.seated, Verdicts(served, |f.seated|), setup.batchOut);
    }
  }

  /** `n` turns and nothing else, every one of them going through. */
  ghost predicate GoodTurns<S>(setup: Setup<S>, sys: System<S>, n: nat)
    decreases n
  {
    n == 0 ||
    (WellFed(setup, sys.world) && GoesThrough(setup, sys.world) && GoodTurns(setup, Next(setup, sys, Turn), n - 1))
  }

  ghost function AfterTurns<S>(setup: Setup<S>, sys: System<S>, n: nat): System<S>
    requires GoodTurns(setup, sys, n)
    decreases n
  {
    if n == 0 then sys else AfterTurns(setup, Next(setup, sys, Turn), n - 1)
  }

  lemma LoneCallStep<S(!new)>(setup: Setup<S>, sys: System<S>, call: nat)
    requires Settled(setup, sys) && ResetsSucceed(setup.interior) && setup.maxSeats >= 1
    requires forall s | s in sys.world.queue.seats :: s.call == call
    requires WellFed(setup, sys.world) && GoesThrough(setup, sys.world)
    ensures var after := Next(setup, sys, Turn);
            && Settled(setup, after) && after.received == sys.received
            && (forall s | s in after.world.queue.seats :: s.call == call)
            && |after.world.queue.seats|
               == |sys.world.queue.seats| - Min(|sys.world.queue.seats|, Width(setup, sys.world.taken))
            && Width(setup, after.world.taken) == Width(setup, sys.world.taken)
  {
    LoneCallTurn(setup, sys, call);
    StepKeepsSettled(setup, sys, Turn);
  }

  /** Seats left after `n` turns of `width` seats each. */
  function Left(k: nat, width: nat, n: nat): nat {
    if n == 0 then k else Left(k - Min(k, width), width, n - 1)
  }

  lemma {:induction false} LeftIsLinear(k: nat, width: nat, n: nat)
    ensures Left(k, width, n) == if n * width < k then k - n * width else 0
    decreases n
  {
    if n > 0 {
      LeftIsLinear(k - Min(k, width), width, n - 1);
      assert n * width == (n - 1) * width + width;
      assert (n - 1) * width >= 0;
    }
  }

  lemma {:induction false} SeatsLeft<S(!new)>(setup: Setup<S>, sys: System<S>, call: nat, n: nat)
    requires Settled(setup, sys) && ResetsSucceed(setup.interior) && setup.maxSeats >= 1
    requires forall s | s in sys.world.queue.seats :: s.call == call
    requires GoodTurns(setup, sys, n)
    ensures var after := AfterTurns(setup, sys, n);
            var k, width := |sys.world.queue.seats|, Width(setup, sys.world.taken);
            && Settled(setup, after) && after.received == sys.received
            && (forall s | s in after.world.queue.seats :: s.call == call)
            && |after.world.queue.seats| == Left(k, width, n)
    decreases n
  {
    hide Settled, Width, Next, WellFed, GoesThrough;
    if n > 0 {
      LoneCallStep(setup, sys, call);
      SeatsLeft(setup, Next(setup, sys, Turn), call, n - 1);
    }
  }

  function CeilDiv(k: nat, width: nat): nat
    requires width > 0
  {
    (k + width - 1) / width
  }

  lemma CeilDivCounts(k: nat, width: nat, n: nat)
    requires width > 0
    ensures n * width < k <==> n < CeilDiv(k, width)
  {
    var c := CeilDiv(k, width);
    assert (k + width - 1) == c * width + (k + width - 1) % width;
    if n < c {
      Times(n, c - 1, width);
      assert (c - 1) * width == c * width - width;
    } else {
      Times(c, n, width);
    }
  }

  /** Alone in the queue with `k` seats to go and `f` lanes free, a call is answered
      by turn `ceil(k / min(maxSeats, f + 1))` and by none before. */
  lemma ExactTurnCount<S(!new)>(setup: Setup<S>, sys: System<S>, call: nat, n: nat)
    requires Settled(setup, sys) && ResetsSucceed(setup.interior) && setup.maxSeats >= 1
    requires call in sys.world.queue.completers
    requires forall s | s in sys.world.queue.seats :: s.call == call
    requires GoodTurns(setup, sys, n)
    ensures var q := AfterTurns(setup, sys, n).world.queue;
            && (call in q.completers
                <==> n < CeilDiv(|sys.world.queue.seats|, Width(setup, sys.world.taken)))
            && AnswerCount(q.outbox, call) == if call in q.completers then 0 else 1
  {
    hide Ledger, AnsweredOnce, GoodTurns, Explode;
    SeatsLeft(setup, sys, call, n);
    LeftIsLinear(|sys.world.queue.seats|, Width(setup, sys.world.taken), n);
    CeilDivCounts(|sys.world.queue.seats|, Width(setup, sys.world.taken), n);
    var after := AfterTurns(setup, sys, n);
    assert IsWaiting(setup, sys, call);
    SettledCallsWaitOrAreAnswered(setup, after, call);
    if after.world.queue.seats != [] {
      var s := after.world.queue.seats[0];
      SeatCounted(after.world.queue.seats, s);
      assert SeatCount(after.world.queue.seats, call, s.ix) == 1;
    }
  }
}
