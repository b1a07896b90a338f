/** What every call is answered, from what its seats were dealt by the turns that seated
    them, whatever the interior does. */
module Fates {
  import opened Outcomes
  import opened Calls
  import opened Queues
  import opened Turns
  import opened ExactlyOnce
  import opened Streams

  /** What each seat, named by its call and its place in it, was dealt by the turn that
      seated it. */
  type Log = map<(nat, nat), Result<Values>>

  /** A turn that goes through deals each seat its own outputs; one that fails deals them
      all its error. */
  function Dealt(served: Result<seq<Values>>, n: nat): (r: seq<Result<Values>>)
    requires served.Ok? ==> |served.value| == n
    ensures |r| == n
  {
    seq(n, i requires 0 <= i < n => if served.Ok? then Ok(served.value[i]) else Err(TurnFailed(served.error)))
  }

  function Noted(log: Log, seat: Seat, deal: Result<Values>): Log {
    if (seat.call, seat.ix) in log then log else log[(seat.call, seat.ix) := deal]
  }

  function NotedAll(log: Log, seats: seq<Seat>, deals: seq<Result<Values>>): Log
    requires |seats| == |deals|
    decreases |seats|
  {
    if seats == [] then log else NotedAll(Noted(log, seats[0], deals[0]), seats[1..], deals[1..])
  }

  function NotedTurn<S>(setup: Setup<S>, w: World<S>, log: Log): Log
    requires WellFed(setup, w)
  {
    FilledIsWellFed(setup, w);
    var f := Filled(setup, w);
    if f.seated == [] then log
    else
      var served := TurnRun(setup, f.state, f.taken, f.seated).1;
      NotedAll(log, f.seated, Dealt(served, |f.seated|))
  }

  /** The log of a whole run. */
  ghost function LogOf<S>(setup: Setup<S>, sys: System<S>, log: Log, events: seq<Event>): Log
    requires AllowedRun(setup, sys, events)
    decreases |events|
  {
    if events == [] then log
    else
      var next := if events[0].Turn? then NotedTurn(setup, sys.world, log) else log;
      LogOf(setup, Next(setup, sys, events[0]), next, events[1..])
  }

  // ---- What the log says of a call ----

  predicate Failed(log: Log, id: nat, ix: nat) {
    (id, ix) in log && log[(id, ix)].Err?
  }

  predicate AllServed(log: Log, id: nat, k: nat) {
    forall ix: nat | ix < k :: (id, ix) in log && log[(id, ix)].Ok?
  }

  /** What the seats of the call were dealt, in the order it asked for them. */
  function OutsOf(log: Log, id: nat, k: nat): (r: seq<Values>)
    requires AllServed(log, id, k)
    ensures |r| == k && forall ix | 0 <= ix < k :: r[ix] == log[(id, ix)].value
  {
    seq(k, ix requires 0 <= ix < k => log[(id, ix)].value)
  }

  /** A call of `k` seats is answered the error of a turn that failed one of them, or all
      its seats' outputs assembled. */
  ghost predicate Told(log: Log, batchOut: seq<bool>, id: nat, k: nat, result: Result<Values>) {
    || (exists ix: nat :: ix < k && Failed(log, id, ix) && result == Err(log[(id, ix)].error))
    || (k > 0 && AllServed(log, id, k) && result == Assemble(OutsOf(log, id, k), batchOut))
  }

  /** A call that does not explode is answered why; any other as its seats were dealt. */
  ghost predicate IsTold(log: Log, batchIn: seq<bool>, batchOut: seq<bool>, received: seq<Received>, a: Answer) {
    a.call < |received|
    && match Explode(received[a.call].call.inputs, batchIn)
       case Err(e) => a.result == Err(e)
       case Ok(seats) => Told(log, batchOut, a.call, |seats|, a.result)
  }

  ghost predicate AllTold(log: Log, batchIn: seq<bool>, batchOut: seq<bool>, received: seq<Received>, outbox: seq<Answer>) {
    forall a | a in outbox :: IsTold(log, batchIn, batchOut, received, a)
  }

  /** An open call holds in every slot what the seat was dealt, and nothing in the others. */
  predicate HoldsDeals(log: Log, id: nat, served: seq<Option<Values>>) {
    forall ix | 0 <= ix < |served| ::
      if served[ix].Some? then (id, ix) in log && log[(id, ix)] == Ok(served[ix].value) else (id, ix) !in log
  }

  ghost predicate Tells(log: Log, batchIn: seq<bool>, batchOut: seq<bool>, received: seq<Received>, q: QueueView) {
    && AllTold(log, batchIn, batchOut, received, q.outbox)
    && (forall id | id in q.completers :: HoldsDeals(log, id, q.completers[id].served))
    && (forall key | key in log :: key.0 < q.calls && DealsRows(log[key], batchOut))
  }

  predicate DealsRows(deal: Result<Values>, batchOut: seq<bool>) {
    deal.Ok? ==> OneRow(deal.value, batchOut)
  }

  /** Every open call is as wide as it exploded. */
  predicate Sized(batchIn: seq<bool>, received: seq<Received>, q: QueueView) {
    forall id | id in q.completers ::
      && id < |received| && Explode(received[id].call.inputs, batchIn).Ok?
      && |q.completers[id].served| == |Explode(received[id].call.inputs, batchIn).value| > 0
  }

  // ---- Kept by every step ----

  ghost predicate Longer(later: Log, log: Log) {
    forall key | key in log :: key in later && later[key] == log[key]
  }

  lemma ToldLater(log: Log, later: Log, batchOut: seq<bool>, id: nat, k: nat, result: Result<Values>)
    requires Told(log, batchOut, id, k, result) && Longer(later, log)
    ensures Told(later, batchOut, id, k, result)
  {
    if ix: nat :| ix < k && Failed(log, id, ix) && result == Err(log[(id, ix)].error) {
      assert Failed(later, id, ix);
    } else {
      assert OutsOf(later, id, k) == OutsOf(log, id, k);
    }
  }

  lemma AllToldLater(log: Log, later: Log, batchIn: seq<bool>, batchOut: seq<bool>, received: seq<Received>, outbox: seq<Answer>)
    requires AllTold(log, batchIn, batchOut, received, outbox) && Longer(later, log)
    ensures AllTold(later, batchIn, batchOut, received, outbox)
  {
    hide Explode, Told;
    forall a | a in outbox
      ensures IsTold(later, batchIn, batchOut, received, a)
    {
      assert IsTold(log, batchIn, batchOut, received, a);
      var exploded := Explode(received[a.call].call.inputs, batchIn);
      if exploded.Ok? {
        ToldLater(log, later, batchOut, a.call, |exploded.value|, a.result);
      }
    }
  }

  /** One seat landed and noted. */
  lemma LandingTells(log: Log, batchIn: seq<bool>, batchOut: seq<bool>, received: seq<Received>, q: QueueView, seat: Seat,
                     rest: seq<Seat>, deal: Result<Values>)
    requires Matched([seat] + rest, q) && Fits(q, seat) && Sized(batchIn, received, q) && DealsRows(deal, batchOut)
    requires Tells(log, batchIn, batchOut, received, q)
    ensures Tells(Noted(log, seat, deal), batchIn, batchOut, received, Landed(q, seat, deal, batchOut))
    ensures Sized(batchIn, received, Landed(q, seat, deal, batchOut))
  {
    hide Explode, Assemble, DealsRows;
    var later, r := Noted(log, seat, deal), Landed(q, seat, deal, batchOut);
    assert SlotMatched([seat] + rest, q, seat.call, seat.ix);
    assert SeatCount([seat] + rest, seat.call, seat.ix) >= 1 by { SeatCounted([seat] + rest, seat); }
    AllToldLater(log, later, batchIn, batchOut, received, q.outbox);
    if seat.call in q.completers {
      assert Open(q, seat.call, seat.ix);
      LandingFills(log, batchOut, q, seat, deal);
    }
  }

  /** The open call after the seat of it has landed, or its answer. */
  lemma LandingFills(log: Log, batchOut: seq<bool>, q: QueueView, seat: Seat, deal: Result<Values>)
    requires Open(q, seat.call, seat.ix) && HoldsDeals(log, seat.call, q.completers[seat.call].served)
    ensures var (later, r, k) := (Noted(log, seat, deal), Landed(q, seat, deal, batchOut), |q.completers[seat.call].served|);
            if seat.call in r.completers then
              r.outbox == q.outbox && HoldsDeals(later, seat.call, r.completers[seat.call].served)
            else
              |r.outbox| == |q.outbox| + 1 && r.outbox[..|q.outbox|] == q.outbox && r.outbox[|q.outbox|].call == seat.call
              && Told(later, batchOut, seat.call, k, r.outbox[|q.outbox|].result)
  {
    hide Assemble;
    var later, r := Noted(log, seat, deal), Landed(q, seat, deal, batchOut);
    var k := |q.completers[seat.call].served|;
    if deal.Err? {
      assert Failed(later, seat.call, seat.ix);
    } else {
      var served := q.completers[seat.call].served[seat.ix := Some(deal.value)];
      if IsFull(served) {
        forall ix: nat | ix < k
          ensures (seat.call, ix) in later && later[(seat.call, ix)] == Ok(served[ix].value)
        {
          assert served[ix].Some?;
        }
        assert Unwrapped(served) == OutsOf(later, seat.call, k);
      }
    }
  }

  lemma {:induction false} LandingAllTells(log: Log, batchIn: seq<bool>, batchOut: seq<bool>, received: seq<Received>,
                                           q: QueueView, seats: seq<Seat>, deals: seq<Result<Values>>)
    requires |seats| == |deals| && Matched(seats, q) && AnsweredOnce(q) && Sized(batchIn, received, q)
    requires forall i | 0 <= i < |deals| :: DealsRows(deals[i], batchOut)
    requires Tells(log, batchIn, batchOut, received, q)
    ensures FitAll(q, seats)
    ensures Tells(NotedAll(log, seats, deals), batchIn, batchOut, received, LandAll(q, seats, deals, batchOut))
    decreases |seats|
  {
    hide Explode, Assemble, Tells, Sized, Matched, AnsweredOnce, Landed, DealsRows;
    MatchedFits(seats, q);
    if seats != [] {
      assert seats == [seats[0]] + seats[1..];
      LandKeeps(seats[0], seats[1..], q, deals[0], batchOut);
      LandingTells(log, batchIn, batchOut, received, q, seats[0], seats[1..], deals[0]);
      LandingAllTells(Noted(log, seats[0], deals[0]), batchIn, batchOut, received, Landed(q, seats[0], deals[0], batchOut),
                      seats[1..], deals[1..]);
    }
  }

  lemma WaitingIsSized<S>(setup: Setup<S>, sys: System<S>)
    requires Settled(setup, sys)
    ensures Sized(setup.batchIn, sys.received, sys.world.queue)
  {
    hide Explode, Ledger, Matched, AnsweredOnce;
    forall id | id in sys.world.queue.completers
      ensures id < |sys.received| && Explode(sys.received[id].call.inputs, setup.batchIn).Ok?
      ensures |sys.world.queue.completers[id].served| == |Explode(sys.received[id].call.inputs, setup.batchIn).value| > 0
    {
      assert IsWaiting(setup, sys, id);
      ExplodedSeats(sys.received[id].call.inputs, setup.batchIn);
    }
  }

  /** Verdicts are deals. */
  lemma VerdictsAreDeals(served: Result<seq<Values>>, n: nat)
    requires served.Ok? ==> |served.value| == n
    ensures Verdicts(served, n) == Dealt(served, n)
  {}

  /** What a turn deals is one row wide where batched. */
  lemma TurnDealsRows<S>(setup: Setup<S>, state: S, taken: seq<bool>, seated: seq<Seat>)
    requires |seated| > 0 && forall s | s in seated :: |s.inputs| == |setup.batchIn|
    ensures var deals := Dealt(TurnRun(setup, state, taken, seated).1, |seated|);
            forall i | 0 <= i < |deals| :: DealsRows(deals[i], setup.batchOut)
  {
    hide GatherFrom;
  }

  lemma TurnMatches<S>(setup: Setup<S>, w: World<S>)
    requires WellFed(setup, w) && Matched([], w.queue)
    ensures Matched(Filled(setup, w).seated, w.queue.(seats := Filled(setup, w).waiting))
  {
    hide FillAll;
    var f := Filled(setup, w);
    forall c: nat, ix: nat
      ensures SlotMatched(f.seated, w.queue.(seats := f.waiting), c, ix)
    {
      assert SlotMatched([], w.queue, c, ix);
      FillingSplits(setup, Filling(w.state, w.taken, [], [], []), w.queue.seats, c, ix);
    }
  }

  lemma TurnTells<S>(setup: Setup<S>, sys: System<S>, log: Log)
    requires Settled(setup, sys) && WellFed(setup, sys.world)
    requires Tells(log, setup.batchIn, setup.batchOut, sys.received, sys.world.queue)
    ensures Tells(NotedTurn(setup, sys.world, log), setup.batchIn, setup.batchOut, sys.received, Turned(setup, sys.world).queue)
  {
    hide Explode, Assemble, Ledger, Matched, FillAll, TurnRun, LandAll, Verdicts, Dealt, Told, IsTold, DealsRows;
    var w := sys.world;
    var f := Filled(setup, w);
    FilledIsWellFed(setup, w);
    TurnMatches(setup, w);
    WaitingIsSized(setup, sys);
    if f.seated != [] {
      var served := TurnRun(setup, f.state, f.taken, f.seated).1;
      VerdictsAreDeals(served, |f.seated|);
      TurnDealsRows(setup, f.state, f.taken, f.seated);
      LandingAllTells(log, setup.batchIn, setup.batchOut, sys.received, w.queue.(seats := f.waiting), f.seated,
                      Dealt(served, |f.seated|));
    }
  }

  lemma AskTells<S>(setup: Setup<S>, sys: System<S>, log: Log, call: Call)
    requires Settled(setup, sys) && WellFed(setup, sys.world) && Allowed(sys, Heard(Ask(call)))
    requires Tells(log, setup.batchIn, setup.batchOut, sys.received, sys.world.queue)
    ensures var after := Next(setup, sys, Heard(Ask(call)));
            Tells(log, setup.batchIn, setup.batchOut, after.received, after.world.queue)
  {
    hide Ledger, Matched, Told;
    var after := Next(setup, sys, Heard(Ask(call)));
    forall a | a in after.world.queue.outbox
      ensures IsTold(log, setup.batchIn, setup.batchOut, after.received, a)
    {
      if a in sys.world.queue.outbox {
        assert IsTold(log, setup.batchIn, setup.batchOut, sys.received, a);
        assert after.received[a.call] == sys.received[a.call];
      }
    }
  }

  lemma StepTells<S>(setup: Setup<S>, sys: System<S>, log: Log, event: Event)
    requires Settled(setup, sys) && WellFed(setup, sys.world) && Allowed(sys, event)
    requires Tells(log, setup.batchIn, setup.batchOut, sys.received, sys.world.queue)
    ensures var after := Next(setup, sys, event);
            Tells(if event.Turn? then NotedTurn(setup, sys.world, log) else log, setup.batchIn, setup.batchOut,
                  after.received, after.world.queue)
  {
    hide Settled, Turned, Explode, Tells, NotedTurn, WellFed;
    match event {
      case Heard(Ask(call)) => AskTells(setup, sys, log, call);
      case Heard(_) =>
      case Turn => TurnTells(setup, sys, log);
    }
  }

  lemma {:induction false} RunsTell<S>(setup: Setup<S>, sys: System<S>, log: Log, events: seq<Event>)
    requires Settled(setup, sys) && AllowedRun(setup, sys, events)
    requires Tells(log, setup.batchIn, setup.batchOut, sys.received, sys.world.queue)
    ensures var after := Ran(setup, sys, events);
            Tells(LogOf(setup, sys, log, events), setup.batchIn, setup.batchOut, after.received, after.world.queue)
    decreases |events|
  {
    hide Settled, Tells, Next, NotedTurn, WellFed, Allowed;
    if events != [] {
      StepKeepsSettled(setup, sys, events[0]);
      StepTells(setup, sys, log, events[0]);
      RunsTell(setup, Next(setup, sys, events[0]), if events[0].Turn? then NotedTurn(setup, sys.world, log) else log,
               events[1..]);
    }
  }

  /** Over every run from a fresh worker, whatever the interior does: each call that does not
      explode is answered why; each other answer is the error of a turn that failed one of its
      seats, or the assembled outputs its seats were dealt; and an open call holds just what
      its seats were dealt. */
  lemma AnsweredAsDealt<S>(setup: Setup<S>, state: S, maxLanes: nat, events: seq<Event>)
    requires AllowedRun(setup, Fresh(state, maxLanes), events)
    ensures var sys := Ran(setup, Fresh(state, maxLanes), events);
            Tells(LogOf(setup, Fresh(state, maxLanes), map[], events), setup.batchIn, setup.batchOut, sys.received, sys.world.queue)
  {
    FreshIsSettled(setup, state, maxLanes);
    RunsTell(setup, Fresh(state, maxLanes), map[], events);
  }

  predicate IsRows(outs: seq<Values>, batchOut: seq<bool>, answer: Values)
    requires |outs| > 0
  {
    |answer| == |outs[0]| && forall ix | 0 <= ix < |answer| :: RowsAt(outs, batchOut, ix, answer[ix])
  }

  /** So a call that explodes is answered with outputs if and only if no turn failed a seat of
      it and every batched output of its seats stacks, and they are then the seats' rows in
      the order it asked for them, and the first seat's shared outputs; until then every seat
      was dealt its own, or one was failed. */
  lemma AnsweredWithOutputs<S>(setup: Setup<S>, state: S, maxLanes: nat, events: seq<Event>, a: Answer)
    requires AllowedRun(setup, Fresh(state, maxLanes), events)
    requires a in Ran(setup, Fresh(state, maxLanes), events).world.queue.outbox
    requires var sys := Ran(setup, Fresh(state, maxLanes), events);
             a.call < |sys.received| ==> Explode(sys.received[a.call].call.inputs, setup.batchIn).Ok?
    ensures var sys := Ran(setup, Fresh(state, maxLanes), events);
            var log := LogOf(setup, Fresh(state, maxLanes), map[], events);
            && a.call < |sys.received|
            && var k := |Explode(sys.received[a.call].call.inputs, setup.batchIn).value|;
               if exists ix: nat :: ix < k && Failed(log, a.call, ix) then a.result.Err?
               else
                 && k > 0 && AllServed(log, a.call, k)
                 && var outs := OutsOf(log, a.call, k);
                    && (a.result.Ok? <==> Stacks(outs, setup.batchOut))
                    && (a.result.Ok? ==> IsRows(outs, setup.batchOut, a.result.value))
  {
    hide Explode, Assemble, Stacks, RowsAt, LogOf, Ran, AllowedRun;
    AnsweredAsDealt(setup, state, maxLanes, events);
    var sys := Ran(setup, Fresh(state, maxLanes), events);
    var log := LogOf(setup, Fresh(state, maxLanes), map[], events);
    assert IsTold(log, setup.batchIn, setup.batchOut, sys.received, a);
    var k := |Explode(sys.received[a.call].call.inputs, setup.batchIn).value|;
    if k > 0 && AllServed(log, a.call, k) {
      var outs := OutsOf(log, a.call, k);
      AssembleExactly(outs, setup.batchOut);
      if Assemble(outs, setup.batchOut).Ok? {
        forall s | s in outs
          ensures OneRow(s, setup.batchOut)
        {
          var ix: nat :| ix < k && outs[ix] == s;
          assert DealsRows(log[(a.call, ix)], setup.batchOut);
        }
        AnswerIsRowByRow(outs, setup.batchOut);
      }
    }
  }
}
