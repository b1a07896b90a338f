/** The worker together with the streams it serves: who holds which lane, and
    every call ever asked. Requests arrive in any order and between any two turns;
    all a stream owes is to call and to hang up through the lane it holds, and not
    to hang up on a call it still waits for. */
module Streams {
  import opened Outcomes
  import opened LaneTables
  import opened Calls
  import opened Queues
  import opened Turns
  import opened ExactlyOnce

  /** A call as received, and the stream which asked it. */
  datatype Received = Received(call: Call, stream: nat)

  datatype System<S> = System(
    world: World<S>,
    /** Which stream holds a lane: one entry per live lease. */
    tenant: map<LaneId, nat>,
    /** Streams granted a lane so far; the next one gets this number. */
    spawned: nat,
    /** Every call received, by id. */
    received: seq<Received>)

  function Fresh<S>(state: S, maxLanes: nat): System<S> {
    System(World(state, seq(maxLanes, _ => false), QueueView([], map[], 0, []), []), map[], 0, [])
  }

  /** A stream calls and hangs up through its own lane, and hangs up only once
      every call it made is answered. */
  predicate Allowed<S>(sys: System<S>, event: Event) {
    match event
    case Heard(Ask(call)) => call.leased in sys.tenant
    case Heard(Drop(lane)) =>
      && lane in sys.tenant
      && forall id | id in sys.world.queue.completers && id < |sys.received| :: sys.received[id].call.leased != lane
    case _ => true
  }

  function Next<S>(setup: Setup<S>, sys: System<S>, event: Event): System<S>
    requires WellFed(setup, sys.world) && Allowed(sys, event)
  {
    var after := sys.(world := Stepped(setup, sys.world, event));
    match event
    case Heard(Spawn) =>
      (match after.world.granted[|after.world.granted| - 1]
       case Ok(lane) => after.(tenant := sys.tenant[lane := sys.spawned], spawned := sys.spawned + 1)
       case Err(_) => after)
    case Heard(Ask(call)) =>
      after.(received := sys.received + [Received(call, sys.tenant[call.leased])])
    case Heard(Drop(lane)) => after.(tenant := sys.tenant - {lane})
    case Turn => after
  }

  // ---- The lane ledger ----

  /** Taken lanes are exactly the live leases, and no two of them share a stream. */
  ghost predicate Ledger<S>(sys: System<S>) {
    && (forall lane: nat :: Holds(sys.world.taken, lane) <==> lane in sys.tenant)
    && (forall lane | lane in sys.tenant :: sys.tenant[lane] < sys.spawned)
    && (forall a, b | a in sys.tenant && b in sys.tenant && a != b :: sys.tenant[a] != sys.tenant[b])
  }

  /** A queued or seated seat is a slice of a call received, held by its stream. */
  predicate IsSlice(received: seq<Received>, batchIn: seq<bool>, s: Seat) {
    && s.call < |received|
    && Explode(received[s.call].call.inputs, batchIn).Ok?
    && s.ix < |Explode(received[s.call].call.inputs, batchIn).value|
    && s.inputs == Explode(received[s.call].call.inputs, batchIn).value[s.ix]
  }

  predicate InOwnLane(received: seq<Received>, s: Seat) {
    s.call < |received| && s.lane == received[s.call].call.leased
  }

  /** The call of an open completer: as wide as it exploded, answered on its own
      channel, and its stream still on its lane. */
  predicate IsWaiting<S>(setup: Setup<S>, sys: System<S>, id: nat) {
    && id in sys.world.queue.completers && id < |sys.received|
    && var asked := sys.received[id];
    && Explode(asked.call.inputs, setup.batchIn).Ok?
    && |sys.world.queue.completers[id].served| == |Explode(asked.call.inputs, setup.batchIn).value|
    && sys.world.queue.completers[id].done == asked.call.done
    && asked.call.leased in sys.tenant
    && sys.tenant[asked.call.leased] == asked.stream
  }

  ghost predicate Faithful<S>(setup: Setup<S>, sys: System<S>) {
    && |sys.received| == sys.world.queue.calls
    && (forall s | s in sys.world.queue.seats ::
          IsSlice(sys.received, setup.batchIn, s) && InOwnLane(sys.received, s))
    && (forall id | id in sys.world.queue.completers :: IsWaiting(setup, sys, id))
    && (forall r | r in sys.received :: r.stream < sys.spawned)
    && (forall a | a in sys.world.queue.outbox ::
          a.call < |sys.received| && a.done == sys.received[a.call].call.done)
  }

  /** What holds between turns, in every system the worker and its streams reach. */
  ghost predicate Settled<S>(setup: Setup<S>, sys: System<S>) {
    && Ledger(sys)
    && Faithful(setup, sys)
    && Matched([], sys.world.queue)
    && AnsweredOnce(sys.world.queue)
  }

  lemma SettledIsWellFed<S>(setup: Setup<S>, sys: System<S>)
    requires Settled(setup, sys)
    ensures WellFed(setup, sys.world)
    ensures forall s | s in sys.world.queue.seats :: s.call < sys.world.queue.calls
    ensures forall s | s in sys.world.queue.seats :: s.call in sys.world.queue.completers && s.lane in sys.tenant
  {
    MatchedFits([], sys.world.queue);
    forall s | s in sys.world.queue.seats
      ensures |s.inputs| == |setup.batchIn|
      ensures s.call in sys.world.queue.completers && s.lane in sys.tenant
    {
      ExplodedSeats(sys.received[s.call].call.inputs, setup.batchIn);
      assert s.inputs in Explode(sys.received[s.call].call.inputs, setup.batchIn).value;
      SeatCounted(sys.world.queue.seats, s);
      assert SlotMatched([], sys.world.queue, s.call, s.ix);
      assert IsWaiting(setup, sys, s.call);
    }
  }

  // ---- During a turn ----

  /** A turn being filled: the lanes it borrowed were free, are no one's, differ
      from each other, and no lane is seated twice. */
  ghost predicate LentSoundly<S>(before: seq<bool>, f: Filling<S>) {
    && |f.taken| == |before|
    && (forall lane: nat | lane < |before| :: f.taken[lane] == (before[lane] || lane in f.borrowed))
    && (forall lane | lane in f.borrowed :: lane < |before| && !before[lane])
    && (forall i, j | 0 <= i < j < |f.borrowed| :: f.borrowed[i] != f.borrowed[j])
    && (forall s | s in f.seated :: Holds(f.taken, s.lane))
    && Seatable(LanesOf(f.seated), |before|)
  }

  lemma FillStepKeepsLedger<S>(setup: Setup<S>, before: seq<bool>, f: Filling<S>, seat: Seat)
    requires LentSoundly(before, f) && Holds(before, seat.lane)
    ensures LentSoundly(before, FillStep(setup, f, seat))
  {
    var g := FillStep(setup, f, seat);
    var lane := LowestFree(f.taken);
    var lanes := LanesOf(f.seated);
    forall i, j | 0 <= i < j < |g.seated|
      ensures LanesOf(g.seated)[i] != LanesOf(g.seated)[j]
    {
      assert f.seated[i] in f.seated;
      assert lanes[i] in lanes;
      if j < |f.seated| {
        assert lanes[i] != lanes[j];
      }
    }
    forall i | 0 <= i < |g.seated|
      ensures LanesOf(g.seated)[i] < |before|
    {
      assert i < |f.seated| ==> lanes[i] < |before|;
    }
  }

  lemma {:induction false} FillKeepsLedger<S>(setup: Setup<S>, before: seq<bool>, f: Filling<S>, seats: seq<Seat>)
    requires LentSoundly(before, f) && forall s | s in seats :: Holds(before, s.lane)
    ensures LentSoundly(before, FillAll(setup, f, seats))
    decreases |seats|
  {
    if seats != [] {
      FillStepKeepsLedger(setup, before, f, seats[0]);
      FillKeepsLedger(setup, before, FillStep(setup, f, seats[0]), seats[1..]);
    }
  }

  /** What `fill` produced is never rejected by the table nor by the seating, the
      lanes it borrowed belong to no stream, and handing them back restores the
      table whatever became of the turn. */
  lemma BorrowingIsSound<S>(setup: Setup<S>, sys: System<S>)
    requires Settled(setup, sys)
    ensures var f := Filled(setup, sys.world);
            && LentSoundly(sys.world.taken, f)
            && SeatLanes(f.taken, LanesOf(f.seated)) == Ok(Seating(LanesOf(f.seated), |sys.world.taken|))
            && (forall lane | lane in f.borrowed :: lane !in sys.tenant)
            && AllGivenBack(f.taken, f.borrowed) == sys.world.taken
            && (f.seated == [] ==> f.taken == sys.world.taken)
  {
    SettledIsWellFed(setup, sys);
    var start := Filling(sys.world.state, sys.world.taken, [], [], []);
    FillKeepsLedger(setup, sys.world.taken, start, sys.world.queue.seats);
    var f := Filled(setup, sys.world);
    SeatingAccepts(|f.taken|, LanesOf(f.seated));
    forall l | l in LanesOf(f.seated)
      ensures Holds(f.taken, l)
    {
      var i :| 0 <= i < |f.seated| && LanesOf(f.seated)[i] == l;
      assert f.seated[i] in f.seated;
    }
    AllGivenBackClears(f.taken, f.borrowed);
    BorrowersAreSeated(setup, start, sys.world.queue.seats);
    assert f.seated == [] ==> f.borrowed == [];
  }

  lemma {:induction false} BorrowersAreSeated<S>(setup: Setup<S>, f: Filling<S>, seats: seq<Seat>)
    requires |f.borrowed| <= |f.seated|
    ensures |FillAll(setup, f, seats).borrowed| <= |FillAll(setup, f, seats).seated|
    decreases |seats|
  {
    if seats != [] {
      BorrowersAreSeated(setup, FillStep(setup, f, seats[0]), seats[1..]);
    }
  }

  // ---- Every step keeps the system settled ----

  lemma AskKeeps<S>(setup: Setup<S>, sys: System<S>, call: Call)
    requires Settled(setup, sys) && call.leased in sys.tenant && WellFed(setup, sys.world)
    ensures Settled(setup, Next(setup, sys, Heard(Ask(call))))
  {
    hide Matched, AnsweredOnce, WellFed;
    var after := Next(setup, sys, Heard(Ask(call)));
    PushKeeps(sys.world.queue, call, setup.batchIn);
    var id := sys.world.queue.calls;
    forall k | k in after.world.queue.completers
      ensures IsWaiting(setup, after, k)
    {
      if k != id {
        assert IsWaiting(setup, sys, k);
      }
    }
    forall s | s in after.world.queue.seats
      ensures IsSlice(after.received, setup.batchIn, s) && InOwnLane(after.received, s)
    {
      if s in sys.world.queue.seats {
        assert IsSlice(sys.received, setup.batchIn, s);
      }
    }
  }

  lemma SpawnKeepsLedger<S>(setup: Setup<S>, sys: System<S>)
    requires Ledger(sys) && WellFed(setup, sys.world)
    ensures Ledger(Next(setup, sys, Heard(Spawn)))
  {
    hide WellFed;
    var lane := LowestFree(sys.world.taken);
    assert lane < |sys.world.taken| ==> !Holds(sys.world.taken, lane);
  }

  lemma SpawnKeeps<S>(setup: Setup<S>, sys: System<S>)
    requires Settled(setup, sys) && WellFed(setup, sys.world)
    ensures Settled(setup, Next(setup, sys, Heard(Spawn)))
  {
    hide Explode, Matched, AnsweredOnce, WellFed, Ledger;
    SpawnKeepsLedger(setup, sys);
    var after := Next(setup, sys, Heard(Spawn));
    SpawnLeavesTenants(setup, sys);
    forall id | id in after.world.queue.completers
      ensures IsWaiting(setup, after, id)
    {
      assert IsWaiting(setup, sys, id);
    }
  }

  lemma SpawnLeavesTenants<S>(setup: Setup<S>, sys: System<S>)
    requires Ledger(sys) && WellFed(setup, sys.world)
    ensures var after := Next(setup, sys, Heard(Spawn));
            && after.world.queue == sys.world.queue && after.received == sys.received && after.spawned >= sys.spawned
            && forall lane | lane in sys.tenant :: lane in after.tenant && after.tenant[lane] == sys.tenant[lane]
  {
    hide WellFed;
    var lane := LowestFree(sys.world.taken);
    assert lane < |sys.world.taken| ==> !Holds(sys.world.taken, lane);
  }

  lemma DropKeeps<S>(setup: Setup<S>, sys: System<S>, lane: LaneId)
    requires Settled(setup, sys) && WellFed(setup, sys.world) && Allowed(sys, Heard(Drop(lane)))
    ensures Settled(setup, Next(setup, sys, Heard(Drop(lane))))
  {
    var after := Next(setup, sys, Heard(Drop(lane)));
    assert Holds(sys.world.taken, lane);
    forall l: nat
      ensures Holds(after.world.taken, l) <==> l in after.tenant
    {
      assert Holds(sys.world.taken, l) <==> l in sys.tenant;
    }
    forall id | id in after.world.queue.completers
      ensures IsWaiting(setup, after, id)
    {
      assert IsWaiting(setup, sys, id);
    }
  }

  /** Landing only ever removes completers and seats, and answers on the channel
      of the call it answers. */
  ghost predicate Shrunk(before: QueueView, after: QueueView) {
    && after.calls == before.calls
    && (forall s | s in after.seats :: s in before.seats)
    && (forall id | id in after.completers ::
          && id in before.completers
          && |after.completers[id].served| == |before.completers[id].served|
          && after.completers[id].done == before.completers[id].done)
    && |before.outbox| <= |after.outbox| && after.outbox[..|before.outbox|] == before.outbox
    && (forall k | |before.outbox| <= k < |after.outbox| ::
          after.outbox[k].call in before.completers
          && after.outbox[k].done == before.completers[after.outbox[k].call].done)
  }

  lemma {:induction false} LandingShrinks(q: QueueView, seats: seq<Seat>, verdicts: seq<Result<Values>>, batchOut: seq<bool>)
    requires |seats| == |verdicts| && FitAll(q, seats)
    ensures Shrunk(q, LandAll(q, seats, verdicts, batchOut))
    decreases |seats|
  {
    if seats != [] {
      assert forall s | s in seats[1..] :: Fits(q, s);
      var one := Landed(q, seats[0], verdicts[0], batchOut);
      var all := LandAll(q, seats, verdicts, batchOut);
      assert Shrunk(q, one);
      LandingShrinks(one, seats[1..], verdicts[1..], batchOut);
      assert all.outbox[..|q.outbox|] == all.outbox[..|one.outbox|][..|q.outbox|];
      forall k | |q.outbox| <= k < |all.outbox|
        ensures all.outbox[k].call in q.completers
                && all.outbox[k].done == q.completers[all.outbox[k].call].done
      {
        assert k < |one.outbox| ==> all.outbox[k] == one.outbox[k];
      }
    }
  }

  lemma TurnShrinks<S>(setup: Setup<S>, w: World<S>)
    requires WellFed(setup, w)
    ensures Shrunk(w.queue, Turned(setup, w).queue)
    ensures Turned(setup, w).granted == w.granted
  {
    FilledIsWellFed(setup, w);
    FillingKeeps(setup, Filling(w.state, w.taken, [], [], []), w.queue.seats);
    var f := Filled(setup, w);
    if f.seated != [] {
      var (_, served) := TurnRun(setup, f.state, f.taken, f.seated);
      LandingShrinks(w.queue.(seats := f.waiting), f.seated, Verdicts(served, |f.seated|), setup.batchOut);
    }
  }

  lemma TurnKeepsSettled<S>(setup: Setup<S>, sys: System<S>)
    requires Settled(setup, sys) && WellFed(setup, sys.world)
    ensures Settled(setup, Next(setup, sys, Turn))
  {
    var after := Next(setup, sys, Turn);
    TurnKeeps(setup, sys.world);
    TurnShrinks(setup, sys.world);
    BorrowingIsSound(setup, sys);
    assert after.world.taken == sys.world.taken;
    forall id | id in after.world.queue.completers
      ensures IsWaiting(setup, after, id)
    {
      assert IsWaiting(setup, sys, id);
    }
    forall a | a in after.world.queue.outbox
      ensures a.call < |after.received| && a.done == after.received[a.call].call.done
    {
      var k :| 0 <= k < |after.world.queue.outbox| && after.world.queue.outbox[k] == a;
      if k < |sys.world.queue.outbox| {
        assert a == after.world.queue.outbox[..|sys.world.queue.outbox|][k];
      } else {
        assert IsWaiting(setup, sys, a.call);
      }
    }
  }

  /** Any step a stream may take, and any turn, keeps the system settled. */
  lemma StepKeepsSettled<S>(setup: Setup<S>, sys: System<S>, event: Event)
    requires Settled(setup, sys) && Allowed(sys, event)
    ensures WellFed(setup, sys.world)
    ensures Settled(setup, Next(setup, sys, event))
  {
    SettledIsWellFed(setup, sys);
    match event {
      case Heard(Spawn) => SpawnKeeps(setup, sys);
      case Heard(Ask(call)) => AskKeeps(setup, sys, call);
      case Heard(Drop(lane)) => DropKeeps(setup, sys, lane);
      case Turn => TurnKeepsSettled(setup, sys);
    }
  }

  // ---- Whole runs ----

  /** Every event of the run is one its stream may take, step after step. */
  ghost predicate AllowedRun<S>(setup: Setup<S>, sys: System<S>, events: seq<Event>)
    decreases |events|
  {
    events == [] ||
    (&& WellFed(setup, sys.world)
     && Allowed(sys, events[0])
     && AllowedRun(setup, Next(setup, sys, events[0]), events[1..]))
  }

  ghost function Ran<S>(setup: Setup<S>, sys: System<S>, events: seq<Event>): System<S>
    requires AllowedRun(setup, sys, events)
    decreases |events|
  {
    if events == [] then sys else Ran(setup, Next(setup, sys, events[0]), events[1..])
  }

  lemma FreshIsSettled<S>(setup: Setup<S>, state: S, maxLanes: nat)
    ensures Settled(setup, Fresh(state, maxLanes))
  {
    var sys := Fresh(state, maxLanes);
    assert forall call: nat, ix: nat :: SlotMatched([], sys.world.queue, call, ix);
  }

  lemma {:induction false} RunsStaySettled<S>(setup: Setup<S>, sys: System<S>, events: seq<Event>)
    requires Settled(setup, sys) && AllowedRun(setup, sys, events)
    ensures Settled(setup, Ran(setup, sys, events))
    decreases |events|
  {
    if events != [] {
      StepKeepsSettled(setup, sys, events[0]);
      RunsStaySettled(setup, Next(setup, sys, events[0]), events[1..]);
    }
  }

  /** The fate of call `id`: still waiting, a seat queued for each of its empty
      slots and for nothing else, or answered exactly once; and on its own channel. */
  ghost predicate WaitsOrAnswered<S>(sys: System<S>, id: nat) {
    var q := sys.world.queue;
    && id < |sys.received|
    && AnswerCount(q.outbox, id) == (if id in q.completers then 0 else 1)
    && (id in q.completers <==> exists ix: nat :: SeatCount(q.seats, id, ix) == 1)
    && (forall ix: nat :: SeatCount(q.seats, id, ix) == if Open(q, id, ix) then 1 else 0)
    && (forall a | a in q.outbox && a.call == id :: a.done == sys.received[id].call.done)
  }

  lemma SettledCallsWaitOrAreAnswered<S>(setup: Setup<S>, sys: System<S>, id: nat)
    requires Settled(setup, sys) && id < |sys.received|
    ensures WaitsOrAnswered(sys, id)
  {
    hide Ledger, Explode;
    var q := sys.world.queue;
    forall ix: nat
      ensures SeatCount(q.seats, id, ix) == if Open(q, id, ix) then 1 else 0
    {
      assert SlotMatched([], q, id, ix);
    }
    if id in q.completers {
      var ix: nat :| ix < |q.completers[id].served| && q.completers[id].served[ix].None?;
      assert Open(q, id, ix);
    }
  }

  /** Over every run from a fresh worker, whatever the interior does, every call
      received is waiting with its seats queued or answered once, and the lanes
      taken are the leases live. */
  lemma EveryRunAnswersOnce<S>(setup: Setup<S>, state: S, maxLanes: nat, events: seq<Event>)
    requires AllowedRun(setup, Fresh(state, maxLanes), events)
    ensures var sys := Ran(setup, Fresh(state, maxLanes), events);
            && (forall id: nat | id < |sys.received| :: WaitsOrAnswered(sys, id))
            && (forall lane: nat :: Holds(sys.world.taken, lane) <==> lane in sys.tenant)
  {
    FreshIsSettled(setup, state, maxLanes);
    RunsStaySettled(setup, Fresh(state, maxLanes), events);
    var sys := Ran(setup, Fresh(state, maxLanes), events);
    forall id: nat | id < |sys.received|
      ensures WaitsOrAnswered(sys, id)
    {
      SettledCallsWaitOrAreAnswered(setup, sys, id);
    }
  }

  /** The lowest lane no stream leases. */
  ghost predicate LowestUnleased<S>(sys: System<S>, lane: LaneId) {
    lane < |sys.world.taken| && lane !in sys.tenant && forall l: nat | l < lane :: l in sys.tenant
  }

  /** What a spawn does when it would be handed `lane`: the lane's reset alone decides. */
  ghost predicate Spawned<S>(setup: Setup<S>, before: System<S>, after: System<S>, lane: LaneId)
    requires lane < |before.world.taken|
  {
    var (state, ok) := setup.interior.reset(before.world.state, lane);
    && after.world.state == state && after.world.queue == before.world.queue && after.received == before.received
    && if ok then
         && after.world.granted == before.world.granted + [Ok(lane)]
         && after.world.taken == before.world.taken[lane := true]
         && after.tenant == before.tenant[lane := before.spawned] && after.spawned == before.spawned + 1
       else
         && after.world.granted == before.world.granted + [Err(ResetFailed)] && after.world.taken == before.world.taken
         && after.tenant == before.tenant && after.spawned == before.spawned
  }

  /** Between turns a spawn is refused for want of a lane if and only if every lane is
      leased, for a turn that borrowed lanes never stands in its way; otherwise it is handed
      the lowest lane that is not if that lane resets, and refused if it does not. */
  lemma SpawnFindsAnyFreeLane<S>(setup: Setup<S>, sys: System<S>)
    requires Settled(setup, sys)
    ensures WellFed(setup, sys.world)
    ensures (forall lane: nat | lane < |sys.world.taken| :: lane in sys.tenant) || exists lane: LaneId :: LowestUnleased(sys, lane)
    ensures (forall lane: nat | lane < |sys.world.taken| :: lane in sys.tenant) ==>
              Next(setup, sys, Heard(Spawn)) == sys.(world := sys.world.(granted := sys.world.granted + [Err(EveryLaneTaken)]))
    ensures forall lane: LaneId | LowestUnleased(sys, lane) :: Spawned(setup, sys, Next(setup, sys, Heard(Spawn)), lane)
  {
    SettledIsWellFed(setup, sys);
    var lane := LowestFree(sys.world.taken);
    assert forall l: nat | l < lane :: Holds(sys.world.taken, l);
    if lane < |sys.world.taken| {
      assert !Holds(sys.world.taken, lane);
      assert LowestUnleased(sys, lane);
      forall other: LaneId | LowestUnleased(sys, other)
        ensures other == lane
      {
        assert other < lane ==> Holds(sys.world.taken, other);
        assert lane < other ==> lane in sys.tenant;
      }
    }
  }
}
