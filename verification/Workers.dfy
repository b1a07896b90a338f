/** The worker, in place: one state, one lane table, one queue of seats, and the
    loop which serves requests and runs turns until the channel closes. */
module Workers {
  import opened Outcomes
  import opened Tensors
  import opened LaneTables
  import opened Calls
  import opened Queues
  import opened Turns
  import opened ExactlyOnce
  import opened Streams
  import opened Fairness

  class Worker<S> {
    const setup: Setup<S>
    var state: S
    const lanes: LaneTable
    const queued: Queue
    /** Answers to the spawns, one per request. */
    var granted: seq<Result<LaneId>>

    ghost function View(): World<S>
      reads this, lanes, queued
    {
      World(state, lanes.taken, queued.View(), granted)
    }

    ghost predicate Valid()
      reads this, lanes, queued
    {
      Sane(setup, View())
    }

    constructor (setup: Setup<S>, state: S, lanes: LaneTable)
      ensures this.setup == setup && this.lanes == lanes && fresh(queued)
      ensures View() == World(state, lanes.taken, QueueView([], map[], 0, []), [])
      ensures Valid()
    {
      this.setup := setup;
      this.state := state;
      this.lanes := lanes;
      this.queued := new Queue();
      this.granted := [];
    }

    method ResetLane(lane: LaneId) returns (ok: bool)
      modifies this`state
      ensures (state, ok) == setup.interior.reset(old(state), lane)
    {
      var (after, went) := setup.interior.reset(state, lane);
      state := after;
      return went;
    }

    method Serve(request: Request)
      requires Valid()
      modifies this, lanes, queued
      ensures View() == Requested(setup, old(View()), request)
      ensures Valid()
    {
      StepsKeepFed(setup, View(), Heard(request));
      match request {
        case Spawn =>
          var lane := lanes.Take();
          if lane.None? {
            FreeIsLowest(lanes.taken);
            granted := granted + [Err(EveryLaneTaken)];
          } else {
            var ok := ResetLane(lane.value);
            if ok {
              granted := granted + [Ok(lane.value)];
            } else {
              var _ := lanes.GiveBack(lane.value);
              assert lanes.taken == old(lanes.taken);
              granted := granted + [Err(ResetFailed)];
            }
          }
        case Ask(call) =>
          queued.Push(call, setup.batchIn);
        case Drop(lane) =>
          var _ := lanes.GiveBack(lane);
      }
    }

    /** Seats the head of the queue, borrowing and resetting free lanes for a
        lane's second and later seats. */
    method Fill() returns (seated: seq<Seat>, borrowed: seq<LaneId>)
      modifies this, lanes, queued
      ensures Filling(state, lanes.taken, seated, borrowed, queued.seats) == Filled(setup, old(View()))
      ensures queued.View() == old(queued.View()).(seats := queued.seats)
      ensures granted == old(granted)
    {
      seated, borrowed := [], [];
      var taken: seq<LaneId> := [];
      var waiting: seq<Seat> := [];
      while queued.seats != []
        invariant taken == LanesOf(seated)
        invariant FillAll(setup, Filling(state, lanes.taken, seated, borrowed, waiting), queued.seats)
                  == Filled(setup, old(View()))
        invariant queued.View() == old(queued.View()).(seats := queued.seats)
        invariant granted == old(granted)
        decreases |queued.seats|
      {
        var seat := queued.seats[0];
        ghost var step := FillStep(setup, Filling(state, lanes.taken, seated, borrowed, waiting), seat);
        queued.seats := queued.seats[1..];
        if |seated| >= setup.maxSeats {
          waiting := waiting + [seat];
          continue;
        }
        var lane: Option<LaneId> := Some(seat.lane);
        if seat.lane in taken {
          label BeforeTaking:
          lane := lanes.Take();
          if lane.Some? {
            var ok := ResetLane(lane.value);
            if ok {
              borrowed := borrowed + [lane.value];
            } else {
              var _ := lanes.GiveBack(lane.value);
              assert lanes.taken == old@BeforeTaking(lanes.taken);
              lane := None;
            }
          } else {
            FreeIsLowest(lanes.taken);
          }
        }
        if lane.Some? {
          seat := seat.(lane := lane.value);
          taken := taken + [lane.value];
          seated := seated + [seat];
        } else {
          waiting := waiting + [seat];
        }
        assert Filling(state, lanes.taken, seated, borrowed, waiting) == step;
      }
      queued.seats := waiting;
    }

    /** Input `ix` of the turn, seat after seat. */
    method Gather(seated: seq<Seat>, ix: nat) returns (r: Result<Tensor>)
      requires |seated| > 0 && ix < |setup.batchIn|
      requires forall s | s in seated :: |s.inputs| == |setup.batchIn|
      ensures r == GatherOne(setup.batchIn, seated, ix)
    {
      var seats := InputColumn(seated, ix);
      if setup.batchIn[ix] {
        for seat := 0 to |seats|
          invariant forall i | 0 <= i < seat :: seats[i].Rows? && |seats[i].rows| == 1
        {
          if seats[seat].Scalar? || |seats[seat].rows| != 1 {
            assert seats[seat] in seats;
            return Err(NotOneSeat(ix));
          }
        }
        var stacked := StackRows(seats);
        return if stacked.Some? then Ok(stacked.value) else Err(StackFailed(ix));
      } else {
        for seat := 1 to |seats|
          invariant forall i | 0 <= i < seat :: seats[i] == seats[0]
        {
          if seats[seat] != seats[0] {
            assert seats[seat] in seats;
            return Err(SharedInputsDiffer(ix));
          }
        }
        return Ok(seats[0]);
      }
    }

    /** Runs `seated` as one turn, touching the state only once nothing about the
        turn's inputs is left to refuse. */
    method RunTurn(seated: seq<Seat>) returns (served: Result<seq<Values>>)
      requires |seated| > 0
      requires forall s | s in seated :: |s.inputs| == |setup.batchIn|
      modifies this`state
      ensures (state, served) == TurnRun(setup, old(state), lanes.taken, seated)
    {
      var seating := lanes.Seat(LanesOf(seated));
      if seating.Err? {
        return Err(seating.error);
      }
      var batched: Values := [];
      for ix := 0 to |setup.batchIn|
        invariant |batched| == ix
        invariant forall k | 0 <= k < ix :: GatherOne(setup.batchIn, seated, k) == Ok(batched[k])
        invariant state == old(state)
      {
        var input := Gather(seated, ix);
        if input.Err? {
          GatherStopsAt(setup.batchIn, seated, 0, ix);
          return Err(input.error);
        }
        batched := batched + [input.value];
      }
      assert GatherFrom(setup.batchIn, seated, 0).value == batched;
      var (published, ok) := setup.interior.seat(state, seating.value);
      state := published;
      if !ok {
        return Err(SeatingRefused);
      }
      var (after, outputs) := setup.interior.run(state, batched);
      state := after;
      if outputs.None? {
        return Err(RunFailed);
      }
      return Scatter(outputs.value, setup.batchOut, |seated|);
    }

    method GiveBackAll(borrowed: seq<LaneId>)
      modifies lanes
      ensures lanes.taken == AllGivenBack(old(lanes.taken), borrowed)
    {
      var back := borrowed;
      while back != []
        invariant AllGivenBack(lanes.taken, back) == AllGivenBack(old(lanes.taken), borrowed)
        decreases |back|
      {
        var _ := lanes.GiveBack(back[0]);
        back := back[1..];
      }
    }

    /** Hands every seat of the turn to its call, in seat order. */
    method Land(seated: seq<Seat>, served: Result<seq<Values>>)
      requires served.Ok? ==> |served.value| == |seated|
      requires FitAll(queued.View(), seated)
      modifies queued
      ensures queued.View() == LandAll(old(queued.View()), seated, Verdicts(served, |seated|), setup.batchOut)
    {
      hide Landed;
      ghost var verdicts := Verdicts(served, |seated|);
      var i := 0;
      assert seated[0..] == seated && verdicts[0..] == verdicts;
      while i < |seated|
        invariant 0 <= i <= |seated| == |verdicts|
        invariant FitAll(queued.View(), seated[i..])
        invariant LandAll(queued.View(), seated[i..], verdicts[i..], setup.batchOut)
                  == LandAll(old(queued.View()), seated, verdicts, setup.batchOut)
      {
        var outcome := if served.Ok? then Ok(served.value[i]) else Err(TurnFailed(served.error));
        ghost var left := seated[i..];
        assert outcome == verdicts[i..][0];
        assert left[0] in left && forall s | s in left[1..] :: s in left;
        assert left[1..] == seated[i + 1..] && verdicts[i..][1..] == verdicts[i + 1..];
        queued.Serve(seated[i], outcome, setup.batchOut);
        i := i + 1;
      }
    }

    /** `fill`, `run_turn`, the borrowed lanes handed back, every seat landed. */
    method TakeTurn()
      requires Valid()
      modifies this, lanes, queued
      ensures View() == Turned(setup, old(View()))
      ensures Valid()
    {
      StepsKeepFed(setup, View(), Turn);
      FilledIsWellFed(setup, View());
      ghost var f := Filled(setup, View());
      var seated, borrowed := Fill();
      if seated == [] {
        return;
      }
      assert forall s | s in seated :: s in f.seated + f.waiting;
      var served := RunTurn(seated);
      GiveBackAll(borrowed);
      Land(seated, served);
    }

    /** `trace` led here from `start`. */
    ghost predicate LedHere(start: World<S>, trace: seq<Event>)
      reads this, lanes, queued
    {
      Valid() && Sane(setup, start) && View() == Played(setup, start, trace)
    }

    /** Serves the first `upTo` requests of `rest`, or every one when there are fewer. */
    method Hear(rest: seq<Request>, upTo: nat, ghost start: World<S>, ghost trace: seq<Event>)
      returns (left: seq<Request>, ghost longer: seq<Event>)
      requires LedHere(start, trace)
      modifies this, lanes, queued
      ensures LedHere(start, longer)
      ensures Heeded(longer) + left == Heeded(trace) + rest
      ensures |left| <= |rest|
      ensures old(queued.seats) <= queued.seats
      ensures |left| == |rest| ==> queued.seats == old(queued.seats)
      ensures upTo > 0 && rest != [] ==> |left| < |rest|
    {
      left, longer := rest, trace;
      var more := upTo;
      while more > 0 && left != []
        invariant |left| <= |rest| && more <= upTo && (more < upTo ==> |left| < |rest|)
        invariant LedHere(start, longer)
        invariant Heeded(longer) + left == Heeded(trace) + rest
        invariant old(queued.seats) <= queued.seats
        invariant |left| == |rest| ==> queued.seats == old(queued.seats)
        decreases more
      {
        HearingKeepsSeats(setup, View(), left[0]);
        assert (longer + [Heard(left[0])])[..|longer|] == longer;
        Serve(left[0]);
        longer := longer + [Heard(left[0])];
        left := left[1..];
        more := more - 1;
      }
    }

    /** Blocks on the channel until a request queues a seat, or it closes. */
    method AwaitSeat(rest: seq<Request>, ghost start: World<S>, ghost trace: seq<Event>)
      returns (left: seq<Request>, ghost longer: seq<Event>)
      requires LedHere(start, trace)
      modifies this, lanes, queued
      ensures LedHere(start, longer)
      ensures Heeded(longer) + left == Heeded(trace) + rest
      ensures |left| <= |rest|
      ensures |left| == |rest| ==> queued.seats == old(queued.seats)
      ensures queued.seats == [] ==> left == []
    {
      left, longer := rest, trace;
      while queued.seats == [] && left != []
        invariant LedHere(start, longer)
        invariant Heeded(longer) + left == Heeded(trace) + rest
        invariant |left| <= |rest|
        invariant |left| == |rest| ==> queued.seats == old(queued.seats)
        decreases |left|
      {
        left, longer := Hear(left, 1, start, longer);
      }
    }

    method Advance(ghost start: World<S>, ghost trace: seq<Event>) returns (ghost longer: seq<Event>)
      requires LedHere(start, trace) && setup.maxSeats >= 1
      modifies this, lanes, queued
      ensures LedHere(start, longer)
      ensures Heeded(longer) == Heeded(trace)
      ensures old(queued.seats) != [] ==> |queued.seats| < |old(queued.seats)|
    {
      TurnProgresses(setup, View());
      longer := trace + [Turn];
      assert longer[..|trace|] == trace;
      TakeTurn();
    }

    /** Serves the channel until it closes and nothing is left to seat. `inbox` is
        what it carries, in order; `arrivals[k]` is how much more of it has arrived
        by the time turn `k` is drained. */
    method Work(inbox: seq<Request>, arrivals: seq<nat>) returns (ghost trace: seq<Event>)
      requires Valid() && setup.maxSeats >= 1
      modifies this, lanes, queued
      ensures LedHere(old(View()), trace)
      ensures Heeded(trace) == inbox
      ensures queued.seats == []
    {
      ghost var start := View();
      trace := [];
      var rest := inbox;
      var turn := 0;
      while true
        invariant LedHere(start, trace)
        invariant Heeded(trace) + rest == inbox
        decreases |rest|, |queued.seats|
      {
        rest, trace := AwaitSeat(rest, start, trace);
        if queued.seats == [] {
          return;
        }
        rest, trace := Hear(rest, if turn < |arrivals| then arrivals[turn] else 0, start, trace);
        trace := Advance(start, trace);
        turn := turn + 1;
      }
    }
  }

  lemma HearingKeepsSeats<S>(setup: Setup<S>, w: World<S>, request: Request)
    ensures w.queue.seats <= Requested(setup, w, request).queue.seats
  {}

  lemma FreeIsLowest(taken: seq<bool>)
    requires forall l | 0 <= l < |taken| :: taken[l]
    ensures LowestFree(taken) == |taken|
  {}

  /** Gathering stops at the first input which can not be gathered. */
  lemma {:induction false} GatherStopsAt(batchIn: seq<bool>, seated: seq<Seat>, from: nat, ix: nat)
    requires |seated| > 0 && from <= ix < |batchIn|
    requires forall s | s in seated :: |s.inputs| == |batchIn|
    requires forall k | from <= k < ix :: GatherOne(batchIn, seated, k).Ok?
    requires GatherOne(batchIn, seated, ix).Err?
    ensures GatherFrom(batchIn, seated, from) == Err(GatherOne(batchIn, seated, ix).error)
    decreases ix - from
  {
    hide GatherOne;
    if from < ix {
      GatherStopsAt(batchIn, seated, from + 1, ix);
    }
  }

  /** The requests of a trace, in order. */
  function Heeded(trace: seq<Event>): seq<Request> {
    if trace == [] then []
    else Heeded(trace[..|trace| - 1])
         + (match trace[|trace| - 1] case Heard(request) => [request] case Turn => [])
  }

  /** Playing one event and then the rest is playing them all. */
  lemma {:induction false} PlayedFromFront<S>(setup: Setup<S>, start: World<S>, event: Event, rest: seq<Event>)
    requires Sane(setup, start)
    ensures Sane(setup, Stepped(setup, start, event))
    ensures Played(setup, start, [event] + rest) == Played(setup, Stepped(setup, start, event), rest)
    decreases |rest|
  {
    StepsKeepFed(setup, start, event);
    var all := [event] + rest;
    if rest == [] {
      assert all[..0] == [] && all[0] == event;
      assert Played(setup, start, all[..0]) == start;
    } else {
      PlayedFromFront(setup, start, event, rest[..|rest| - 1]);
      assert all[..|all| - 1] == [event] + rest[..|rest| - 1];
    }
  }

  /** The streams' run and the worker's steps are one and the same. */
  lemma {:induction false} RanIsPlayed<S>(setup: Setup<S>, sys: System<S>, trace: seq<Event>)
    requires Settled(setup, sys) && AllowedRun(setup, sys, trace)
    ensures Sane(setup, sys.world)
    ensures Ran(setup, sys, trace).world == Played(setup, sys.world, trace)
    decreases |trace|
  {
    SettledIsWellFed(setup, sys);
    if trace != [] {
      StepKeepsSettled(setup, sys, trace[0]);
      RanIsPlayed(setup, Next(setup, sys, trace[0]), trace[1..]);
      PlayedFromFront(setup, sys.world, trace[0], trace[1..]);
      assert trace == [trace[0]] + trace[1..];
    }
  }

  /** What `Work` leaves behind when it returns, having served a fresh worker's
      streams: every call it ever received, answered exactly once. */
  lemma WorkAnswersEveryone<S>(setup: Setup<S>, state: S, maxLanes: nat, trace: seq<Event>)
    requires AllowedRun(setup, Fresh(state, maxLanes), trace)
    requires Sane(setup, Fresh(state, maxLanes).world)
    requires Played(setup, Fresh(state, maxLanes).world, trace).queue.seats == []
    ensures var q := Played(setup, Fresh(state, maxLanes).world, trace).queue;
            && q.completers == map[]
            && forall id: nat | id < q.calls :: AnswerCount(q.outbox, id) == 1
  {
    FreshIsSettled(setup, state, maxLanes);
    RanIsPlayed(setup, Fresh(state, maxLanes), trace);
    RunsStaySettled(setup, Fresh(state, maxLanes), trace);
    var sys := Ran(setup, Fresh(state, maxLanes), trace);
    forall id | id in sys.world.queue.completers
      ensures false
    {
      assert IsWaiting(setup, sys, id);
      SettledCallsWaitOrAreAnswered(setup, sys, id);
    }
  }
}
