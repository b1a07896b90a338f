/** What one failed turn does to the turns after it: the batch symbol stays bound to the
    width it had. */
module LeftWidths {
  import opened Outcomes
  import opened LaneTables
  import opened Calls
  import opened Queues
  import opened Turns
  import opened Streams
  import opened LaneModels
  import opened LanedGraphs
  import opened StackServices

  // ---- One turn ----

  /** Over a width left bound a turn of any other is refused, whatever its seats feed, and
      the width stays. */
  lemma OtherWidthFails(m: Model, maxSeats: nat, n: nat, taken: seq<bool>, seated: seq<Seat>)
    requires true in InFlags(m) && |seated| > 0 && |seated| != n
    requires forall s | s in seated :: |s.inputs| == |InFlags(m)|
    ensures var (after, served) := TurnRun(SetupOf(m, maxSeats), Some(n), taken, seated);
            after == Some(n) && served.Err?
  {
    hide GraphRun, GatherOne, GatherFrom;
    if GatherFrom(InFlags(m), seated, 0).Ok? {
      GatherKeepsSeats(InFlags(m), seated);
      GraphRunAsked(m, Some(n), GatherFrom(InFlags(m), seated, 0).value, |seated|);
    }
  }

  /** From any width left bound a turn leaves that width, and has failed, or none, and was of
      that width itself. */
  lemma WidthStaysOrGoes(m: Model, maxSeats: nat, n: nat, taken: seq<bool>, seated: seq<Seat>)
    requires true in InFlags(m) && |seated| > 0
    requires forall s | s in seated :: |s.inputs| == |InFlags(m)|
    ensures var (after, served) := TurnRun(SetupOf(m, maxSeats), Some(n), taken, seated);
            (after == Some(n) && served.Err?) || (after == None && |seated| == n)
  {
    hide RunTurn, SetWidths, GatherOne, GatherFrom, Scatter;
    if |seated| != n {
      OtherWidthFails(m, maxSeats, n, taken, seated);
    } else if GatherFrom(InFlags(m), seated, 0).Ok? {
      var xs := GatherFrom(InFlags(m), seated, 0).value;
      if |xs| == |m.ins| {
        WidthsKeep(m, n, xs, |xs|);
      }
    }
  }

  /** A turn of seats that fit and agree, on which the graph fails, leaves its width bound:
      and the turn after it, of seats that fit and agree and the original runs on, is
      refused if it has another, where it would have gone through. */
  lemma FailedTurnBlocks(m: Model, maxSeats: nat, taken: seq<bool>, seated: seq<Seat>, taken': seq<bool>, after: seq<Seat>)
    requires Batchable(m) && true in InFlags(m)
    requires |seated| > 0 && AllFit(m, seated) && Agree(m, seated) && SeatLanes(taken, LanesOf(seated)).Ok?
    requires forall s | s in seated :: |s.inputs| == |InFlags(m)|
    requires GatherFrom(InFlags(m), seated, 0).Ok? ==> RunTurn(m, |seated|, GatherFrom(InFlags(m), seated, 0).value) == None
    requires |after| > 0 && AllFit(m, after) && Agree(m, after) && AllRun(m, after) && SeatLanes(taken', LanesOf(after)).Ok?
    requires |after| != |seated|
    ensures forall s | s in after :: |s.inputs| == |InFlags(m)|
    ensures TurnRun(SetupOf(m, maxSeats), None, taken, seated) == (Some(|seated|), Err(RunFailed))
    ensures TurnRun(SetupOf(m, maxSeats), Some(|seated|), taken', after).1.Err?
    ensures TurnRun(SetupOf(m, maxSeats), None, taken', after).1.Ok?
  {
    hide Batchable, GraphRun, GatherOne, GatherFrom, AllRun, AllFit, Agree, RunTurn, Fit;
    AllGather(m, seated);
    var xs := GatherFrom(InFlags(m), seated, 0).value;
    FitAsks(m, xs, |seated|);
    GraphRunAsked(m, None, xs, |seated|);
    FittingTurnRuns(m, maxSeats, Some(|seated|), taken', after);
    FittingTurnRuns(m, maxSeats, None, taken', after);
  }

  // ---- Every run ----

  /** The next turn has `n` seats, and the graph answers it. */
  ghost predicate Frees(m: Model, maxSeats: nat, sys: System<Width>, n: nat)
    requires WellFed(SetupOf(m, maxSeats), sys.world)
  {
    FilledIsWellFed(SetupOf(m, maxSeats), sys.world);
    var f := Filled(SetupOf(m, maxSeats), sys.world);
    n > 0 && |f.seated| == n && TurnRun(SetupOf(m, maxSeats), f.state, f.taken, f.seated).0 == None
  }

  /** No turn of `n` seats is ever answered. */
  ghost predicate NeverFrees(m: Model, maxSeats: nat, sys: System<Width>, events: seq<Event>, n: nat)
    requires AllowedRun(SetupOf(m, maxSeats), sys, events)
    decreases |events|
  {
    events == []
    || ((events[0].Turn? ==> !Frees(m, maxSeats, sys, n))
        && NeverFrees(m, maxSeats, Next(SetupOf(m, maxSeats), sys, events[0]), events[1..], n))
  }

  /** Every answer there was not before is a failure. */
  predicate OnlyFailures(before: seq<Answer>, outbox: seq<Answer>) {
    forall a | a in outbox :: a in before || a.result.Err?
  }

  lemma {:induction false} LandingFails(q: QueueView, seats: seq<Seat>, verdicts: seq<Result<Values>>, batchOut: seq<bool>)
    requires |seats| == |verdicts| && FitAll(q, seats) && forall v | v in verdicts :: v.Err?
    ensures OnlyFailures(q.outbox, LandAll(q, seats, verdicts, batchOut).outbox)
    decreases |seats|
  {
    if seats != [] {
      assert verdicts[0] in verdicts && forall v | v in verdicts[1..] :: v in verdicts;
      assert forall s | s in seats[1..] :: s in seats && Fits(q, s);
      LandingFails(Landed(q, seats[0], verdicts[0], batchOut), seats[1..], verdicts[1..], batchOut);
    }
  }

  lemma StuckTurn(m: Model, maxSeats: nat, n: nat, sys: System<Width>)
    requires true in InFlags(m) && WellFed(SetupOf(m, maxSeats), sys.world) && sys.world.state == Some(n)
    requires !Frees(m, maxSeats, sys, n)
    ensures var after := Turned(SetupOf(m, maxSeats), sys.world);
            after.state == Some(n) && OnlyFailures(sys.world.queue.outbox, after.queue.outbox)
  {
    hide FillAll, TurnRun, LandAll, WellFed;
    var setup := SetupOf(m, maxSeats);
    var f := Filled(setup, sys.world);
    FilledIsWellFed(setup, sys.world);
    FillKeepsWidth(m, maxSeats, Filling(sys.world.state, sys.world.taken, [], [], []), sys.world.queue.seats);
    if f.seated != [] {
      WidthStaysOrGoes(m, maxSeats, n, f.taken, f.seated);
      var served := TurnRun(setup, f.state, f.taken, f.seated).1;
      LandingFails(sys.world.queue.(seats := f.waiting), f.seated, Verdicts(served, |f.seated|), setup.batchOut);
    }
  }

  /** Once a turn of `n` seats has failed in the graph, every turn of any other width fails,
      and every call it is about, whichever stream made it: until some turn of exactly `n`
      seats is answered. */
  lemma {:induction false} StuckUntilAnswered(m: Model, maxSeats: nat, n: nat, sys: System<Width>, events: seq<Event>)
    requires true in InFlags(m) && sys.world.state == Some(n)
    requires AllowedRun(SetupOf(m, maxSeats), sys, events) && NeverFrees(m, maxSeats, sys, events, n)
    ensures var last := Ran(SetupOf(m, maxSeats), sys, events).world;
            last.state == Some(n) && OnlyFailures(sys.world.queue.outbox, last.queue.outbox)
    decreases |events|
  {
    hide Turned, WellFed, Explode, Frees;
    if events != [] {
      if events[0].Turn? {
        StuckTurn(m, maxSeats, n, sys);
      }
      StuckUntilAnswered(m, maxSeats, n, Next(SetupOf(m, maxSeats), sys, events[0]), events[1..]);
    }
  }
}
