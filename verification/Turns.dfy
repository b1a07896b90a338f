/** One turn of the worker, on values: filling it from the head of the queue,
    running the state once, slicing the outputs back and landing every seat.

    The interior is whatever state the model prepared: an arbitrary `S` with three
    operations, each of which may fail and leave behind a state of its own. */
module Turns {
  import opened Outcomes
  import opened Tensors
  import opened LaneTables
  import opened Calls
  import opened Queues

  datatype Interior<!S> = Interior(
    /** `State::reset_lanes` of one lane, and whether it went through. */
    reset: (S, LaneId) -> (S, bool),
    /** `State::seat`, publishing the coming turn's seating. */
    seat: (S, Seating) -> (S, bool),
    /** `State::run` of one turn. */
    run: (S, Values) -> (S, Option<Values>))

  datatype Setup<!S> = Setup(
    interior: Interior<S>,
    batchIn: seq<bool>,
    batchOut: seq<bool>,
    maxSeats: nat)

  datatype World<S> = World(
    state: S,
    taken: seq<bool>,
    queue: QueueView,
    /** What every spawn so far was answered. */
    granted: seq<Result<LaneId>>)

  datatype Request = Spawn | Ask(call: Call) | Drop(lane: LaneId)

  // ---- Filling a turn ----

  datatype Filling<S> = Filling(
    state: S,
    taken: seq<bool>,
    seated: seq<Seat>,
    borrowed: seq<LaneId>,
    waiting: seq<Seat>)

  function LanesOf(seats: seq<Seat>): (r: seq<LaneId>)
    ensures |r| == |seats|
  {
    seq(|seats|, i requires 0 <= i < |seats| => seats[i].lane)
  }

  /** Where the next seat off the queue goes: its own lane when that lane is not
      seated yet, a freshly reset free lane when it is, or back to waiting. */
  function FillStep<S>(setup: Setup<S>, f: Filling<S>, seat: Seat): Filling<S> {
    if |f.seated| >= setup.maxSeats then
      f.(waiting := f.waiting + [seat])
    else if seat.lane !in LanesOf(f.seated) then
      f.(seated := f.seated + [seat])
    else
      var lane := LowestFree(f.taken);
      if lane == |f.taken| then
        f.(waiting := f.waiting + [seat])
      else
        var (state, ok) := setup.interior.reset(f.state, lane);
        if ok then
          f.(state := state, taken := f.taken[lane := true],
             seated := f.seated + [seat.(lane := lane)], borrowed := f.borrowed + [lane])
        else
          f.(state := state, waiting := f.waiting + [seat])
  }

  function FillAll<S>(setup: Setup<S>, f: Filling<S>, seats: seq<Seat>): Filling<S>
    decreases |seats|
  {
    if seats == [] then f else FillAll(setup, FillStep(setup, f, seats[0]), seats[1..])
  }

  function Filled<S>(setup: Setup<S>, w: World<S>): Filling<S> {
    FillAll(setup, Filling(w.state, w.taken, [], [], []), w.queue.seats)
  }

  // ---- Running it ----

  function InputColumn(seated: seq<Seat>, ix: nat): (r: seq<Tensor>)
    requires forall s | s in seated :: ix < |s.inputs|
    ensures |r| == |seated|
  {
    seq(|seated|, i requires 0 <= i < |seated| => assert seated[i] in seated; seated[i].inputs[ix])
  }

  /** Input `ix` of the turn: stacked in seat order where batched, otherwise the
      one value every seat must feed. */
  function GatherOne(batchIn: seq<bool>, seated: seq<Seat>, ix: nat): Result<Tensor>
    requires |seated| > 0 && ix < |batchIn|
    requires forall s | s in seated :: |s.inputs| == |batchIn|
  {
    var column := InputColumn(seated, ix);
    if batchIn[ix] then
      if exists t | t in column :: t.Scalar? || |t.rows| != 1 then Err(NotOneSeat(ix))
      else match StackRows(column)
        case Some(t) => Ok(t)
        case None => Err(StackFailed(ix))
    else if exists t | t in column :: t != column[0] then Err(SharedInputsDiffer(ix))
    else Ok(column[0])
  }

  function GatherFrom(batchIn: seq<bool>, seated: seq<Seat>, ix: nat): (r: Result<Values>)
    requires |seated| > 0 && ix <= |batchIn|
    requires forall s | s in seated :: |s.inputs| == |batchIn|
    ensures r.Ok? ==> |r.value| == |batchIn| - ix
                      && forall k | ix <= k < |batchIn| :: GatherOne(batchIn, seated, k) == Ok(r.value[k - ix])
    ensures r.Err? ==> exists k | ix <= k < |batchIn| ::
                         GatherOne(batchIn, seated, k) == Err(r.error) && forall j | ix <= j < k :: GatherOne(batchIn, seated, j).Ok?
    decreases |batchIn| - ix
  {
    if ix == |batchIn| then Ok([])
    else match GatherOne(batchIn, seated, ix)
      case Err(e) => Err(e)
      case Ok(t) =>
        match GatherFrom(batchIn, seated, ix + 1)
        case Err(e) => Err(e)
        case Ok(rest) => Ok([t] + rest)
  }

  /** One seat's slice of the turn's outputs: batched ones one row, shared whole. */
  function SeatOutputs(outputs: Values, batchOut: seq<bool>, n: nat, seat: nat): (r: Values)
    requires Occupies(outputs, batchOut, n) && seat < n
    ensures |r| == |outputs|
  {
    seq(|outputs|, ix requires 0 <= ix < |outputs| =>
      if Batched(batchOut, ix) then SliceRows(outputs[ix], seat, seat + 1) else outputs[ix])
  }

  /** Every batched output carries one row per seat. */
  predicate Occupies(outputs: Values, batchOut: seq<bool>, n: nat) {
    forall ix | 0 <= ix < |outputs| && Batched(batchOut, ix) :: outputs[ix].Rows? && |outputs[ix].rows| == n
  }

  function FirstMisfitOutput(outputs: Values, batchOut: seq<bool>, n: nat, ix: nat): (r: nat)
    requires ix <= |outputs|
    requires exists k :: ix <= k < |outputs| && Batched(batchOut, k) && !(outputs[k].Rows? && |outputs[k].rows| == n)
    ensures ix <= r < |outputs| && Batched(batchOut, r) && !(outputs[r].Rows? && |outputs[r].rows| == n)
    ensures forall k | ix <= k < r && Batched(batchOut, k) :: outputs[k].Rows? && |outputs[k].rows| == n
    decreases |outputs| - ix
  {
    if Batched(batchOut, ix) && !(outputs[ix].Rows? && |outputs[ix].rows| == n) then ix
    else FirstMisfitOutput(outputs, batchOut, n, ix + 1)
  }

  function Scatter(outputs: Values, batchOut: seq<bool>, n: nat): (r: Result<seq<Values>>)
    ensures r.Ok? ==> |r.value| == n
  {
    if !Occupies(outputs, batchOut, n) then Err(WrongOccupancy(FirstMisfitOutput(outputs, batchOut, n, 0)))
    else Ok(seq(n, seat requires 0 <= seat < n => SeatOutputs(outputs, batchOut, n, seat)))
  }

  /** `Worker::run_turn`: everything it refuses before running leaves the state
      as it was. */
  function TurnRun<S>(setup: Setup<S>, state: S, taken: seq<bool>, seated: seq<Seat>): (r: (S, Result<seq<Values>>))
    requires |seated| > 0
    requires forall s | s in seated :: |s.inputs| == |setup.batchIn|
    ensures r.1.Ok? ==> |r.1.value| == |seated|
  {
    match SeatLanes(taken, LanesOf(seated))
    case Err(e) => (state, Err(e))
    case Ok(seating) =>
      match GatherFrom(setup.batchIn, seated, 0)
      case Err(e) => (state, Err(e))
      case Ok(batched) =>
        var (published, ok) := setup.interior.seat(state, seating);
        if !ok then (published, Err(SeatingRefused))
        else
          var (after, outputs) := setup.interior.run(published, batched);
          match outputs
          case None => (after, Err(RunFailed))
          case Some(values) => (after, Scatter(values, setup.batchOut, |seated|))
  }

  /** What every seat of a turn is served. A failed turn fails every seat of it. */
  function Verdicts(served: Result<seq<Values>>, n: nat): (r: seq<Result<Values>>)
    requires served.Ok? ==> |served.value| == n
    ensures |r| == n
  {
    match served
    case Ok(perSeat) => seq(n, i requires 0 <= i < n => Ok(perSeat[i]))
    case Err(e) => seq(n, _ => Err(TurnFailed(e)))
  }

  predicate FitAll(q: QueueView, seats: seq<Seat>) {
    forall s | s in seats :: Fits(q, s)
  }

  function LandAll(q: QueueView, seats: seq<Seat>, verdicts: seq<Result<Values>>, batchOut: seq<bool>): QueueView
    requires |seats| == |verdicts|
    requires FitAll(q, seats)
    decreases |seats|
  {
    if seats == [] then q
    else
      assert forall s | s in seats[1..] :: Fits(q, s);
      LandAll(Landed(q, seats[0], verdicts[0], batchOut), seats[1..], verdicts[1..], batchOut)
  }

  // ---- The worker's steps ----

  /** Every queued seat feeds every input, and has a slot in its call. */
  predicate WellFed<S>(setup: Setup<S>, w: World<S>) {
    && FitAll(w.queue, w.queue.seats)
    && forall s | s in w.queue.seats :: |s.inputs| == |setup.batchIn|
  }

  lemma FillStepKeeps<S>(setup: Setup<S>, f: Filling<S>, seat: Seat)
    ensures var g := FillStep(setup, f, seat);
            && (forall s | s in g.waiting :: s in f.waiting || s == seat)
            && (forall s | s in g.seated :: s in f.seated || s == seat.(lane := s.lane))
  {}

  /** Seats only ever come off the queue as they were, but for a borrowed lane. */
  lemma {:induction false} FillingKeeps<S>(setup: Setup<S>, f: Filling<S>, seats: seq<Seat>)
    ensures var r := FillAll(setup, f, seats);
            && (forall s | s in r.waiting :: s in f.waiting || s in seats)
            && (forall s | s in r.seated :: s in f.seated || exists t :: t in seats && s == t.(lane := s.lane))
    decreases |seats|
  {
    hide FillStep;
    if seats != [] {
      var g := FillStep(setup, f, seats[0]);
      FillStepKeeps(setup, f, seats[0]);
      FillingKeeps(setup, g, seats[1..]);
      assert seats[0] in seats && forall t | t in seats[1..] :: t in seats;
      var r := FillAll(setup, f, seats);
      forall s | s in r.seated
        ensures s in f.seated || exists t :: t in seats && s == t.(lane := s.lane)
      {
        if s !in g.seated {
          var t :| t in seats[1..] && s == t.(lane := s.lane);
          assert t in seats;
        }
      }
    }
  }

  lemma FilledIsWellFed<S>(setup: Setup<S>, w: World<S>)
    requires WellFed(setup, w)
    ensures var f := Filled(setup, w);
            && (forall s | s in f.seated + f.waiting :: |s.inputs| == |setup.batchIn|)
            && FitAll(w.queue.(seats := f.waiting), f.seated)
            && FitAll(w.queue, f.waiting)
  {
    FillingKeeps(setup, Filling(w.state, w.taken, [], [], []), w.queue.seats);
  }

  /** `Worker::work` from `fill` to the last seat landed. */
  function Turned<S>(setup: Setup<S>, w: World<S>): World<S>
    requires WellFed(setup, w)
  {
    FilledIsWellFed(setup, w);
    var f := Filled(setup, w);
    var waiting := w.queue.(seats := f.waiting);
    if f.seated == [] then
      w.(state := f.state, taken := f.taken, queue := waiting)
    else
      var (state, served) := TurnRun(setup, f.state, f.taken, f.seated);
      w.(state := state,
         taken := AllGivenBack(f.taken, f.borrowed),
         queue := LandAll(waiting, f.seated, Verdicts(served, |f.seated|), setup.batchOut))
  }

  /** `Worker::serve`: hand out a lane or take it back there and then, queue a call. */
  function Requested<S>(setup: Setup<S>, w: World<S>, request: Request): World<S> {
    match request
    case Spawn =>
      var lane := LowestFree(w.taken);
      if lane == |w.taken| then w.(granted := w.granted + [Err(EveryLaneTaken)])
      else
        var (state, ok) := setup.interior.reset(w.state, lane);
        if ok then w.(state := state, taken := w.taken[lane := true], granted := w.granted + [Ok(lane)])
        else w.(state := state, granted := w.granted + [Err(ResetFailed)])
    case Ask(call) => w.(queue := Pushed(w.queue, call, setup.batchIn))
    case Drop(lane) => w.(taken := GivenBack(w.taken, lane))
  }

  datatype Event = Heard(request: Request) | Turn

  function Stepped<S>(setup: Setup<S>, w: World<S>, event: Event): World<S>
    requires WellFed(setup, w)
  {
    match event
    case Heard(request) => Requested(setup, w, request)
    case Turn => Turned(setup, w)
  }

  lemma {:induction false} LandingKeepsSlots(q: QueueView, seats: seq<Seat>, verdicts: seq<Result<Values>>, batchOut: seq<bool>)
    requires |seats| == |verdicts| && FitAll(q, seats)
    ensures var r := LandAll(q, seats, verdicts, batchOut);
            && r.calls == q.calls
            && (forall s | s in r.seats :: s in q.seats)
            && (forall c | c in r.completers ::
                  c in q.completers && |r.completers[c].served| == |q.completers[c].served|)
    decreases |seats|
  {
    if seats != [] {
      assert forall s | s in seats[1..] :: Fits(q, s);
      LandingKeepsSlots(Landed(q, seats[0], verdicts[0], batchOut), seats[1..], verdicts[1..], batchOut);
    }
  }

  /** Every queued seat is fed, and ids are handed out in order: a new call never
      takes over an old one's slots. */
  predicate Sane<S>(setup: Setup<S>, w: World<S>) {
    && WellFed(setup, w)
    && forall s | s in w.queue.seats :: s.call < w.queue.calls
  }

  /** No step leaves a queued seat without its inputs or its slot. */
  lemma StepsKeepFed<S>(setup: Setup<S>, w: World<S>, event: Event)
    requires Sane(setup, w)
    ensures Sane(setup, Stepped(setup, w, event))
  {
    match event {
      case Heard(Ask(call)) =>
        if Explode(call.inputs, setup.batchIn).Ok? {
          ExplodedSeats(call.inputs, setup.batchIn);
          var inputs := Explode(call.inputs, setup.batchIn).value;
          assert forall i | 0 <= i < |inputs| :: inputs[i] in inputs;
        }
      case Heard(_) =>
      case Turn =>
        FilledIsWellFed(setup, w);
        FillingKeeps(setup, Filling(w.state, w.taken, [], [], []), w.queue.seats);
        var f := Filled(setup, w);
        if f.seated != [] {
          var (_, served) := TurnRun(setup, f.state, f.taken, f.seated);
          LandingKeepsSlots(w.queue.(seats := f.waiting), f.seated, Verdicts(served, |f.seated|), setup.batchOut);
        }
    }
  }

  /** The world a trace of steps leads to. */
  ghost function Played<S>(setup: Setup<S>, start: World<S>, trace: seq<Event>): (w: World<S>)
    requires Sane(setup, start)
    ensures Sane(setup, w)
  {
    if trace == [] then start
    else
      var before := Played(setup, start, trace[..|trace| - 1]);
      StepsKeepFed(setup, before, trace[|trace| - 1]);
      Stepped(setup, before, trace[|trace| - 1])
  }
}
