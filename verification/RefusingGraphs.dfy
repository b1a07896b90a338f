/** A graph with an op that refuses a value: one stream's bad call stops another's good
    ones. */
module RefusingGraphs {
  import opened Outcomes
  import opened Tensors
  import opened Indexing
  import opened Columns
  import opened Outlets
  import opened AxisOps
  import opened Graphs
  import opened Batchify
  import opened BatchRuns
  import opened LanedGraphs
  import opened LaneTables
  import opened Calls
  import opened Turns
  import opened LaneModels
  import opened LeftWidths

  predicate NonZero(t: Tensor) {
    match t
    case Scalar(v) => v != 0
    case Rows(_, rows) => forall r | r in rows :: NonZero(r)
  }

  /** The identity, refusing a tensor with a zero in it; it carries a leading axis through. */
  const REFUSING: Library := Library(EvalRefusing, AnswersAdd)

  function EvalRefusing(name: nat, xs: seq<Tensor>): Option<seq<Tensor>> {
    if |xs| == 1 && NonZero(xs[0]) then Some(xs) else None
  }

  function AnswersAdd(name: nat, io: InOut, change: AxisOp): Option<Consequence> {
    if io == In(0) && change == Add(0) then Some(Consequence(None, [(In(0), Add(0)), (Out(0), Add(0))])) else None
  }

  const ORIGINAL: Graph := [Source([]), Wired(Other(0), [Outlet(0, 0)], 1)]

  const BATCHED: Target := Target(
    [Source([Sized]), Wired(Other(0), [Outlet(0, 0)], 1)],
    [[Outlet(0, 0)], [Outlet(1, 0)]],
    map[0 := 0])

  const HOSTED: Hosted := Hosted(None, [], false)

  const MODEL: Model := Model(REFUSING, ORIGINAL, {}, [0], [Outlet(1, 0)], [[]], Plan({0, 1}, map[1 := HOSTED]), BATCHED)

  // ---- It can be batchified ----

  lemma RefusingIsRegular()
    ensures Regular(REFUSING)
  {
    forall name: nat, xs | (forall x | x in xs :: Sound(x)) && REFUSING.eval(name, xs).Some?
      ensures AllSound(REFUSING.eval(name, xs).value)
    {}
  }

  lemma HostedSo(flags: seq<bool>)
    requires true in flags && Host(REFUSING, Other(0), 1, flags).Some?
    ensures flags[0] && Host(REFUSING, Other(0), 1, flags) == Some(HOSTED)
  {
    var changes := [(In(0), Add(0)), (Out(0), Add(0))];
    assert FirstOf(flags) == 0;
    assert changes[1..] == [(Out(0), Add(0))] && changes[1..][1..] == [];
    assert Pads(changes[1..], flags) == [];
  }

  lemma StackIsNonZero(ts: seq<Tensor>)
    requires Alike(ts) && forall i | 0 <= i < |ts| :: NonZero(ts[i])
    ensures NonZero(Stack(ts))
  {
    forall r | r in Stack(ts).rows
      ensures NonZero(r)
    {
      var i :| 0 <= i < |ts| && ts[i] == r;
    }
  }

  lemma RefusingIsTruthful()
    ensures Truthful(REFUSING, 0, 1)
  {
    hide Lifted;
    forall flags, seats, outs, hosted |
      Host(REFUSING, Other(0), 1, flags) == Some(hosted) && Answered(REFUSING, Other(0), 1, flags, seats, outs)
      ensures Lifted(REFUSING, Other(0), 1, hosted, flags, seats, outs)
    {
      RefusingLifts(flags, seats, outs, hosted);
    }
  }

  lemma RefusingLifts(flags: seq<bool>, seats: seq<seq<Tensor>>, outs: seq<seq<Tensor>>, hosted: Hosted)
    requires Host(REFUSING, Other(0), 1, flags) == Some(hosted) && Answered(REFUSING, Other(0), 1, flags, seats, outs)
    ensures Lifted(REFUSING, Other(0), 1, hosted, flags, seats, outs)
  {
    hide NonZero, Alike, Stack, Lifted;
    HostedSo(flags);
    var column := Column(seats, 0);
    assert seats[0] in seats && Eval(REFUSING, |seats|, Other(0), seats[0]) == Some(outs[0]);
    assert flags == [true];
    forall i | 0 <= i < |seats|
      ensures NonZero(column[i]) && outs[i] == [column[i]]
    {
      assert Eval(REFUSING, |seats|, Other(0), seats[i]) == Some(outs[i]);
    }
    assert Alike(column);
    StackIsNonZero(column);
    OneOutput(outs, column);
    var ys := Gathered(seats, flags);
    assert ys == [Stack(column)];
    LiftedBy(REFUSING, Other(0), 1, hosted, flags, seats, outs, ys);
  }

  lemma PlannedSo()
    ensures PlanOf(REFUSING, ORIGINAL, {}, false, 2) == Some(MODEL.plan)
  {
    assert PlanOf(REFUSING, ORIGINAL, {}, false, 0) == Some(Plan({}, map[]));
    assert GainsAxis(ORIGINAL[0], 0, {}, false) && {} + {0} == {0};
    assert PlanOf(REFUSING, ORIGINAL, {}, false, 1) == Some(Plan({0}, map[]));
    var flags := Flags([Outlet(0, 0)], {0});
    assert flags == [true];
    var changes := [(In(0), Add(0)), (Out(0), Add(0))];
    assert ChangeAxes(REFUSING, Other(0), 1, 1, 0) == Some(Consequence(None, changes));
    assert CarriesThrough(Consequence(None, changes), 1) by {
      assert changes[1] == (Out(0), Add(0));
    }
    HostedSo(flags);
    assert {0} + {1} == {0, 1};
    assert PlanNode(REFUSING, ORIGINAL, {}, false, Plan({0}, map[]), 1) == Some(Plan({0, 1}, map[1 := HOSTED]));
  }

  /** The source wired. */
  const HALF: Target := Target([Source([Sized])], [[Outlet(0, 0)]], map[0 := 0])

  lemma GraphIsOrdered()
    ensures Ordered(ORIGINAL) && Fitting(ORIGINAL, MODEL.plan.hosts)
  {}

  lemma SourceWired(hosts: map<nat, Hosted>)
    requires Ordered(ORIGINAL) && Fitting(ORIGINAL, hosts)
    ensures WireOf(ORIGINAL, {}, false, hosts, 1) == HALF
  {
    hide Ordered, Fitting;
    var t := Target([], [], map[]);
    assert WireOf(ORIGINAL, {}, false, hosts, 0) == t;
    assert SourceNodes([], true, false, 0) == ([Source([Sized])], Outlet(0, 0)) by {
      assert [Sized] + [] == [Sized];
    }
    assert t.nodes + [Source([Sized])] == HALF.nodes && t.mapping + [[Outlet(0, 0)]] == HALF.mapping;
    assert t.interface[0 := 0] == HALF.interface;
  }

  lemma OpWired(hosts: map<nat, Hosted>)
    requires Ordered(ORIGINAL) && Fitting(ORIGINAL, hosts) && 1 in hosts && hosts[1] == HOSTED
    ensures |HALF.mapping| == 1 && |HALF.mapping[0]| == OutputsOf(ORIGINAL[0])
    ensures WireNode(ORIGINAL, {}, false, hosts, HALF, 1) == BATCHED
  {
    hide Ordered, Fitting;
    assert Mapped(HALF.mapping, [Outlet(0, 0)]) == [Outlet(0, 0)];
    assert PadSlots(HALF.nodes, [Outlet(0, 0)], [], false) == (HALF.nodes, [Outlet(0, 0)]);
    assert HALF.nodes + [Wired(Other(0), [Outlet(0, 0)], 1)] == BATCHED.nodes;
    assert AllOutlets(1, 1) == [Outlet(1, 0)] && HALF.mapping + [[Outlet(1, 0)]] == BATCHED.mapping;
  }

  lemma WiredSo()
    ensures Ordered(ORIGINAL) && Fitting(ORIGINAL, MODEL.plan.hosts)
    ensures WireOf(ORIGINAL, {}, false, MODEL.plan.hosts, 2) == BATCHED
  {
    hide WireNode, Ordered, Fitting;
    GraphIsOrdered();
    SourceWired(MODEL.plan.hosts);
    OpWired(MODEL.plan.hosts);
  }

  lemma ModelIsBatchable()
    ensures Batchable(MODEL) && InFlags(MODEL) == [true]
  {
    hide Truthful, Regular, PlanOf, WireOf;
    RefusingIsRegular();
    RefusingIsTruthful();
    PlannedSo();
    WiredSo();
    assert !Joins(ORIGINAL, {});
    assert Batchify.Batched(REFUSING, ORIGINAL, {}) == Some((MODEL.plan, MODEL.target));
    assert 0 in [0];
  }

  // ---- Its turns ----

  lemma RunsSo(n: nat, g: Graph, given: map<nat, Tensor>, x: Tensor)
    requires |g| == 2 && g[0].Source? && g[1] == Wired(Other(0), [Outlet(0, 0)], 1)
    requires 0 in given && given[0] == x
    ensures Run(REFUSING, n, g, given, 2) == if NonZero(x) then Some([[x]] + [[x]]) else None
  {
    hide NonZero;
    assert Run(REFUSING, n, g, given, 0) == Some([]);
    assert Computed(REFUSING, n, g, given, []) == Some([x]) && [] + [[x]] == [[x]];
    assert Run(REFUSING, n, g, given, 1) == Some([[x]]);
    assert Read([[x]], Outlet(0, 0)) == Some(x);
    ReadsPointwise([[x]], [Outlet(0, 0)], [x]);
    assert Computed(REFUSING, n, g, given, [[x]]) == if NonZero(x) then Some([x]) else None;
  }

  lemma OriginalRuns(y: int)
    ensures RunOriginal(MODEL, 1, [Scalar(y)]).Some? <==> y != 0
  {
    hide Run;
    RunsSo(1, ORIGINAL, Feed([0], [Scalar(y)], 1), Scalar(y));
  }

  lemma BatchifiedRefuses(n: nat, x: Tensor)
    requires !NonZero(x)
    ensures RunTurn(MODEL, n, [x]) == None
  {
    hide Run, NonZero;
    var ids := Interfaces(MODEL);
    assert ids == [0];
    RunsSo(n, BATCHED.nodes, Feed(ids, [x], 1), x);
  }

  function One(call: nat, lane: nat, y: int): Seat {
    Seat(call, lane, 0, [Rows([], [Scalar(y)])])
  }

  lemma OneFits(call: nat, lane: nat, y: int)
    ensures Fit(MODEL, One(call, lane, y).inputs, true, 1)
    ensures SeatOf(MODEL, One(call, lane, y).inputs, 0) == [Scalar(y)]
  {}

  /** A turn seats a zero beside another stream's value, and fails. The other stream then
      asks again, alone, with a value the original runs on, and is refused, where it would
      have been answered: only a turn of two seats can still go through. */
  lemma OneStreamStopsAnother(maxSeats: nat, y: int)
    requires y != 0
    ensures Batchable(MODEL) && InFlags(MODEL) == [true]
    ensures var setup, held := SetupOf(MODEL, maxSeats), [true, true];
            && TurnRun(setup, None, held, [One(0, 0, 0), One(1, 1, y)]) == (Some(2), Err(RunFailed))
            && TurnRun(setup, Some(2), held, [One(2, 1, y)]).1.Err?
            && TurnRun(setup, None, held, [One(2, 1, y)]).1.Ok?
  {
    hide Batchable, GatherFrom, RunTurn, TurnRun, NonZero, SeatLanes, Fit, SeatOf;
    ModelIsBatchable();
    var held, first, second := [true, true], [One(0, 0, 0), One(1, 1, y)], [One(2, 1, y)];
    OneFits(0, 0, 0);
    OneFits(1, 1, y);
    OneFits(2, 1, y);
    OriginalRuns(y);
    SeatedTwo(y);
    GathersTwo(y);
    FailedTurnBlocks(MODEL, maxSeats, held, first, held, second);
  }

  lemma SeatedTwo(y: int)
    ensures SeatLanes([true, true], LanesOf([One(0, 0, 0), One(1, 1, y)])).Ok?
    ensures SeatLanes([true, true], LanesOf([One(2, 1, y)])).Ok?
  {
    hide NewSeating, FirstNotTaken;
    assert LanesOf([One(0, 0, 0), One(1, 1, y)]) == [0, 1] && LanesOf([One(2, 1, y)]) == [1];
    SeatingAccepts(2, [0, 1]);
    SeatingAccepts(2, [1]);
  }

  lemma GathersTwo(y: int)
    ensures InFlags(MODEL) == [true]
    ensures forall s | s in [One(0, 0, 0), One(1, 1, y)] :: |s.inputs| == 1
    ensures var xs := GatherFrom([true], [One(0, 0, 0), One(1, 1, y)], 0);
            xs.Ok? ==> RunTurn(MODEL, 2, xs.value) == None
  {
    hide GatherFrom, RunTurn;
    var seated := [One(0, 0, 0), One(1, 1, y)];
    assert forall s | s in seated :: |s.inputs| == |[true]|;
    assert InFlags(MODEL) == [true] by { assert 0 in [0]; }
    if GatherFrom([true], seated, 0).Ok? {
      GatherKeepsSeats([true], seated);
      var xs := GatherFrom([true], seated, 0).value;
      assert SeatSlice(xs, [true], 2, 0) == seated[0].inputs;
      assert SeatSlice(xs, [true], 2, 0)[0] == Rows([], [Scalar(0)]);
      assert xs[0].rows[0..1] == [Scalar(0)] && xs[0].rows[0..1][0] in xs[0].rows;
      assert xs == [xs[0]];
      BatchifiedRefuses(2, xs[0]);
    }
  }
}
