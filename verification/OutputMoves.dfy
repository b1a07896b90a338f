/** Where the batch axis of an output ends up: which outputs are moved, and which are
    answered as they are. */
module OutputMoves {
  import opened Outcomes
  import opened Tensors
  import opened Indexing
  import opened Columns
  import opened Outlets
  import opened AxisOps
  import opened Graphs
  import opened Batchify
  import opened BatchGraphs

  /** No wire's fact carries the batch further in. */
  predicate InFront(wires: seq<Outlet>, carrier: Outlet -> Option<nat>) {
    forall o | o in wires :: carrier(o) == None || carrier(o) == Some(0)
  }

  lemma {:induction false} NothingMoved(nodes: Graph, outputs: seq<Outlet>, carrier: Outlet -> Option<nat>)
    ensures MoveOutputs(nodes, outputs, carrier) == (nodes, outputs) <==> InFront(outputs, carrier)
    decreases |outputs|
  {
    if outputs != [] {
      NothingMoved(nodes, outputs[1..], carrier);
      assert [outputs[0]] + outputs[1..] == outputs;
      assert forall o :: o in outputs <==> o == outputs[0] || o in outputs[1..];
    }
  }

  lemma OutputsInTarget(st: Setting, outputs: seq<Outlet>)
    requires WellPosed(st) && InputsBefore(st.g, outputs, |st.g|)
    ensures forall o | o in outputs :: o.node < |st.target.mapping| && o.slot < |st.target.mapping[o.node]|
  {
    hide Run, OnTarget, Ran, Fed, Regular, PlanOf, WireOf;
    var tv := AgreesUpto(st, |st.g|);
    OutputsOnTarget(st, outputs, tv);
  }

  /** No output is moved if and only if no output's fact carries the batch anywhere but in
      front: a reached output is then answered the seats' stack, any other the one value the
      seats have there. */
  lemma UnmovedAnswers(st: Setting, outputs: seq<Outlet>, carrier: Outlet -> Option<nat>)
    requires WellPosed(st) && InputsBefore(st.g, outputs, |st.g|)
    ensures |st.vals| > 0
    ensures forall o | o in outputs :: o.node < |st.target.mapping| && o.slot < |st.target.mapping[o.node]|
    ensures var wires := Mapped(st.target.mapping, outputs);
            MoveOutputs(st.target.nodes, wires, carrier) == (st.target.nodes, wires) <==> InFront(wires, carrier)
    ensures var wires := Mapped(st.target.mapping, outputs);
            var run := Run(st.lib, |st.givens|, st.target.nodes, st.fed, |st.target.nodes|);
            InFront(wires, carrier) ==> run.Some? && Reads(run.value, wires) == Some(AllOnTarget(st, outputs))
    ensures forall s | 0 <= s < |outputs| ::
      var seats := Column(SeatInputs(st.vals, [outputs[s]]), 0);
      AllOnTarget(st, outputs)[s] == if outputs[s].node in st.plan.carried then Stack(seats) else seats[0]
  {
    hide Run, WellPosed, Reads;
    SomeSeats(st);
    OutputsInTarget(st, outputs);
    var wires := Mapped(st.target.mapping, outputs);
    NothingMoved(st.target.nodes, wires, carrier);
    if InFront(wires, carrier) {
      forall s | 0 <= s < |outputs|
        ensures outputs[s].node < |st.target.mapping| && outputs[s].slot < |st.target.mapping[outputs[s].node]|
        ensures Fronted(carrier(st.target.mapping[outputs[s].node][outputs[s].slot]), OnTarget(st, outputs[s]))
                == Some(AllOnTarget(st, outputs)[s])
      {
        assert outputs[s] in outputs && wires[s] in wires;
      }
      BatchedAnswers(st, outputs, carrier, AllOnTarget(st, outputs));
    }
  }

  // ---- An output that moves ----

  /** A shared input whose second axis is the batch's, an input of each seat's own, and
      both of them outputs. */
  const GRAPH: Graph := [Source([Fixed(2), Sized]), Source([Fixed(1)])]

  const OUTPUTS: seq<Outlet> := [Outlet(0, 0), Outlet(1, 0)]

  const BATCHED: Target := Target(
    [Source([Fixed(2), Sized]), Source([Sized, Fixed(1)])],
    [[Outlet(0, 0)], [Outlet(1, 0)]],
    map[0 := 0, 1 := 1])

  /** The axis the fact of a source carries the batch on. */
  function CarriedBy(nodes: Graph): Outlet -> Option<nat> {
    (o: Outlet) => if o.node < |nodes| && nodes[o.node].Source? then Carrier(nodes[o.node].fact) else None
  }

  lemma BatchifiedSo(lib: Library)
    ensures Ordered(GRAPH) && Batched(lib, GRAPH, {0}) == Some((Plan({1}, map[]), BATCHED))
  {
    assert Carrier([Fixed(1)]).None? by {
      assert [Fixed(1)][1..] == [];
    }
    assert GRAPH[0] == Source([Fixed(2), Sized]) && GRAPH[1] == Source([Fixed(1)]);
    assert !Joins(GRAPH, {0});
    assert PlanOf(lib, GRAPH, {0}, false, 0) == Some(Plan({}, map[]));
    assert PlanOf(lib, GRAPH, {0}, false, 1) == Some(Plan({}, map[]));
    assert {} + {1} == {1} && GainsAxis(GRAPH[1], 1, {0}, false);
    assert PlanNode(lib, GRAPH, {0}, false, Plan({}, map[]), 1) == Some(Plan({1}, map[]));
    assert PlanOf(lib, GRAPH, {0}, false, 2) == Some(Plan({1}, map[]));
    var t0 := Target([], [], map[]);
    var t1 := Target([Source([Fixed(2), Sized])], [[Outlet(0, 0)]], map[0 := 0]);
    assert WireOf(GRAPH, {0}, false, map[], 0) == t0;
    assert WireOf(GRAPH, {0}, false, map[], 1) == t1;
    assert SourceNodes([Fixed(1)], true, false, 1) == ([Source([Sized, Fixed(1)])], Outlet(1, 0)) by {
      assert [Sized] + [Fixed(1)] == [Sized, Fixed(1)];
    }
    assert t1.nodes + [Source([Sized, Fixed(1)])] == BATCHED.nodes && t1.mapping + [[Outlet(1, 0)]] == BATCHED.mapping;
    assert t1.interface[1 := 1] == BATCHED.interface;
    assert WireNode(GRAPH, {0}, false, map[], t1, 1) == BATCHED;
    assert WireOf(GRAPH, {0}, false, map[], 2) == BATCHED;
  }

  /** Each seat of the original answers the shared input as it is. The batchified graph,
      where the batch reaches the other input only, answers it with its axes swapped, and so
      in another shape for any number of seats but two: its fact has the batch symbol in it,
      and that alone decides. */
  lemma SharedOutputMoves(lib: Library, n: nat, x: Tensor, own: Tensor, rows: Tensor) returns (moved: Tensor)
    requires Sound(x) && ShapeOf(x) == [2, n] && n != 2
    ensures Ordered(GRAPH) && Batched(lib, GRAPH, {0}) == Some((Plan({1}, map[]), BATCHED))
    ensures Run(lib, n, GRAPH, map[0 := x, 1 := own], 2) == Some([[x], [own]])
    ensures Reads([[x], [own]], OUTPUTS) == Some([x, own])
    ensures var (nodes, outs) := MoveOutputs(BATCHED.nodes, Mapped(BATCHED.mapping, OUTPUTS), CarriedBy(BATCHED.nodes));
            var run := Run(lib, n, nodes, map[0 := x, 1 := rows], |nodes|);
            run.Some? && Reads(run.value, outs) == Some([moved, rows])
    ensures ShapeOf(moved) == [n, 2] && moved != x
  {
    hide ApplyAxis, Applies, Run, Reads, MoveOutputs, Sound, Batched, Mapped, CarriedBy, Ordered;
    BatchifiedSo(lib);
    moved := FrontOfTwo(n, x);
    TwoGiven(lib, n, GRAPH, x, own);
    OutputsRead(x, own);
    OneMoves();
    MovesRun(lib, n, x, rows, moved);
    MovesRead(x, rows, moved);
  }

  lemma TwoGiven(lib: Library, n: nat, g: Graph, x: Tensor, y: Tensor)
    requires |g| == 2 && g[0].Source? && g[1].Source?
    ensures Run(lib, n, g, map[0 := x, 1 := y], 2) == Some([[x], [y]])
  {
    var fed := map[0 := x, 1 := y];
    assert Run(lib, n, g, fed, 0) == Some([]);
    assert Computed(lib, n, g, fed, []) == Some([x]) && [] + [[x]] == [[x]];
    assert Run(lib, n, g, fed, 1) == Some([[x]]);
    assert Computed(lib, n, g, fed, [[x]]) == Some([y]) && [[x]] + [[y]] == [[x], [y]];
  }

  lemma OneMoves()
    ensures MoveOutputs(BATCHED.nodes, Mapped(BATCHED.mapping, OUTPUTS), CarriedBy(BATCHED.nodes))
            == (BATCHED.nodes + [Wired(Axis(Move(1, 0)), [Outlet(0, 0)], 1)], [Outlet(2, 0), Outlet(1, 0)])
  {
    var nodes := BATCHED.nodes;
    var carrier := CarriedBy(nodes);
    assert Mapped(BATCHED.mapping, OUTPUTS) == OUTPUTS;
    assert [Fixed(2), Sized][1..] == [Sized];
    assert carrier(Outlet(0, 0)) == Some(1) && carrier(Outlet(1, 0)) == Some(0);
    assert OUTPUTS[1..] == [Outlet(1, 0)];
    NothingMoved(nodes + [Wired(Axis(Move(1, 0)), [Outlet(0, 0)], 1)], [Outlet(1, 0)], carrier);
    assert [Outlet(2, 0)] + [Outlet(1, 0)] == [Outlet(2, 0), Outlet(1, 0)];
  }

  lemma MovesRun(lib: Library, n: nat, x: Tensor, rows: Tensor, moved: Tensor)
    requires ApplyAxis(Move(1, 0), x) == Some(moved)
    ensures var nodes := BATCHED.nodes + [Wired(Axis(Move(1, 0)), [Outlet(0, 0)], 1)];
            && |nodes| == 3
            && Run(lib, n, nodes, map[0 := x, 1 := rows], 3) == Some([[x], [rows]] + [[moved]])
  {
    hide *;
    var nodes, fed, tv := BATCHED.nodes, map[0 := x, 1 := rows], [[x], [rows]];
    TwoSources();
    TwoGiven(lib, n, nodes, x, rows);
    FirstRead(x, rows);
    AxisRuns(lib, n, nodes, Move(1, 0), Outlet(0, 0), fed, tv, x);
  }

  lemma TwoSources()
    ensures |BATCHED.nodes| == 2 && BATCHED.nodes[0].Source? && BATCHED.nodes[1].Source?
  {}

  lemma FirstRead(x: Tensor, rows: Tensor)
    ensures Read([[x], [rows]], Outlet(0, 0)) == Some(x)
  {}

  lemma MovesRead(x: Tensor, rows: Tensor, moved: Tensor)
    ensures Reads([[x], [rows]] + [[moved]], [Outlet(2, 0), Outlet(1, 0)]) == Some([moved, rows])
  {
    var vals := [[x], [rows]] + [[moved]];
    assert Read(vals, Outlet(2, 0)) == Some(moved) && Read(vals, Outlet(1, 0)) == Some(rows);
    ReadsPointwise(vals, [Outlet(2, 0), Outlet(1, 0)], [moved, rows]);
  }

  lemma OutputsRead(x: Tensor, own: Tensor)
    ensures Reads([[x], [own]], OUTPUTS) == Some([x, own])
  {
    ReadsPointwise([[x], [own]], OUTPUTS, [x, own]);
  }

  lemma FrontOfTwo(n: nat, x: Tensor) returns (moved: Tensor)
    requires Sound(x) && ShapeOf(x) == [2, n]
    ensures ApplyAxis(Move(1, 0), x) == Some(moved) && ShapeOf(moved) == [n, 2]
  {
    hide ApplyAxis, Applies, IsTable, Reader, Sound;
    MovedToFront(1, x);
    moved := ApplyAxis(Move(1, 0), x).value;
    assert RemoveAt([2, n], 1) == [2] && [n] + [2] == [n, 2];
  }
}
