/** The whole graph: run batched on the stacked inputs, it answers on every outlet the
    batch reaches the stack of the seats' answers, and on every other outlet the one
    answer all the seats get. */
module BatchGraphs {
  import opened Outcomes
  import opened Tensors
  import opened Indexing
  import opened Columns
  import opened AxisOps
  import opened NaryOps
  import opened Graphs
  import opened Outlets
  import opened Batchify
  import opened BatchRuns

  /** A batchified graph, what every seat gives the original and what it computes
      there, and what the batched graph is given. */
  datatype Setting = Setting(
    lib: Library,
    g: Graph,
    shared: set<nat>,
    plan: Plan,
    target: Target,
    givens: seq<map<nat, Tensor>>,
    vals: seq<Values>,
    fed: map<nat, Tensor>)

  /** What the seats have on node `j`. */
  function AtNode(vals: seq<Values>, j: nat): (r: seq<seq<Tensor>>)
    ensures |r| == |vals| && forall i | 0 <= i < |vals| :: r[i] == NodeOf(vals[i], j)
  {
    if vals == [] then [] else [NodeOf(vals[0], j)] + AtNode(vals[1..], j)
  }

  function NodeOf(v: Values, j: nat): seq<Tensor> {
    if j < |v| then v[j] else []
  }

  /** Every seat has the node's outputs. */
  ghost predicate Shaped(st: Setting, j: nat) {
    && |st.vals| > 0 && j < |st.g|
    && forall xs | xs in AtNode(st.vals, j) :: |xs| == OutputsOf(st.g[j])
  }

  /** The seats' tensors for a source, and what is fed to its interface for them: their
      stack where it gains the axis, the one tensor they all read where it does not,
      with the axis it already carries in front. */
  ghost predicate Fed(st: Setting, id: nat)
    requires Shaped(st, id) && st.g[id].Source?
  {
    var fact := st.g[id].fact;
    var join := Joins(st.g, st.shared);
    var column := Column(AtNode(st.vals, id), 0);
    && id in st.target.interface && st.target.interface[id] in st.fed
    && !Collapsed(fact, join)
    && var given := st.fed[st.target.interface[id]];
       if GainsAxis(st.g[id], id, st.shared, join) then Alike(column) && given == Stack(column)
       else if id in st.shared || Carrier(fact) == Some(0) then Same(column) && given == column[0]
       else
         && Same(column) && Carrier(fact).value < |ShapeOf(column[0])|
         && ApplyAxis(Move(Carrier(fact).value, 0), column[0]) == Some(given)
  }

  /** Every seat ran the original. */
  ghost predicate Ran(st: Setting) {
    && |st.vals| == |st.givens| > 0
    && forall i | 0 <= i < |st.vals| ::
         Run(st.lib, |st.givens|, st.g, st.givens[i], |st.g|) == Some(st.vals[i])
  }

  ghost predicate WellPosed(st: Setting) {
    && Ordered(st.g) && Batched(st.lib, st.g, st.shared) == Some((st.plan, st.target))
    && Regular(st.lib) && Ran(st)
    && (forall id | 0 <= id < |st.g| && st.g[id].Source? :: Shaped(st, id) && Fed(st, id))
    && forall id | 0 <= id < |st.g| && st.g[id].Wired? && st.g[id].op.Other? ::
         Truthful(st.lib, st.g[id].op.name, st.g[id].outputs)
  }

  // ---- What the plan says of each node ----

  lemma FlagsLater(inputs: seq<Outlet>, carried: set<nat>, later: set<nat>, id: nat)
    requires forall o | o in inputs :: o.node < id
    requires forall x | x < id :: x in carried <==> x in later
    ensures Flags(inputs, carried) == Flags(inputs, later)
  {
    forall s | 0 <= s < |inputs|
      ensures Flags(inputs, carried)[s] == Flags(inputs, later)[s]
    {
      assert inputs[s] in inputs;
    }
  }

  ghost predicate PlanSays(lib: Library, g: Graph, shared: set<nat>, plan: Plan, id: nat)
    requires id < |g|
  {
    match g[id]
    case Source(_) => id in plan.carried <==> GainsAxis(g[id], id, shared, Joins(g, shared))
    case Wired(op, inputs, outputs) =>
      var flags := Flags(inputs, plan.carried);
      if true in flags then
        id in plan.carried && id in plan.hosts && Host(lib, op, outputs, flags) == Some(plan.hosts[id])
      else id !in plan.carried && id !in plan.hosts
  }

  lemma {:induction false} PlanSaysSo(lib: Library, g: Graph, shared: set<nat>, k: nat, id: nat)
    requires id < k <= |g| && Ordered(g) && PlanOf(lib, g, shared, Joins(g, shared), k).Some?
    ensures PlanSays(lib, g, shared, PlanOf(lib, g, shared, Joins(g, shared), k).value, id)
    decreases k
  {
    hide Host, GainsAxis, Joins, Flags;
    var join := Joins(g, shared);
    var before := PlanOf(lib, g, shared, join, k - 1).value;
    var plan := PlanOf(lib, g, shared, join, k).value;
    assert plan.carried == before.carried || plan.carried == before.carried + {k - 1};
    if g[id].Wired? {
      assert InputsBefore(g, g[id].inputs, id);
      FlagsLater(g[id].inputs, before.carried, plan.carried, id);
    }
    if id < k - 1 {
      PlanSaysSo(lib, g, shared, k - 1, id);
    }
  }

  // ---- What the seats compute on each node ----

  lemma SeatComputes(st: Setting, i: nat, j: nat)
    requires Ran(st) && i < |st.vals| && j < |st.g|
    ensures |st.vals[i]| == |st.g| && |st.vals[i][j]| == OutputsOf(st.g[j])
    ensures Computed(st.lib, |st.givens|, st.g, st.givens[i], st.vals[i][..j]) == Some(st.vals[i][j])
  {
    hide Computed;
    assert Run(st.lib, |st.givens|, st.g, st.givens[i], |st.g|) == Some(st.vals[i]);
    RunShorter(st.lib, |st.givens|, st.g, st.givens[i], j, |st.g|);
    RunShorter(st.lib, |st.givens|, st.g, st.givens[i], j + 1, |st.g|);
    assert st.vals[i][..j + 1][j] == st.vals[i][j];
  }

  lemma SeatsShaped(st: Setting, j: nat)
    requires Ran(st) && j < |st.g|
    ensures Shaped(st, j)
  {
    forall xs | xs in AtNode(st.vals, j)
      ensures |xs| == OutputsOf(st.g[j])
    {
      var i :| 0 <= i < |st.vals| && AtNode(st.vals, j)[i] == xs;
      SeatComputes(st, i, j);
    }
  }

  // ---- Agreement, node by node ----

  /** The target holds on `outlets` the seats' values of node `j`, stacked if carried. */
  ghost predicate Agrees(st: Setting, j: nat, tv: Values, outlets: seq<Outlet>)
    requires Shaped(st, j)
  {
    var m := OutputsOf(st.g[j]);
    var flags := Uniform(m, j in st.plan.carried);
    && |outlets| == m && Seated(AtNode(st.vals, j), flags)
    && forall s | 0 <= s < m :: Read(tv, outlets[s]) == Some(Gathered(AtNode(st.vals, j), flags)[s])
  }

  lemma AgreesLonger(st: Setting, j: nat, tv: Values, more: Values, outlets: seq<Outlet>)
    requires Shaped(st, j) && Agrees(st, j, tv, outlets)
    ensures Agrees(st, j, tv + more, outlets)
  {
    hide Seated;
    var flags := Uniform(OutputsOf(st.g[j]), j in st.plan.carried);
    forall s | 0 <= s < |outlets|
      ensures Read(tv + more, outlets[s]) == Some(Gathered(AtNode(st.vals, j), flags)[s])
    {
      ReadLonger(tv, more, outlets[s]);
    }
  }

  /** What each seat reads on `inputs`. */
  function SeatInputs(vals: seq<Values>, inputs: seq<Outlet>): (r: seq<seq<Tensor>>)
    ensures |r| == |vals| && forall i | 0 <= i < |vals| :: r[i] == InputsOf(vals[i], inputs)
    ensures forall xs | xs in r :: |xs| == |inputs|
  {
    seq(|vals|, i requires 0 <= i < |vals| => InputsOf(vals[i], inputs))
  }

  function InputsOf(v: Values, inputs: seq<Outlet>): (r: seq<Tensor>)
    ensures |r| == |inputs| && forall s | 0 <= s < |inputs| :: r[s] == Got(v, inputs[s])
  {
    if inputs == [] then [] else [Got(v, inputs[0])] + InputsOf(v, inputs[1..])
  }

  function Got(v: Values, o: Outlet): Tensor {
    if Read(v, o).Some? then Read(v, o).value else Scalar(0)
  }

  lemma GotIs(v: Values, o: Outlet)
    requires o.slot < |NodeOf(v, o.node)|
    ensures Got(v, o) == NodeOf(v, o.node)[o.slot]
  {}

  /** A wire reads, for a seat, what the seat has on the outlet. */
  lemma InputColumn(st: Setting, inputs: seq<Outlet>, s: nat)
    requires s < |inputs| && Shaped(st, inputs[s].node) && inputs[s].slot < OutputsOf(st.g[inputs[s].node])
    ensures Column(SeatInputs(st.vals, inputs), s) == Column(AtNode(st.vals, inputs[s].node), inputs[s].slot)
  {
    hide Got, NodeOf, SeatInputs, InputsOf, AtNode, Column, OutputsOf;
    var o := inputs[s];
    var seats, nodes := SeatInputs(st.vals, inputs), AtNode(st.vals, o.node);
    var here, there := Column(seats, s), Column(nodes, o.slot);
    forall i | 0 <= i < |st.vals|
      ensures here[i] == there[i]
    {
      assert nodes[i] in nodes && seats[i] in seats;
      GotIs(st.vals[i], o);
    }
  }

  lemma WireAgrees(st: Setting, o: Outlet, tv: Values, outlets: seq<Outlet>)
    requires Shaped(st, o.node) && o.slot < OutputsOf(st.g[o.node]) && Agrees(st, o.node, tv, outlets)
    ensures var column := Column(AtNode(st.vals, o.node), o.slot);
            && o.slot < |outlets|
            && (if o.node in st.plan.carried then Alike(column) else Same(column))
            && Read(tv, outlets[o.slot]) == Some(if o.node in st.plan.carried then Stack(column) else column[0])
  {
    hide Alike, Same;
    var flags := Uniform(OutputsOf(st.g[o.node]), o.node in st.plan.carried);
    assert flags[o.slot] == (o.node in st.plan.carried);
  }

  /** Agreement on every node before `k`. */
  ghost predicate AllAgree(st: Setting, k: nat, tv: Values, mapping: seq<seq<Outlet>>) {
    |mapping| == k && forall j | 0 <= j < k :: Shaped(st, j) && Agrees(st, j, tv, mapping[j])
  }

  lemma InputAgrees(st: Setting, inputs: seq<Outlet>, s: nat, id: nat, tv: Values, mapping: seq<seq<Outlet>>)
    requires |st.vals| > 0 && InputsBefore(st.g, inputs, id) && AllAgree(st, id, tv, mapping) && s < |inputs|
    ensures inputs[s].node < |mapping| && inputs[s].slot < |mapping[inputs[s].node]|
    ensures var flags := Flags(inputs, st.plan.carried);
            var seats := SeatInputs(st.vals, inputs);
            && (if flags[s] then Alike(Column(seats, s)) else Same(Column(seats, s)))
            && Read(tv, mapping[inputs[s].node][inputs[s].slot]) == Some(Gathered(seats, flags)[s])
  {
    hide Alike, Same, Shaped, Agrees;
    var o := inputs[s];
    assert o in inputs;
    assert Shaped(st, o.node) && Agrees(st, o.node, tv, mapping[o.node]);
    WireAgrees(st, o, tv, mapping[o.node]);
    InputColumn(st, inputs, s);
    assert Column(SeatInputs(st.vals, inputs), s)[0] == SeatInputs(st.vals, inputs)[0][s];
  }

  lemma InputsSeated(st: Setting, inputs: seq<Outlet>, id: nat, tv: Values, mapping: seq<seq<Outlet>>)
    requires |st.vals| > 0 && InputsBefore(st.g, inputs, id) && AllAgree(st, id, tv, mapping)
    ensures Seated(SeatInputs(st.vals, inputs), Flags(inputs, st.plan.carried))
  {
    hide Alike, Same, AllAgree, Read, Gathered, SeatInputs, Flags;
    var flags := Flags(inputs, st.plan.carried);
    var seats := SeatInputs(st.vals, inputs);
    forall s | 0 <= s < |flags|
      ensures if flags[s] then Alike(Column(seats, s)) else Same(Column(seats, s))
    {
      InputAgrees(st, inputs, s, id, tv, mapping);
    }
  }

  /** The mapped inputs of a node read the gathered inputs of its seats. */
  lemma InputsGathered(st: Setting, inputs: seq<Outlet>, id: nat, tv: Values, mapping: seq<seq<Outlet>>)
    requires |st.vals| > 0 && InputsBefore(st.g, inputs, id) && AllAgree(st, id, tv, mapping)
    ensures forall o | o in inputs :: o.node < |mapping| && o.slot < |mapping[o.node]|
    ensures var flags := Flags(inputs, st.plan.carried);
            && Seated(SeatInputs(st.vals, inputs), flags)
            && Reads(tv, Mapped(mapping, inputs)) == Some(Gathered(SeatInputs(st.vals, inputs), flags))
  {
    hide Seated, Column, AllAgree, Read, Gathered, SeatInputs, Flags, InputsBefore;
    InputsSeated(st, inputs, id, tv, mapping);
    forall o | o in inputs
      ensures o.node < |mapping| && o.slot < |mapping[o.node]|
    {
      var s :| 0 <= s < |inputs| && inputs[s] == o;
      InputAgrees(st, inputs, s, id, tv, mapping);
    }
    var ys := Gathered(SeatInputs(st.vals, inputs), Flags(inputs, st.plan.carried));
    var wires := Mapped(mapping, inputs);
    forall s | 0 <= s < |inputs|
      ensures Read(tv, wires[s]) == Some(ys[s])
    {
      InputAgrees(st, inputs, s, id, tv, mapping);
    }
    ReadsPointwise(tv, wires, ys);
  }

  // ---- One node ----

  lemma ReadsRewired(tv: Values, tv': Values, inputs: seq<Outlet>, slot: nat, wire: Outlet, ys: seq<Tensor>, y: Tensor)
    requires slot < |inputs| && Reads(tv, inputs) == Some(ys) && Read(tv', wire) == Some(y)
    requires |tv| <= |tv'| && tv'[..|tv|] == tv
    ensures Reads(tv', inputs[slot := wire]) == Some(ys[slot := y])
  {
    var rewired, ys' := inputs[slot := wire], ys[slot := y];
    forall s | 0 <= s < |rewired|
      ensures Read(tv', rewired[s]) == Some(ys'[s])
    {
      if s != slot {
        assert Read(tv, inputs[s]) == Some(ys[s]);
        assert tv'[..|tv|][inputs[s].node] == tv[inputs[s].node];
      }
    }
    ReadsPointwise(tv', rewired, ys');
  }

  /** Rank pads run as they do on values. */
  lemma {:induction false} PadsRun(lib: Library, n: nat, nodes: Graph, inputs: seq<Outlet>, pad: seq<nat>, spread: bool,
                                   fed: map<nat, Tensor>, tv: Values, ys: seq<Tensor>)
    requires forall slot | slot in pad :: slot < |inputs|
    requires Run(lib, n, nodes, fed, |nodes|) == Some(tv) && Reads(tv, inputs) == Some(ys)
    requires PadValues(n, ys, pad, spread).Some?
    ensures var (padded, wires) := PadSlots(nodes, inputs, pad, spread);
            var r := Run(lib, n, padded, fed, |padded|);
            && r.Some? && |tv| <= |r.value| && r.value[..|tv|] == tv
            && Reads(r.value, wires) == PadValues(n, ys, pad, spread)
    decreases |pad|
  {
    hide PadValue, Run, Computed, Reads, Read, PadSlots, PadValues;
    if pad == [] {
      NoPads(n, nodes, inputs, spread, ys);
      assert tv[..|tv|] == tv;
    } else {
      var slot, rest := pad[0], pad[1..];
      assert slot in pad && forall x | x in rest :: x in pad;
      FirstPad(n, nodes, inputs, pad, spread, ys);
      var padded, tv', y := OnePadRuns(lib, n, nodes, inputs, slot, spread, fed, tv, ys);
      var wires' := inputs[slot := Outlet(|padded| - 1, 0)];
      ReadsRewired(tv, tv', inputs, slot, Outlet(|padded| - 1, 0), ys, y);
      PadsRun(lib, n, padded, wires', rest, spread, fed, tv', ys[slot := y]);
      var (final, wires) := PadSlots(padded, wires', rest, spread);
      var r := Run(lib, n, final, fed, |final|).value;
      LongerStill(tv, tv', r);
    }
  }

  lemma LongerStill(tv: Values, tv': Values, r: Values)
    requires |tv| <= |tv'| <= |r| && tv'[..|tv|] == tv && r[..|tv'|] == tv'
    ensures r[..|tv|] == tv
  {
    assert r[..|tv|] == r[..|tv'|][..|tv|];
  }

  lemma NoPads(n: nat, nodes: Graph, inputs: seq<Outlet>, spread: bool, ys: seq<Tensor>)
    ensures PadSlots(nodes, inputs, [], spread) == (nodes, inputs) && PadValues(n, ys, [], spread) == Some(ys)
  {}

  /** Padding slots is padding the first, then the rest. */
  lemma FirstPad(n: nat, nodes: Graph, inputs: seq<Outlet>, pad: seq<nat>, spread: bool, ys: seq<Tensor>)
    requires pad != [] && |ys| == |inputs| && forall slot | slot in pad :: slot < |inputs|
    requires pad[0] < |inputs| && forall slot | slot in pad[1..] :: slot < |inputs|
    ensures var ranked := nodes + [Wired(Axis(Add(0)), [inputs[pad[0]]], 1)];
            var padded := if spread then ranked + [Wired(ToBatch, [Outlet(|nodes|, 0)], 1)] else ranked;
            PadSlots(nodes, inputs, pad, spread)
            == PadSlots(padded, inputs[pad[0] := Outlet(|padded| - 1, 0)], pad[1..], spread)
    ensures PadValues(n, ys, pad, spread).Some? ==>
      var y := PadValue(n, ys[pad[0]], spread);
      y.Some? && PadValues(n, ys, pad, spread) == PadValues(n, ys[pad[0] := y.value], pad[1..], spread)
  {
    hide PadValue;
  }

  lemma AxisRuns(lib: Library, n: nat, nodes: Graph, edit: AxisOp, input: Outlet, fed: map<nat, Tensor>, tv: Values,
                 x: Tensor)
    requires Run(lib, n, nodes, fed, |nodes|) == Some(tv) && Read(tv, input) == Some(x) && ApplyAxis(edit, x).Some?
    ensures Run(lib, n, nodes + [Wired(Axis(edit), [input], 1)], fed, |nodes| + 1)
            == Some(tv + [[ApplyAxis(edit, x).value]])
  {
    hide ApplyAxis, Applies, IsTable, Reader, ChangedShape, Canonical;
    ReadsPointwise(tv, [input], [x]);
    RunAppended(lib, n, nodes, Wired(Axis(edit), [input], 1), fed, tv, [ApplyAxis(edit, x).value]);
  }

  lemma SpreadRuns(lib: Library, n: nat, nodes: Graph, input: Outlet, fed: map<nat, Tensor>, tv: Values, x: Tensor)
    requires Run(lib, n, nodes, fed, |nodes|) == Some(tv) && Read(tv, input) == Some(x) && Spread(n, x).Some?
    ensures Run(lib, n, nodes + [Wired(ToBatch, [input], 1)], fed, |nodes| + 1) == Some(tv + [[Spread(n, x).value]])
  {
    hide Spread;
    ReadsPointwise(tv, [input], [x]);
    RunAppended(lib, n, nodes, Wired(ToBatch, [input], 1), fed, tv, [Spread(n, x).value]);
  }

  lemma OnePadRuns(lib: Library, n: nat, nodes: Graph, inputs: seq<Outlet>, slot: nat, spread: bool,
                   fed: map<nat, Tensor>, tv: Values, ys: seq<Tensor>)
    returns (r: Graph, rv: Values, y: Tensor)
    requires slot < |inputs| && Run(lib, n, nodes, fed, |nodes|) == Some(tv) && Reads(tv, inputs) == Some(ys)
    requires PadValue(n, ys[slot], spread).Some?
    ensures var ranked := nodes + [Wired(Axis(Add(0)), [inputs[slot]], 1)];
            r == if spread then ranked + [Wired(ToBatch, [Outlet(|nodes|, 0)], 1)] else ranked
    ensures Run(lib, n, r, fed, |r|) == Some(rv) && |tv| < |rv| && rv[..|tv|] == tv
    ensures PadValue(n, ys[slot], spread) == Some(y) && Read(rv, Outlet(|r| - 1, 0)) == Some(y)
  {
    hide ApplyAxis, Applies, IsTable, Reader, ChangedShape, Canonical, Spread, Run, Computed;
    var x := ApplyAxis(Add(0), ys[slot]).value;
    assert Read(tv, inputs[slot]) == Some(ys[slot]);
    AxisRuns(lib, n, nodes, Add(0), inputs[slot], fed, tv, ys[slot]);
    var ranked, tv1 := nodes + [Wired(Axis(Add(0)), [inputs[slot]], 1)], tv + [[x]];
    assert |tv| == |nodes| && |ranked| == |nodes| + 1;
    assert Read(tv1, Outlet(|nodes|, 0)) == Some(x) && tv1[..|tv|] == tv;
    hide Read;
    if spread {
      y := Spread(n, x).value;
      SpreadRuns(lib, n, ranked, Outlet(|nodes|, 0), fed, tv1, x);
      r, rv := ranked + [Wired(ToBatch, [Outlet(|nodes|, 0)], 1)], tv1 + [[y]];
    } else {
      r, rv, y := ranked, tv1, x;
    }
  }

  /** The target after the first `k` nodes. */
  function Upto(st: Setting, k: nat): Target
    requires Ordered(st.g) && k <= |st.g| && Fitting(st.g, st.plan.hosts)
  {
    WireOf(st.g, st.shared, Joins(st.g, st.shared), st.plan.hosts, k)
  }

  /** The target's first `k` nodes run, agreeing with every seat. */
  ghost predicate Runs(st: Setting, k: nat, tv: Values)
    requires Ordered(st.g) && k <= |st.g| && Fitting(st.g, st.plan.hosts)
  {
    var t := Upto(st, k);
    Run(st.lib, |st.givens|, t.nodes, st.fed, |t.nodes|) == Some(tv) && AllAgree(st, k, tv, t.mapping)
  }

  lemma OneMoreAgrees(st: Setting, k: nat, tv: Values, mapping: seq<seq<Outlet>>, tv': Values, outlets: seq<Outlet>)
    requires AllAgree(st, k, tv, mapping) && Shaped(st, k) && Agrees(st, k, tv', outlets)
    requires |tv| <= |tv'| && tv'[..|tv|] == tv
    ensures AllAgree(st, k + 1, tv', mapping + [outlets])
  {
    hide Agrees, Shaped;
    assert tv' == tv + tv'[|tv|..];
    forall j | 0 <= j < k
      ensures Shaped(st, j) && Agrees(st, j, tv', mapping[j])
    {
      AgreesLonger(st, j, tv, tv'[|tv|..], mapping[j]);
    }
  }

  lemma {:induction false} InterfaceAt(g: Graph, shared: set<nat>, join: bool, hosts: map<nat, Hosted>, id: nat, k: nat)
    requires Ordered(g) && Fitting(g, hosts) && id < k <= |g| && g[id].Source?
    ensures var t := WireOf(g, shared, join, hosts, k);
            id in t.interface && t.interface[id] == |WireOf(g, shared, join, hosts, id).nodes|
    decreases k
  {
    hide WireNode;
    WiredInterface(g, shared, join, hosts, WireOf(g, shared, join, hosts, k - 1), k - 1);
    if id < k - 1 {
      InterfaceAt(g, shared, join, hosts, id, k - 1);
    }
  }

  lemma WiredInterface(g: Graph, shared: set<nat>, join: bool, hosts: map<nat, Hosted>, t: Target, id: nat)
    requires Ordered(g) && id < |g| && |t.mapping| == id && Fitting(g, hosts)
    requires forall j | 0 <= j < id :: |t.mapping[j]| == OutputsOf(g[j])
    ensures WireNode(g, shared, join, hosts, t, id).interface
            == if g[id].Source? then t.interface[id := |t.nodes|] else t.interface
  {
    hide PadSlots, SourceNodes, Mapped, AllOutlets;
  }

  // ---- A source ----

  /** Feeding the interface of a source puts on its wire what the seats read. */
  lemma SourceRuns(lib: Library, n: nat, nodes: Graph, fact: seq<Dim>, batched: bool, join: bool, fed: map<nat, Tensor>,
                   tv: Values, x: Tensor)
    requires Run(lib, n, nodes, fed, |nodes|) == Some(tv) && !Collapsed(fact, join) && |nodes| in fed && Sound(x)
    requires var carrier := Carrier(fact);
             if batched && carrier.Some? && carrier.value > 0 then
               carrier.value < |ShapeOf(x)| && ApplyAxis(Move(carrier.value, 0), x) == Some(fed[|nodes|])
             else fed[|nodes|] == x
    ensures var (more, wire) := SourceNodes(fact, batched, join, |nodes|);
            var r := Run(lib, n, nodes + more, fed, |nodes + more|);
            && r.Some? && |tv| <= |r.value| && r.value[..|tv|] == tv
            && Read(r.value, wire) == Some(x)
  {
    hide ApplyAxis, Applies, IsTable, Reader, ChangedShape, Canonical, Run, Sound, ShapeOf, Collapsed;
    var carrier := Carrier(fact);
    var (more, wire) := SourceNodes(fact, batched, join, |nodes|);
    var source := more[0];
    GivenRuns(lib, n, nodes, source, fed, tv);
    if batched && carrier.Some? && carrier.value > 0 {
      assert more == [source, Wired(Axis(Move(0, carrier.value)), [Outlet(|nodes|, 0)], 1)];
      MovedSourceRuns(lib, n, nodes, source, carrier.value, fed, tv, x);
    } else {
      assert more == [source];
    }
  }

  lemma MovedSourceRuns(lib: Library, n: nat, nodes: Graph, source: Node, axis: nat, fed: map<nat, Tensor>, tv: Values,
                        x: Tensor)
    requires Run(lib, n, nodes, fed, |nodes|) == Some(tv) && |nodes| in fed && source.Source?
    requires Run(lib, n, nodes + [source], fed, |nodes| + 1) == Some(tv + [[fed[|nodes|]]])
    requires Sound(x) && axis < |ShapeOf(x)| && ApplyAxis(Move(axis, 0), x) == Some(fed[|nodes|])
    ensures var more := [source, Wired(Axis(Move(0, axis)), [Outlet(|nodes|, 0)], 1)];
            var r := Run(lib, n, nodes + more, fed, |nodes + more|);
            && r.Some? && |tv| <= |r.value| && r.value[..|tv|] == tv
            && Read(r.value, Outlet(|nodes| + 1, 0)) == Some(x)
  {
    hide ApplyAxis, Applies, IsTable, Reader, ChangedShape, Canonical, Run, Sound, ShapeOf;
    var tv1 := tv + [[fed[|nodes|]]];
    var moved := Wired(Axis(Move(0, axis)), [Outlet(|nodes|, 0)], 1);
    MoveUndone(axis, x);
    AxisRuns(lib, n, nodes + [source], Move(0, axis), Outlet(|nodes|, 0), fed, tv1, fed[|nodes|]);
    assert nodes + [source, moved] == nodes + [source] + [moved];
  }

  lemma GivenRuns(lib: Library, n: nat, nodes: Graph, source: Node, fed: map<nat, Tensor>, tv: Values)
    requires Run(lib, n, nodes, fed, |nodes|) == Some(tv) && source.Source? && |nodes| in fed
    ensures Run(lib, n, nodes + [source], fed, |nodes| + 1) == Some(tv + [[fed[|nodes|]]])
  {
    RunAppended(lib, n, nodes, source, fed, tv, [fed[|nodes|]]);
  }

  lemma OneSlot(seats: seq<seq<Tensor>>, flag: bool)
    requires |seats| > 0 && forall xs | xs in seats :: |xs| == 1
    requires if flag then Alike(Column(seats, 0)) else Same(Column(seats, 0))
    ensures Seated(seats, Uniform(1, flag))
    ensures Gathered(seats, Uniform(1, flag)) == [if flag then Stack(Column(seats, 0)) else Column(seats, 0)[0]]
    ensures Sound(Gathered(seats, Uniform(1, flag))[0])
  {
    if flag {
      StackIsSound(Column(seats, 0));
    }
  }

  /** What the wire of a source carries in the batched graph. */
  lemma SourceCarries(st: Setting, k: nat) returns (x: Tensor)
    requires WellPosed(st) && k < |st.g| && st.g[k].Source? && Shaped(st, k)
    ensures Sound(x) && Seated(AtNode(st.vals, k), Uniform(1, k in st.plan.carried))
    ensures x == Gathered(AtNode(st.vals, k), Uniform(1, k in st.plan.carried))[0]
    ensures k in st.target.interface && st.target.interface[k] in st.fed
    ensures var fact, carrier, given := st.g[k].fact, Carrier(st.g[k].fact), st.fed[st.target.interface[k]];
            && !Collapsed(fact, Joins(st.g, st.shared))
            && if k !in st.shared && carrier.Some? && carrier.value > 0 then
                 carrier.value < |ShapeOf(x)| && ApplyAxis(Move(carrier.value, 0), x) == Some(given)
               else given == x
  {
    hide Truthful, Regular, Ran, ApplyAxis, IsTable, Joins, PlanOf, WireOf, Alike, Same, Sound, ShapeOf, Gathered;
    hide Uniform, Seated, Stack;
    assert Fed(st, k);
    PlanSaysSo(st.lib, st.g, st.shared, |st.g|, k);
    OneSlot(AtNode(st.vals, k), k in st.plan.carried);
    x := Gathered(AtNode(st.vals, k), Uniform(1, k in st.plan.carried))[0];
  }

  lemma TargetIs(st: Setting, k: nat)
    requires WellPosed(st) && k < |st.g| && st.g[k].Source?
    ensures k in st.target.interface && st.target.interface[k] == |Upto(st, k).nodes|
  {
    hide Truthful, Regular, Ran, PlanOf, WireOf, Fed;
    InterfaceAt(st.g, st.shared, Joins(st.g, st.shared), st.plan.hosts, k, |st.g|);
  }

  lemma SourceStep(st: Setting, k: nat, tv: Values) returns (tv': Values)
    requires WellPosed(st) && k < |st.g| && st.g[k].Source? && Runs(st, k, tv)
    ensures Runs(st, k + 1, tv')
  {
    hide Run, SourceNodes, Seated, Truthful, Regular, PlanOf, ApplyAxis, Fed, Joins, Collapsed, AllAgree, Gathered;
    var join := Joins(st.g, st.shared);
    var fact := st.g[k].fact;
    var t := Upto(st, k);
    SeatsShaped(st, k);
    TargetIs(st, k);
    var x := SourceCarries(st, k);
    SourceRuns(st.lib, |st.givens|, t.nodes, fact, k !in st.shared, join, st.fed, tv, x);
    var (more, wire) := SourceNodes(fact, k !in st.shared, join, |t.nodes|);
    tv' := Run(st.lib, |st.givens|, t.nodes + more, st.fed, |t.nodes + more|).value;
    OneMoreAgrees(st, k, tv, t.mapping, tv', [wire]);
  }

  // ---- An op ----

  /** What a seat computes on a node, from what it reads there. */
  lemma SeatEvaluates(st: Setting, i: nat, k: nat)
    requires Ran(st) && i < |st.vals| && k < |st.g| && st.g[k].Wired? && InputsBefore(st.g, st.g[k].inputs, k)
    ensures Eval(st.lib, |st.givens|, st.g[k].op, SeatInputs(st.vals, st.g[k].inputs)[i]) == Some(AtNode(st.vals, k)[i])
    ensures |AtNode(st.vals, k)[i]| == st.g[k].outputs
  {
    hide Eval, Run;
    var inputs := st.g[k].inputs;
    var v := st.vals[i];
    SeatComputes(st, i, k);
    var xs := Reads(v[..k], inputs).value;
    forall s | 0 <= s < |inputs|
      ensures xs[s] == Got(v, inputs[s])
    {
      assert Read(v[..k], inputs[s]) == Some(xs[s]);
    }
    assert xs == InputsOf(v, inputs);
  }

  lemma UnreachedSeat(st: Setting, k: nat, flags: seq<bool>, i: nat)
    requires Ran(st) && i < |st.vals| && k < |st.g| && st.g[k].Wired? && InputsBefore(st.g, st.g[k].inputs, k)
    requires |flags| == |st.g[k].inputs| && true !in flags && Seated(SeatInputs(st.vals, st.g[k].inputs), flags)
    ensures Eval(st.lib, |st.givens|, st.g[k].op, Gathered(SeatInputs(st.vals, st.g[k].inputs), flags))
            == Some(AtNode(st.vals, k)[i])
    ensures |AtNode(st.vals, k)[i]| == st.g[k].outputs
    ensures AllSound(Gathered(SeatInputs(st.vals, st.g[k].inputs), flags))
  {
    hide Eval, Sound;
    SeatEvaluates(st, i, k);
    SameInputs(SeatInputs(st.vals, st.g[k].inputs), flags, i);
  }

  /** An op the batch does not reach computes for the turn what it does for any seat. */
  lemma UnreachedComputes(st: Setting, k: nat, flags: seq<bool>)
    requires Ran(st) && Regular(st.lib) && k < |st.g| && st.g[k].Wired? && InputsBefore(st.g, st.g[k].inputs, k)
    requires |flags| == |st.g[k].inputs| && true !in flags && Seated(SeatInputs(st.vals, st.g[k].inputs), flags)
    ensures var outs, still := AtNode(st.vals, k), Uniform(st.g[k].outputs, false);
            && (forall ys | ys in outs :: |ys| == st.g[k].outputs) && |outs| > 0
            && Seated(outs, still)
            && Eval(st.lib, |st.givens|, st.g[k].op, Gathered(SeatInputs(st.vals, st.g[k].inputs), flags))
               == Some(Gathered(outs, still))
  {
    hide Eval, Run, Sound, Seated, Gathered, Uniform, SeatInputs;
    var outs := AtNode(st.vals, k);
    forall i | 0 <= i < |outs|
      ensures outs[i] == outs[0]
    {
      UnreachedSeat(st, k, flags, i);
      UnreachedSeat(st, k, flags, 0);
    }
    UnreachedSeat(st, k, flags, 0);
    EvalIsSound(st.lib, |st.givens|, st.g[k].op, Gathered(SeatInputs(st.vals, st.g[k].inputs), flags));
    AllTheSame(outs, st.g[k].outputs);
  }

  lemma SameInputs(seats: seq<seq<Tensor>>, flags: seq<bool>, i: nat)
    requires Seated(seats, flags) && true !in flags && i < |seats|
    ensures seats[i] == Gathered(seats, flags) && AllSound(Gathered(seats, flags))
  {
    hide Sound;
    var xs := Gathered(seats, flags);
    forall s | 0 <= s < |flags|
      ensures xs[s] == seats[i][s] && Sound(xs[s])
    {
      assert !flags[s];
      assert Same(Column(seats, s)) && Column(seats, s)[i] == seats[i][s] && Column(seats, s)[0] == seats[0][s];
    }
  }

  lemma AllTheSame(outs: seq<seq<Tensor>>, m: nat)
    requires |outs| > 0 && (forall i | 0 <= i < |outs| :: outs[i] == outs[0]) && |outs[0]| == m && AllSound(outs[0])
    ensures forall ys | ys in outs :: |ys| == m
    ensures Seated(outs, Uniform(m, false)) && Gathered(outs, Uniform(m, false)) == outs[0]
  {
    hide Sound;
    forall s | 0 <= s < m
      ensures Same(Column(outs, s))
    {
      assert outs[0][s] in outs[0];
    }
  }

  lemma SeatsAnswered(st: Setting, k: nat, flags: seq<bool>)
    requires Ran(st) && k < |st.g| && st.g[k].Wired? && InputsBefore(st.g, st.g[k].inputs, k) && true in flags
    requires |flags| == |st.g[k].inputs| && Seated(SeatInputs(st.vals, st.g[k].inputs), flags)
    ensures Answered(st.lib, st.g[k].op, st.g[k].outputs, flags, SeatInputs(st.vals, st.g[k].inputs), AtNode(st.vals, k))
  {
    hide Eval, Seated;
    var seats, outs := SeatInputs(st.vals, st.g[k].inputs), AtNode(st.vals, k);
    forall i | 0 <= i < |seats|
      ensures |outs[i]| == st.g[k].outputs && Eval(st.lib, |seats|, st.g[k].op, seats[i]) == Some(outs[i])
    {
      SeatEvaluates(st, i, k);
    }
  }

  /** An op the batch reaches is hosted, and answers the seats' stacked answers. */
  lemma ReachedComputes(st: Setting, k: nat, flags: seq<bool>)
    requires Ran(st) && k < |st.g| && st.g[k].Wired? && InputsBefore(st.g, st.g[k].inputs, k)
    requires flags == Flags(st.g[k].inputs, st.plan.carried) && true in flags
    requires Seated(SeatInputs(st.vals, st.g[k].inputs), flags)
    requires k in st.plan.hosts && Host(st.lib, st.g[k].op, st.g[k].outputs, flags) == Some(st.plan.hosts[k])
    requires st.g[k].op.Other? ==> Truthful(st.lib, st.g[k].op.name, st.g[k].outputs)
    ensures |st.vals| > 0 && forall slot | slot in st.plan.hosts[k].pad :: slot < |flags|
    ensures Lifted(st.lib, st.g[k].op, st.g[k].outputs, st.plan.hosts[k], flags, SeatInputs(st.vals, st.g[k].inputs),
                   AtNode(st.vals, k))
  {
    hide Eval, Host, Lifted, Truthful, Seated, Flags, Answered;
    var seats, outs := SeatInputs(st.vals, st.g[k].inputs), AtNode(st.vals, k);
    SeatsAnswered(st, k, flags);
    HostLifts(st.lib, st.g[k].op, st.g[k].outputs, st.plan.hosts[k], flags, seats, outs);
    HostedPads(st.lib, st.g[k].op, st.g[k].outputs, flags);
    SeatsShaped(st, k);
  }

  lemma HostedPads(lib: Library, op: Op, outputs: nat, flags: seq<bool>)
    requires Host(lib, op, outputs, flags).Some?
    ensures forall slot | slot in Host(lib, op, outputs, flags).value.pad :: slot < |flags|
  {}

  lemma NodeRuns(lib: Library, n: nat, nodes: Graph, op: Op, wires: seq<Outlet>, outputs: nat, fed: map<nat, Tensor>,
                 tv: Values, ys: seq<Tensor>, zs: seq<Tensor>)
    requires Run(lib, n, nodes, fed, |nodes|) == Some(tv) && Reads(tv, wires) == Some(ys)
    requires Eval(lib, n, op, ys) == Some(zs) && |zs| == outputs
    ensures Run(lib, n, nodes + [Wired(op, wires, outputs)], fed, |nodes| + 1) == Some(tv + [zs])
  {
    hide Eval;
    RunAppended(lib, n, nodes, Wired(op, wires, outputs), fed, tv, zs);
  }

  function HostedAt(st: Setting, k: nat): Hosted {
    if k in st.plan.hosts then st.plan.hosts[k] else Hosted(None, [], false)
  }

  lemma UptoNext(st: Setting, k: nat)
    requires Ordered(st.g) && k < |st.g| && Fitting(st.g, st.plan.hosts) && st.g[k].Wired?
    requires forall o | o in st.g[k].inputs :: o.node < |Upto(st, k).mapping| && o.slot < |Upto(st, k).mapping[o.node]|
    ensures forall slot | slot in HostedAt(st, k).pad :: slot < |st.g[k].inputs|
    ensures var t, hosted := Upto(st, k), HostedAt(st, k);
            var (padded, rewired) := PadSlots(t.nodes, Mapped(t.mapping, st.g[k].inputs), hosted.pad, hosted.spread);
            && Upto(st, k + 1).nodes == padded + [Wired(HostOp(hosted, st.g[k].op), rewired, st.g[k].outputs)]
            && Upto(st, k + 1).mapping == t.mapping + [AllOutlets(|padded|, st.g[k].outputs)]
  {
    hide PadSlots, Mapped, AllOutlets;
  }

  lemma OpComputes(st: Setting, k: nat)
    requires WellPosed(st) && k < |st.g| && st.g[k].Wired? && InputsBefore(st.g, st.g[k].inputs, k) && Shaped(st, k)
    requires Seated(SeatInputs(st.vals, st.g[k].inputs), Flags(st.g[k].inputs, st.plan.carried))
    ensures |st.vals| > 0 && forall slot | slot in HostedAt(st, k).pad :: slot < |st.g[k].inputs|
    ensures var hosted, outputs := HostedAt(st, k), st.g[k].outputs;
            var xs := Gathered(SeatInputs(st.vals, st.g[k].inputs), Flags(st.g[k].inputs, st.plan.carried));
            var ys := PadValues(|st.givens|, xs, hosted.pad, hosted.spread);
            && Seated(AtNode(st.vals, k), Uniform(outputs, k in st.plan.carried)) && ys.Some?
            && Eval(st.lib, |st.givens|, HostOp(hosted, st.g[k].op), ys.value)
               == Some(Gathered(AtNode(st.vals, k), Uniform(outputs, k in st.plan.carried)))
  {
    hide Host, Eval, Seated, Gathered, Flags, Uniform, Truthful, Regular, Joins, PlanOf, WireOf, Run, SeatInputs, Fed;
    var flags := Flags(st.g[k].inputs, st.plan.carried);
    PlanSaysSo(st.lib, st.g, st.shared, |st.g|, k);
    if true in flags {
      ReachedComputes(st, k, flags);
    } else {
      UnreachedComputes(st, k, flags);
    }
  }

  /** The node's pads and then the node itself run as they do on values. */
  lemma WiredRuns(st: Setting, k: nat, tv: Values, xs: seq<Tensor>, zs: seq<Tensor>) returns (tv1: Values)
    requires Ordered(st.g) && k < |st.g| && Fitting(st.g, st.plan.hosts) && st.g[k].Wired?
    requires forall o | o in st.g[k].inputs :: o.node < |Upto(st, k).mapping| && o.slot < |Upto(st, k).mapping[o.node]|
    requires forall slot | slot in HostedAt(st, k).pad :: slot < |xs|
    requires Run(st.lib, |st.givens|, Upto(st, k).nodes, st.fed, |Upto(st, k).nodes|) == Some(tv)
    requires Reads(tv, Mapped(Upto(st, k).mapping, st.g[k].inputs)) == Some(xs) && |zs| == st.g[k].outputs
    requires var ys := PadValues(|st.givens|, xs, HostedAt(st, k).pad, HostedAt(st, k).spread);
             ys.Some? && Eval(st.lib, |st.givens|, HostOp(HostedAt(st, k), st.g[k].op), ys.value) == Some(zs)
    ensures var nodes := Upto(st, k + 1).nodes;
            && Run(st.lib, |st.givens|, nodes, st.fed, |nodes|) == Some(tv1 + [zs])
            && Upto(st, k + 1).mapping == Upto(st, k).mapping + [AllOutlets(|tv1|, st.g[k].outputs)]
            && |tv| <= |tv1| && tv1[..|tv|] == tv
  {
    hide Run, Eval, PadSlots, PadValues, Mapped, AllOutlets, WireOf, Joins;
    UptoNext(st, k);
    var t, hosted := Upto(st, k), HostedAt(st, k);
    var wires := Mapped(t.mapping, st.g[k].inputs);
    PadsRun(st.lib, |st.givens|, t.nodes, wires, hosted.pad, hosted.spread, st.fed, tv, xs);
    var (padded, rewired) := PadSlots(t.nodes, wires, hosted.pad, hosted.spread);
    tv1 := Run(st.lib, |st.givens|, padded, st.fed, |padded|).value;
    var ys := PadValues(|st.givens|, xs, hosted.pad, hosted.spread).value;
    NodeRuns(st.lib, |st.givens|, padded, HostOp(hosted, st.g[k].op), rewired, st.g[k].outputs, st.fed, tv1, ys, zs);
  }

  lemma NewestAgrees(st: Setting, k: nat, tv1: Values)
    requires Shaped(st, k) && Seated(AtNode(st.vals, k), Uniform(OutputsOf(st.g[k]), k in st.plan.carried))
    ensures Agrees(st, k, tv1 + [Gathered(AtNode(st.vals, k), Uniform(OutputsOf(st.g[k]), k in st.plan.carried))],
                   AllOutlets(|tv1|, OutputsOf(st.g[k])))
  {
    hide Seated, Gathered, Uniform;
  }

  lemma WiredStep(st: Setting, k: nat, tv: Values) returns (tv': Values)
    requires WellPosed(st) && k < |st.g| && st.g[k].Wired? && Runs(st, k, tv)
    ensures Runs(st, k + 1, tv')
  {
    hide Run, Eval, Seated, Gathered, Flags, Uniform, Truthful, Regular, Joins, PlanOf, WireOf, SeatInputs, Fed;
    hide AllAgree, PadSlots, PadValues, Mapped, AllOutlets, Agrees;
    var inputs, outputs := st.g[k].inputs, st.g[k].outputs;
    var t := Upto(st, k);
    assert InputsBefore(st.g, inputs, k);
    SeatsShaped(st, k);
    InputsGathered(st, inputs, k, tv, t.mapping);
    OpComputes(st, k);
    var xs := Gathered(SeatInputs(st.vals, inputs), Flags(inputs, st.plan.carried));
    var zs := Gathered(AtNode(st.vals, k), Uniform(outputs, k in st.plan.carried));
    var tv1 := WiredRuns(st, k, tv, xs, zs);
    tv' := tv1 + [zs];
    NewestAgrees(st, k, tv1);
    assert tv'[..|tv|] == tv1[..|tv|];
    OneMoreAgrees(st, k, tv, t.mapping, tv', AllOutlets(|tv1|, outputs));
  }

  // ---- The whole run ----

  lemma {:induction false} AgreesUpto(st: Setting, k: nat) returns (tv: Values)
    requires WellPosed(st) && k <= |st.g|
    ensures Runs(st, k, tv)
  {
    hide WellPosed;
    assert Ordered(st.g) && Fitting(st.g, st.plan.hosts) by { PosedWell(st); }
    if k == 0 {
      tv := [];
    } else {
      tv := AgreesUpto(st, k - 1);
      if st.g[k - 1].Source? {
        tv := SourceStep(st, k - 1, tv);
      } else {
        tv := WiredStep(st, k - 1, tv);
      }
    }
  }

  lemma PosedWell(st: Setting)
    requires WellPosed(st)
    ensures Ordered(st.g) && Fitting(st.g, st.plan.hosts)
  {}

  /** The batched graph runs whenever every seat's run of the original does; an outlet
      the batch reaches then carries the stack of the seats' values, and any other the
      value every seat has there. */
  lemma BatchedRunStacksSeats(st: Setting, o: Outlet)
    requires WellPosed(st) && o.node < |st.g| && o.slot < OutputsOf(st.g[o.node])
    ensures var run := Run(st.lib, |st.givens|, st.target.nodes, st.fed, |st.target.nodes|);
            && Shaped(st, o.node) && run.Some?
            && o.node < |st.target.mapping| && o.slot < |st.target.mapping[o.node]|
            && var seats := Column(AtNode(st.vals, o.node), o.slot);
               if o.node in st.plan.carried then
                 Alike(seats) && Read(run.value, st.target.mapping[o.node][o.slot]) == Some(Stack(seats))
               else
                 Same(seats) && Read(run.value, st.target.mapping[o.node][o.slot]) == Some(seats[0])
  {
    hide Agrees, Shaped, Run, Ran, Fed, Truthful, Regular, PlanOf, Alike, Same;
    var tv := AgreesUpto(st, |st.g|);
    assert Shaped(st, o.node) && Agrees(st, o.node, tv, st.target.mapping[o.node]);
    WireAgrees(st, o, tv, st.target.mapping[o.node]);
  }

  // ---- The outputs ----

  /** An output as the batched model answers it: with the axis its fact carries the
      batch on in front. */
  function Fronted(carrier: Option<nat>, x: Tensor): Option<Tensor> {
    if carrier.Some? && carrier.value > 0 then ApplyAxis(Move(carrier.value, 0), x) else Some(x)
  }

  /** The first output's move, if it has one, runs. */
  lemma FirstOutputRuns(lib: Library, n: nat, nodes: Graph, o: Outlet, axis: Option<nat>, fed: map<nat, Tensor>,
                        tv: Values, x: Tensor, y: Tensor)
    returns (nodes': Graph, tv': Values, o': Outlet)
    requires Run(lib, n, nodes, fed, |nodes|) == Some(tv) && Read(tv, o) == Some(x) && Fronted(axis, x) == Some(y)
    ensures var moves := axis.Some? && axis.value > 0;
            && nodes' == (if moves then nodes + [Wired(Axis(Move(axis.value, 0)), [o], 1)] else nodes)
            && o' == if moves then Outlet(|nodes|, 0) else o
    ensures Run(lib, n, nodes', fed, |nodes'|) == Some(tv') && Read(tv', o') == Some(y)
    ensures |tv| <= |tv'| && tv'[..|tv|] == tv
  {
    hide ApplyAxis, Applies, IsTable, ChangedShape, Canonical, Reader, Run;
    nodes', tv', o' := nodes, tv, o;
    if axis.Some? && axis.value > 0 {
      AxisRuns(lib, n, nodes, Move(axis.value, 0), o, fed, tv, x);
      nodes', tv', o' := nodes + [Wired(Axis(Move(axis.value, 0)), [o], 1)], tv + [[y]], Outlet(|nodes|, 0);
    }
  }

  lemma {:induction false} MovedOutputsRun(lib: Library, n: nat, nodes: Graph, outputs: seq<Outlet>,
                                           carrier: Outlet -> Option<nat>, fed: map<nat, Tensor>, tv: Values,
                                           xs: seq<Tensor>, ys: seq<Tensor>)
    requires Run(lib, n, nodes, fed, |nodes|) == Some(tv) && Reads(tv, outputs) == Some(xs) && |ys| == |xs|
    requires forall s | 0 <= s < |outputs| :: Fronted(carrier(outputs[s]), xs[s]) == Some(ys[s])
    ensures var (moved, outs) := MoveOutputs(nodes, outputs, carrier);
            var r := Run(lib, n, moved, fed, |moved|);
            && r.Some? && |tv| <= |r.value| && r.value[..|tv|] == tv && Reads(r.value, outs) == Some(ys)
    decreases |outputs|
  {
    hide Run, Fronted;
    if outputs == [] {
      assert tv[..|tv|] == tv && ys == [];
    } else {
      var nodes', tv', o' := FirstOutputRuns(lib, n, nodes, outputs[0], carrier(outputs[0]), fed, tv, xs[0], ys[0]);
      assert Reads(tv, outputs[1..]) == Some(xs[1..]);
      ReadsLonger(tv, tv', outputs[1..]);
      MovedOutputsRun(lib, n, nodes', outputs[1..], carrier, fed, tv', xs[1..], ys[1..]);
      var (moved, outs) := MoveOutputs(nodes, outputs, carrier);
      assert outs[0] == o';
      AllRead(Run(lib, n, moved, fed, |moved|).value, tv', tv, outs, ys);
    }
  }

  lemma AllRead(rv: Values, tv': Values, tv: Values, outs: seq<Outlet>, ys: seq<Tensor>)
    requires |outs| == |ys| > 0 && |tv| <= |tv'| <= |rv| && tv'[..|tv|] == tv && rv[..|tv'|] == tv'
    requires Read(tv', outs[0]) == Some(ys[0]) && Reads(rv, outs[1..]) == Some(ys[1..])
    ensures Reads(rv, outs) == Some(ys) && rv[..|tv|] == tv
  {
    assert rv == tv' + rv[|tv'|..];
    ReadLonger(tv', rv[|tv'|..], outs[0]);
    assert [ys[0]] + ys[1..] == ys;
    assert rv[..|tv|] == rv[..|tv'|][..|tv|];
  }

  /** What the seats have on the outlet, as the batched graph carries it. */
  function OnTarget(st: Setting, o: Outlet): Tensor
    requires |st.vals| > 0
  {
    var seats := Column(SeatInputs(st.vals, [o]), 0);
    if o.node in st.plan.carried then Stack(seats) else seats[0]
  }

  /** What `OnTarget` is, for every output. */
  function AllOnTarget(st: Setting, outputs: seq<Outlet>): (r: seq<Tensor>)
    requires |st.vals| > 0
    ensures |r| == |outputs| && forall s | 0 <= s < |outputs| :: r[s] == OnTarget(st, outputs[s])
  {
    if outputs == [] then [] else [OnTarget(st, outputs[0])] + AllOnTarget(st, outputs[1..])
  }

  lemma ReadsOnTarget(st: Setting, o: Outlet, tv: Values)
    requires WellPosed(st) && Runs(st, |st.g|, tv) && o.node < |st.g| && o.slot < OutputsOf(st.g[o.node])
    ensures o.node < |st.target.mapping| && o.slot < |st.target.mapping[o.node]| && |st.vals| > 0
    ensures Read(tv, st.target.mapping[o.node][o.slot]) == Some(OnTarget(st, o))
  {
    hide Agrees, Shaped, Run, Fed, Truthful, Regular, PlanOf, Alike, Same;
    assert Shaped(st, o.node) && Agrees(st, o.node, tv, st.target.mapping[o.node]);
    WireAgrees(st, o, tv, st.target.mapping[o.node]);
    InputColumn(st, [o], 0);
  }

  lemma OutputsOnTarget(st: Setting, outputs: seq<Outlet>, tv: Values)
    requires WellPosed(st) && Runs(st, |st.g|, tv) && InputsBefore(st.g, outputs, |st.g|)
    ensures |st.vals| > 0
    ensures forall o | o in outputs :: o.node < |st.target.mapping| && o.slot < |st.target.mapping[o.node]|
    ensures Reads(tv, Mapped(st.target.mapping, outputs)) == Some(AllOnTarget(st, outputs))
  {
    hide WellPosed, Runs, OnTarget, Read;
    assert |st.vals| > 0 by { SomeSeats(st); }
    forall o | o in outputs
      ensures o.node < |st.target.mapping| && o.slot < |st.target.mapping[o.node]|
      ensures Read(tv, st.target.mapping[o.node][o.slot]) == Some(OnTarget(st, o))
    {
      ReadsOnTarget(st, o, tv);
    }
    ReadsPointwise(tv, Mapped(st.target.mapping, outputs), AllOnTarget(st, outputs));
  }

  lemma SomeSeats(st: Setting)
    requires WellPosed(st)
    ensures |st.vals| > 0
  {}

  /** The answers of the batched model: on an output the batch reaches, whose fact leads
      with it, the seats' stack; on any other the seats' one answer, unchanged unless its
      own fact carries the batch symbol further in. */
  lemma BatchedAnswers(st: Setting, outputs: seq<Outlet>, carrier: Outlet -> Option<nat>, answers: seq<Tensor>)
    requires WellPosed(st) && InputsBefore(st.g, outputs, |st.g|) && |answers| == |outputs|
    requires forall s | 0 <= s < |outputs| && outputs[s].node < |st.target.mapping|
               && outputs[s].slot < |st.target.mapping[outputs[s].node]| ::
               Fronted(carrier(st.target.mapping[outputs[s].node][outputs[s].slot]), OnTarget(st, outputs[s]))
               == Some(answers[s])
    ensures forall o | o in outputs :: o.node < |st.target.mapping| && o.slot < |st.target.mapping[o.node]|
    ensures var (nodes, outs) := MoveOutputs(st.target.nodes, Mapped(st.target.mapping, outputs), carrier);
            var run := Run(st.lib, |st.givens|, nodes, st.fed, |nodes|);
            run.Some? && Reads(run.value, outs) == Some(answers)
  {
    hide Run, Fronted, OnTarget, Ran, Fed, Truthful, Regular, PlanOf, WireOf;
    var tv := AgreesUpto(st, |st.g|);
    OutputsOnTarget(st, outputs, tv);
    var wires := Mapped(st.target.mapping, outputs);
    forall s | 0 <= s < |wires|
      ensures Fronted(carrier(wires[s]), AllOnTarget(st, outputs)[s]) == Some(answers[s])
    {
      assert outputs[s] in outputs;
    }
    MovedOutputsRun(st.lib, |st.givens|, st.target.nodes, wires, carrier, st.fed, tv, AllOnTarget(st, outputs), answers);
  }
}
