/** Giving a dataflow a batch axis on axis 0: which nodes the axis reaches, what
    each is replaced with, and the graph rebuilt around them. */
module Batchify {
  import opened Outcomes
  import opened AxisOps
  import opened EinSums
  import opened Graphs
  import opened Outlets

  // ---- The interface ----

  /** The first axis sized by the batch symbol. */
  function Carrier(fact: seq<Dim>): (r: Option<nat>)
    ensures r.Some? ==> r.value < |fact| && fact[r.value].Sized? && AllFixed(fact[..r.value])
    ensures r.None? ==> AllFixed(fact)
  {
    if fact == [] then None
    else if fact[0].Sized? then Some(0)
    else match Carrier(fact[1..]) case None => None case Some(axis) => Some(axis + 1)
  }

  predicate AllFixed(fact: seq<Dim>) {
    forall k | 0 <= k < |fact| :: fact[k].Fixed?
  }

  /** Whether the batch of this input is the leading one an export collapsed it to. */
  predicate Collapsed(fact: seq<Dim>, join: bool) {
    join && Carrier(fact).None? && fact != [] && fact[0] == Fixed(1)
  }

  /** Whether some input that is not shared has the batch axis already. */
  predicate Joins(g: Graph, shared: set<nat>) {
    exists id :: 0 <= id < |g| && g[id].Source? && id !in shared && Carrier(g[id].fact).Some?
  }

  predicate GainsAxis(node: Node, id: nat, shared: set<nat>, join: bool) {
    node.Source? && id !in shared && Carrier(node.fact).None? && !Collapsed(node.fact, join)
  }

  // ---- Asking an op to host the axis ----

  /** What to wire in the op's place, the slots that read through an `Add(0)`, and
      whether these must also be broadcast to the batch. */
  datatype Hosted = Hosted(op: Option<Op>, pad: seq<nat>, spread: bool)

  /** The same change on every wire of the op: the inputs `from` on, then the outputs. */
  function Everywhere(from: nat, arity: nat, outputs: nat, change: AxisOp): seq<(InOut, AxisOp)>
    decreases arity - from
  {
    if from < arity then [(In(from), change)] + Everywhere(from + 1, arity, outputs, change)
    else OutsFrom(0, outputs, change)
  }

  function OutsFrom(from: nat, outputs: nat, change: AxisOp): seq<(InOut, AxisOp)>
    decreases outputs - from
  {
    if from >= outputs then [] else [(Out(from), change)] + OutsFrom(from + 1, outputs, change)
  }

  /** `TypedOp::change_axes` for `Add(0)` on an input. */
  function ChangeAxes(lib: Library, op: Op, arity: nat, outputs: nat, slot: nat): Option<Consequence> {
    match op
    case Each(_) => Some(Consequence(None, Everywhere(0, arity, outputs, Add(0))))
    case Concat(axis) => Some(Consequence(Some(Concat(axis + 1)), Everywhere(0, arity, outputs, Add(0))))
    case Other(name) => lib.changeAxes(name, In(slot), Add(0))
    case _ => None
  }

  /** The answer carries the axis to every output. */
  predicate CarriesThrough(c: Consequence, outputs: nat) {
    forall slot | 0 <= slot < outputs :: (Out(slot), Add(0)) in c.changes
  }

  /** The input slots the answer reaches which do not carry the batch. */
  function Pads(changes: seq<(InOut, AxisOp)>, flags: seq<bool>): (r: seq<nat>)
    ensures forall slot | slot in r :: slot < |flags| && !flags[slot]
  {
    if changes == [] then []
    else
      var io := changes[0].0;
      (if io.In? && io.slot < |flags| && !flags[io.slot] then [io.slot] else []) + Pads(changes[1..], flags)
  }

  function FirstOf(flags: seq<bool>): nat {
    if flags == [] || flags[0] then 0 else 1 + FirstOf(flags[1..])
  }

  function Host(lib: Library, op: Op, outputs: nat, flags: seq<bool>): Option<Hosted> {
    match op
    case Einsum(sum) =>
      if |flags| == |sum.ins| then Some(Hosted(Some(Einsum(BatchedEinSum(sum, flags))), [], false)) else None
    case Axis(edit) => Some(Hosted(Some(Axis(Shifted(edit))), [], false))
    case _ =>
      match ChangeAxes(lib, op, |flags|, outputs, FirstOf(flags))
      case None => None
      case Some(c) =>
        if CarriesThrough(c, outputs) then Some(Hosted(c.substitute, Pads(c.changes, flags), op.Concat?)) else None
  }

  // ---- The first pass: where the axis goes ----

  /** The nodes whose outputs carry the axis, and what each hosts it as. */
  datatype Plan = Plan(carried: set<nat>, hosts: map<nat, Hosted>)

  function Flags(inputs: seq<Outlet>, carried: set<nat>): (r: seq<bool>)
    ensures |r| == |inputs| && forall s | 0 <= s < |inputs| :: r[s] == (inputs[s].node in carried)
  {
    if inputs == [] then [] else [inputs[0].node in carried] + Flags(inputs[1..], carried)
  }

  function PlanNode(lib: Library, g: Graph, shared: set<nat>, join: bool, plan: Plan, id: nat): Option<Plan>
    requires id < |g|
  {
    match g[id]
    case Source(fact) =>
      Some(if GainsAxis(g[id], id, shared, join) then plan.(carried := plan.carried + {id}) else plan)
    case Wired(op, inputs, outputs) =>
      var flags := Flags(inputs, plan.carried);
      if true !in flags then Some(plan)
      else
        match Host(lib, op, outputs, flags)
        case None => None
        case Some(hosted) => Some(Plan(plan.carried + {id}, plan.hosts[id := hosted]))
  }

  function PlanOf(lib: Library, g: Graph, shared: set<nat>, join: bool, k: nat): (r: Option<Plan>)
    requires k <= |g|
    ensures r.Some? ==> forall id | id in r.value.carried :: id < k
    ensures r.Some? ==> forall id | id in r.value.hosts :: id < k
  {
    if k == 0 then Some(Plan({}, map[]))
    else
      match PlanOf(lib, g, shared, join, k - 1)
      case None => None
      case Some(plan) => PlanNode(lib, g, shared, join, plan, k - 1)
  }

  // ---- The second pass: the target graph ----

  /** The graph so far, where each outlet of the original went, and which node is the
      interface of each source. */
  datatype Target = Target(nodes: Graph, mapping: seq<seq<Outlet>>, interface: map<nat, nat>)

  function Mapped(mapping: seq<seq<Outlet>>, inputs: seq<Outlet>): (r: seq<Outlet>)
    requires forall o | o in inputs :: o.node < |mapping| && o.slot < |mapping[o.node]|
    ensures |r| == |inputs| && forall s | 0 <= s < |inputs| :: r[s] == mapping[inputs[s].node][inputs[s].slot]
  {
    if inputs == [] then [] else [mapping[inputs[0].node][inputs[0].slot]] + Mapped(mapping, inputs[1..])
  }

  /** The rank pads, and the broadcasts behind them, of the listed slots. */
  function PadSlots(nodes: Graph, inputs: seq<Outlet>, pad: seq<nat>, spread: bool): (r: (Graph, seq<Outlet>))
    requires forall slot | slot in pad :: slot < |inputs|
    ensures |r.1| == |inputs| && |nodes| <= |r.0| && r.0[..|nodes|] == nodes
    decreases |pad|
  {
    if pad == [] then (nodes, inputs)
    else
      var slot := pad[0];
      assert slot in pad && forall x | x in pad[1..] :: x in pad;
      var ranked := nodes + [Wired(Axis(Add(0)), [inputs[slot]], 1)];
      var padded := if spread then ranked + [Wired(ToBatch, [Outlet(|nodes|, 0)], 1)] else ranked;
      PadSlots(padded, inputs[slot := Outlet(|padded| - 1, 0)], pad[1..], spread)
  }

  function AllOutlets(node: nat, outputs: nat): (r: seq<Outlet>)
    ensures |r| == outputs && forall s | 0 <= s < outputs :: r[s] == Outlet(node, s)
  {
    if outputs == 0 then [] else AllOutlets(node, outputs - 1) + [Outlet(node, outputs - 1)]
  }

  /** The nodes of a source, and the wire the graph behind it reads. */
  function SourceNodes(fact: seq<Dim>, batched: bool, join: bool, at: nat): (Graph, Outlet) {
    var carrier := Carrier(fact);
    if !batched || carrier == Some(0) then ([Source(fact)], Outlet(at, 0))
    else if Collapsed(fact, join) then ([Source([Sized] + fact[1..])], Outlet(at, 0))
    else
      match carrier
      case None => ([Source([Sized] + fact)], Outlet(at, 0))
      case Some(axis) =>
        ([Source([fact[axis]] + fact[..axis] + fact[axis + 1..]), Wired(Axis(Move(0, axis)), [Outlet(at, 0)], 1)],
         Outlet(at + 1, 0))
  }

  function WireNode(g: Graph, shared: set<nat>, join: bool, hosts: map<nat, Hosted>, t: Target, id: nat): Target
    requires Ordered(g) && id < |g| && |t.mapping| == id
    requires forall j | 0 <= j < id :: |t.mapping[j]| == OutputsOf(g[j])
    requires Fitting(g, hosts)
  {
    match g[id]
    case Source(fact) =>
      var (nodes, interior) := SourceNodes(fact, id !in shared, join, |t.nodes|);
      Target(t.nodes + nodes, t.mapping + [[interior]], t.interface[id := |t.nodes|])
    case Wired(op, inputs, outputs) =>
      assert InputsBefore(g, inputs, id);
      var hosted := if id in hosts then hosts[id] else Hosted(None, [], false);
      var (nodes, wires) := PadSlots(t.nodes, Mapped(t.mapping, inputs), hosted.pad, hosted.spread);
      var wired := Wired(if hosted.op.Some? then hosted.op.value else op, wires, outputs);
      Target(nodes + [wired], t.mapping + [AllOutlets(|nodes|, outputs)], t.interface)
  }

  /** Every padded slot is one of its node's inputs. */
  predicate Fitting(g: Graph, hosts: map<nat, Hosted>) {
    forall id | id in hosts && id < |g| && g[id].Wired? :: forall slot | slot in hosts[id].pad :: slot < |g[id].inputs|
  }

  function WireOf(g: Graph, shared: set<nat>, join: bool, hosts: map<nat, Hosted>, k: nat): (t: Target)
    requires Ordered(g) && k <= |g| && Fitting(g, hosts)
    ensures |t.mapping| == k && forall j | 0 <= j < k :: |t.mapping[j]| == OutputsOf(g[j])
  {
    if k == 0 then Target([], [], map[])
    else WireNode(g, shared, join, hosts, WireOf(g, shared, join, hosts, k - 1), k - 1)
  }

  /** An output whose fact carries the batch further in has it moved to the front. */
  function MoveOutputs(nodes: Graph, outputs: seq<Outlet>, carrier: Outlet -> Option<nat>): (r: (Graph, seq<Outlet>))
    ensures |r.1| == |outputs| && |nodes| <= |r.0| && r.0[..|nodes|] == nodes
    decreases |outputs|
  {
    if outputs == [] then (nodes, [])
    else
      var axis := carrier(outputs[0]);
      if axis.Some? && axis.value > 0 then
        var (rest, outs) := MoveOutputs(nodes + [Wired(Axis(Move(axis.value, 0)), [outputs[0]], 1)], outputs[1..], carrier);
        (rest, [Outlet(|nodes|, 0)] + outs)
      else
        var (rest, outs) := MoveOutputs(nodes, outputs[1..], carrier);
        (rest, [outputs[0]] + outs)
  }

  lemma {:induction false} PlanFits(lib: Library, g: Graph, shared: set<nat>, join: bool, k: nat)
    requires k <= |g| && PlanOf(lib, g, shared, join, k).Some?
    ensures Fitting(g, PlanOf(lib, g, shared, join, k).value.hosts)
  {
    hide ChangeAxes, CarriesThrough, FirstOf, GainsAxis, BatchedEinSum, Shifted;
    if k > 0 {
      PlanFits(lib, g, shared, join, k - 1);
    }
  }

  /** `batchify`'s two passes: nothing when an op refuses the axis or a shared name is
      not an input's. */
  function Batched(lib: Library, g: Graph, shared: set<nat>): (r: Option<(Plan, Target)>)
    requires Ordered(g)
    ensures r.Some? ==> PlanOf(lib, g, shared, Joins(g, shared), |g|) == Some(r.value.0)
    ensures r.Some? ==> Fitting(g, r.value.0.hosts)
                        && r.value.1 == WireOf(g, shared, Joins(g, shared), r.value.0.hosts, |g|)
  {
    if exists id :: id in shared && !(id < |g| && g[id].Source?) then None
    else
      var join := Joins(g, shared);
      match PlanOf(lib, g, shared, join, |g|)
      case None => None
      case Some(plan) =>
        PlanFits(lib, g, shared, join, |g|);
        Some((plan, WireOf(g, shared, join, plan.hosts, |g|)))
  }

  // ---- The passes as they run ----

  method PlanHosts(lib: Library, g: Graph, shared: set<nat>, join: bool) returns (r: Option<Plan>)
    ensures r == PlanOf(lib, g, shared, join, |g|)
  {
    var carried, hosts := {}, map[];
    var id := 0;
    while id < |g|
      invariant 0 <= id <= |g|
      invariant PlanOf(lib, g, shared, join, id) == Some(Plan(carried, hosts))
    {
      match g[id] {
        case Source(fact) =>
          if id !in shared && Carrier(fact).None? && !Collapsed(fact, join) {
            carried := carried + {id};
          }
        case Wired(op, inputs, outputs) =>
          var flags := Flags(inputs, carried);
          if true in flags {
            var hosted := Host(lib, op, outputs, flags);
            if hosted.None? {
              StaysRefused(lib, g, shared, join, id + 1, |g|);
              return None;
            }
            hosts := hosts[id := hosted.value];
            carried := carried + {id};
          }
      }
      id := id + 1;
    }
    r := Some(Plan(carried, hosts));
  }

  lemma {:induction false} StaysRefused(lib: Library, g: Graph, shared: set<nat>, join: bool, j: nat, k: nat)
    requires j <= k <= |g| && PlanOf(lib, g, shared, join, j).None?
    ensures PlanOf(lib, g, shared, join, k).None?
    decreases k
  {
    if j < k {
      StaysRefused(lib, g, shared, join, j, k - 1);
    }
  }

  method PadAll(nodes: Graph, inputs: seq<Outlet>, pad: seq<nat>, spread: bool) returns (r: Graph, wires: seq<Outlet>)
    requires forall slot | slot in pad :: slot < |inputs|
    ensures (r, wires) == PadSlots(nodes, inputs, pad, spread)
  {
    r, wires := nodes, inputs;
    var i := 0;
    while i < |pad|
      invariant 0 <= i <= |pad| && |wires| == |inputs|
      invariant forall slot | slot in pad[i..] :: slot < |wires|
      invariant PadSlots(nodes, inputs, pad, spread) == PadSlots(r, wires, pad[i..], spread)
    {
      var slot := pad[i];
      assert slot in pad && forall x | x in pad[i..] :: x in pad;
      r := r + [Wired(Axis(Add(0)), [wires[slot]], 1)];
      var wire := Outlet(|r| - 1, 0);
      if spread {
        r := r + [Wired(ToBatch, [wire], 1)];
        wire := Outlet(|r| - 1, 0);
      }
      wires := wires[slot := wire];
      assert pad[i..][1..] == pad[i + 1..] && forall x | x in pad[i..][1..] :: x in pad[i..];
      i := i + 1;
    }
  }

  lemma NothingPadded(nodes: Graph, inputs: seq<Outlet>)
    ensures PadSlots(nodes, inputs, [], false) == (nodes, inputs)
  {}

  method WireAll(g: Graph, shared: set<nat>, join: bool, hosts: map<nat, Hosted>) returns (t: Target)
    requires Ordered(g) && Fitting(g, hosts)
    ensures t == WireOf(g, shared, join, hosts, |g|)
  {
    hide PadSlots, SourceNodes, Mapped, AllOutlets;
    var nodes, mapping, interface := [], [], map[];
    var id := 0;
    while id < |g|
      invariant 0 <= id <= |g|
      invariant Target(nodes, mapping, interface) == WireOf(g, shared, join, hosts, id)
    {
      match g[id] {
        case Source(fact) =>
          var (more, interior) := SourceNodes(fact, id !in shared, join, |nodes|);
          interface := interface[id := |nodes|];
          nodes := nodes + more;
          mapping := mapping + [[interior]];
        case Wired(op, inputs, outputs) =>
          assert InputsBefore(g, inputs, id);
          var wires := Mapped(mapping, inputs);
          var replaced := op;
          NothingPadded(nodes, wires);
          if id in hosts {
            nodes, wires := PadAll(nodes, wires, hosts[id].pad, hosts[id].spread);
            if hosts[id].op.Some? {
              replaced := hosts[id].op.value;
            }
          }
          mapping := mapping + [AllOutlets(|nodes|, outputs)];
          nodes := nodes + [Wired(replaced, wires, outputs)];
      }
      id := id + 1;
    }
    t := Target(nodes, mapping, interface);
  }

  /** The whole transformation, up to the outputs' moves. */
  method Transform(lib: Library, g: Graph, shared: set<nat>) returns (r: Option<(Plan, Target)>)
    requires Ordered(g)
    ensures r == Batched(lib, g, shared)
  {
    var unknown := exists id :: id in shared && !(id < |g| && g[id].Source?);
    if unknown {
      return None;
    }
    var join := false;
    var id := 0;
    while id < |g|
      invariant 0 <= id <= |g|
      invariant join <==> exists j :: 0 <= j < id && g[j].Source? && j !in shared && Carrier(g[j].fact).Some?
    {
      join := join || (g[id].Source? && id !in shared && Carrier(g[id].fact).Some?);
      id := id + 1;
    }
    var plan := PlanHosts(lib, g, shared, join);
    if plan.None? {
      return None;
    }
    PlanFits(lib, g, shared, join, |g|);
    var t := WireAll(g, shared, join, plan.value.hosts);
    r := Some((plan.value, t));
  }

  /** The outputs' moves, output after output, each by the fact its own wire has. */
  method MoveAll(nodes: Graph, outputs: seq<Outlet>, carrier: Outlet -> Option<nat>) returns (r: Graph, outs: seq<Outlet>)
    ensures (r, outs) == MoveOutputs(nodes, outputs, carrier)
  {
    r, outs := nodes, [];
    var i := 0;
    while i < |outputs|
      invariant 0 <= i <= |outputs| == i + |outputs[i..]|
      invariant MoveOutputs(nodes, outputs, carrier).0 == MoveOutputs(r, outputs[i..], carrier).0
      invariant MoveOutputs(nodes, outputs, carrier).1 == outs + MoveOutputs(r, outputs[i..], carrier).1
    {
      var output := outputs[i];
      var rest := outputs[i..];
      assert rest[0] == output && rest[1..] == outputs[i + 1..];
      var axis := carrier(output);
      if axis.Some? && axis.value > 0 {
        r := r + [Wired(Axis(Move(axis.value, 0)), [output], 1)];
        output := Outlet(|r| - 1, 0);
      }
      assert outs + ([output] + MoveOutputs(r, outputs[i + 1..], carrier).1)
             == (outs + [output]) + MoveOutputs(r, outputs[i + 1..], carrier).1;
      outs := outs + [output];
      i := i + 1;
    }
    assert outputs[i..] == [] && outs + [] == outs;
  }

  /** The whole transformation: both passes, then the outputs mapped and moved. */
  method TransformAll(lib: Library, g: Graph, shared: set<nat>, outputs: seq<Outlet>, carrier: Outlet -> Option<nat>)
    returns (r: Option<(Graph, seq<Outlet>)>)
    requires Ordered(g) && InputsBefore(g, outputs, |g|)
    ensures r.None? <==> Batched(lib, g, shared).None?
    ensures r.Some? ==>
      var t := Batched(lib, g, shared).value.1;
      && (forall o | o in outputs :: o.node < |t.mapping| && o.slot < |t.mapping[o.node]|)
      && r.value == MoveOutputs(t.nodes, Mapped(t.mapping, outputs), carrier)
  {
    var passes := Transform(lib, g, shared);
    if passes.None? {
      return None;
    }
    var t := passes.value.1;
    var wires := [];
    var i := 0;
    while i < |outputs|
      invariant 0 <= i <= |outputs| && |wires| == i
      invariant forall s | 0 <= s < i :: wires[s] == t.mapping[outputs[s].node][outputs[s].slot]
    {
      assert outputs[i] in outputs;
      wires := wires + [t.mapping[outputs[i].node][outputs[i].slot]];
      i := i + 1;
    }
    assert wires == Mapped(t.mapping, outputs);
    var nodes, outs := MoveAll(t.nodes, wires, carrier);
    r := Some((nodes, outs));
  }
}
