/** When batchify answers, and what of the graph it changes: where the batch axis goes, by
    the wires alone, which ops take it, and the facts of the interface it leaves. */
module Hosting {
  import opened Outcomes
  import opened AxisOps
  import opened EinSums
  import opened Graphs
  import opened Outlets
  import opened Batchify
  import opened BatchRuns
  import opened BatchGraphs

  // ---- Where the axis goes ----

  predicate FirstSized(fact: seq<Dim>, axis: nat) {
    axis < |fact| && fact[axis].Sized? && forall k | 0 <= k < axis :: fact[k].Fixed?
  }

  /** Some input that is not shared has the batch already. */
  ghost predicate HasBatch(g: Graph, shared: set<nat>) {
    exists id, axis: nat :: 0 <= id < |g| && id !in shared && g[id].Source? && FirstSized(g[id].fact, axis)
  }

  /** Such an input's batch is elsewhere, and this one's leading extent of one is its place. */
  ghost predicate Joining(g: Graph, shared: set<nat>, fact: seq<Dim>) {
    HasBatch(g, shared) && fact != [] && fact[0] == Fixed(1) && forall axis: nat :: !FirstSized(fact, axis)
  }

  /** The inputs that are given an axis they had not, and whatever reads one of them. */
  ghost predicate Reached(g: Graph, shared: set<nat>, id: nat)
    decreases id
  {
    id < |g|
    && match g[id]
       case Source(fact) => id !in shared && (forall axis: nat :: !FirstSized(fact, axis)) && !Joining(g, shared, fact)
       case Wired(_, inputs, _) => exists s :: 0 <= s < |inputs| && inputs[s].node < id && Reached(g, shared, inputs[s].node)
  }

  ghost predicate FirstReached(g: Graph, shared: set<nat>, inputs: seq<Outlet>, s: nat) {
    && s < |inputs| && Reached(g, shared, inputs[s].node)
    && forall r | 0 <= r < s :: !Reached(g, shared, inputs[r].node)
  }

  // ---- Which ops take it ----

  /** The op, whose library answers for one extra leading axis, carries it to every output. */
  predicate CarriesAxis(lib: Library, name: nat, outputs: nat, slot: nat) {
    var answer := lib.changeAxes(name, In(slot), Add(0));
    answer.Some? && forall out | 0 <= out < outputs :: (Out(out), Add(0)) in answer.value.changes
  }

  /** An axis edit, an elementwise op and a concatenation always take the axis, and an einsum
      with a label list for every input; a library op if it carries it from the first slot
      the axis reaches. */
  ghost predicate TakesAxis(lib: Library, g: Graph, shared: set<nat>, id: nat)
    requires id < |g| && g[id].Wired?
  {
    var node := g[id];
    match node.op
    case Axis(_) => true
    case Each(_) => true
    case Concat(_) => true
    case Einsum(sum) => |sum.ins| == |node.inputs|
    case ToBatch => false
    case Other(name) => exists s: nat :: FirstReached(g, shared, node.inputs, s) && CarriesAxis(lib, name, node.outputs, s)
  }

  predicate Ascending(pad: seq<nat>) {
    forall i, j | 0 <= i < j < |pad| :: pad[i] < pad[j]
  }

  /** `pad` lists, in the order of the changes, the slots these reach that the axis does not. */
  ghost predicate PadsOf(g: Graph, shared: set<nat>, inputs: seq<Outlet>, changes: seq<(InOut, AxisOp)>, pad: seq<nat>) {
    exists picks: seq<nat> :: IsPick(g, shared, inputs, changes, pad, picks)
  }

  ghost predicate IsPick(g: Graph, shared: set<nat>, inputs: seq<Outlet>, changes: seq<(InOut, AxisOp)>, pad: seq<nat>,
                         picks: seq<nat>)
  {
    && |picks| == |pad| && Ascending(picks)
    && (forall i | 0 <= i < |picks| :: picks[i] < |changes| && changes[picks[i]].0 == In(pad[i]))
    && forall k | 0 <= k < |changes| :: k in picks <==> Unpadded(g, shared, inputs, changes[k].0)
  }

  ghost predicate Unpadded(g: Graph, shared: set<nat>, inputs: seq<Outlet>, io: InOut) {
    io.In? && io.slot < |inputs| && !Reached(g, shared, inputs[io.slot].node)
  }

  /** What a reached op is hosted as: a library op as it answers, with a rank pad on every
      slot the answer changes and the axis does not reach; operands of an elementwise op or a
      concatenation that the axis does not reach are padded, and broadcast for the latter. */
  ghost predicate HostedAs(lib: Library, g: Graph, shared: set<nat>, id: nat, hosted: Hosted)
    requires id < |g| && g[id].Wired?
  {
    var node := g[id];
    && hosted.spread == node.op.Concat?
    && match node.op
       case Other(name) =>
         exists s: nat ::
           && FirstReached(g, shared, node.inputs, s) && CarriesAxis(lib, name, node.outputs, s)
           && var answer := lib.changeAxes(name, In(s), Add(0)).value;
              hosted.op == answer.substitute && PadsOf(g, shared, node.inputs, answer.changes, hosted.pad)
       case Each(_) => hosted.op == None && PadsUnreached(g, shared, node.inputs, hosted.pad)
       case Concat(axis) => hosted.op == Some(Concat(axis + 1)) && PadsUnreached(g, shared, node.inputs, hosted.pad)
       case _ => hosted.op.Some? && hosted.pad == []
  }

  ghost predicate PadsUnreached(g: Graph, shared: set<nat>, inputs: seq<Outlet>, pad: seq<nat>) {
    && Ascending(pad)
    && forall s: nat :: s in pad <==> s < |inputs| && !Reached(g, shared, inputs[s].node)
  }

  // ---- The plan, in those terms ----

  lemma {:induction false} CarrierIsFirst(fact: seq<Dim>)
    ensures match Carrier(fact)
            case Some(axis) => FirstSized(fact, axis) && forall other: nat :: FirstSized(fact, other) ==> other == axis
            case None => forall axis: nat :: !FirstSized(fact, axis)
  {
    match Carrier(fact) {
      case Some(axis) =>
        forall k | 0 <= k < axis
          ensures fact[k].Fixed?
        {
          assert fact[..axis][k] == fact[k];
        }
      case None =>
    }
  }

  lemma JoinsIsHasBatch(g: Graph, shared: set<nat>)
    ensures Joins(g, shared) <==> HasBatch(g, shared)
  {
    if Joins(g, shared) {
      var id :| 0 <= id < |g| && g[id].Source? && id !in shared && Carrier(g[id].fact).Some?;
      CarrierIsFirst(g[id].fact);
      assert FirstSized(g[id].fact, Carrier(g[id].fact).value);
    }
    if HasBatch(g, shared) {
      var id, axis: nat :| 0 <= id < |g| && id !in shared && g[id].Source? && FirstSized(g[id].fact, axis);
      CarrierIsFirst(g[id].fact);
    }
  }

  lemma GainsIsReached(g: Graph, shared: set<nat>, id: nat)
    requires id < |g| && g[id].Source?
    ensures GainsAxis(g[id], id, shared, Joins(g, shared)) <==> Reached(g, shared, id)
  {
    CarrierIsFirst(g[id].fact);
    JoinsIsHasBatch(g, shared);
  }

  /** The plan carries exactly the nodes reached. */
  lemma {:induction false} CarriedIsReached(lib: Library, g: Graph, shared: set<nat>, k: nat, id: nat)
    requires id < k <= |g| && Ordered(g) && PlanOf(lib, g, shared, Joins(g, shared), k).Some?
    ensures id in PlanOf(lib, g, shared, Joins(g, shared), k).value.carried <==> Reached(g, shared, id)
    decreases id
  {
    hide Host, GainsAxis, Joins, PlanOf, HasBatch;
    PlanSaysSo(lib, g, shared, k, id);
    var plan := PlanOf(lib, g, shared, Joins(g, shared), k).value;
    match g[id] {
      case Source(_) => GainsIsReached(g, shared, id);
      case Wired(_, inputs, _) =>
        assert InputsBefore(g, inputs, id);
        forall s | 0 <= s < |inputs|
          ensures inputs[s].node < id && (inputs[s].node in plan.carried <==> Reached(g, shared, inputs[s].node))
        {
          assert inputs[s] in inputs;
          CarriedIsReached(lib, g, shared, k, inputs[s].node);
        }
        var flags := Flags(inputs, plan.carried);
        if true in flags {
          var s :| 0 <= s < |flags| && flags[s];
          assert Reached(g, shared, inputs[s].node);
        }
        if Reached(g, shared, id) {
          var s :| 0 <= s < |inputs| && inputs[s].node < id && Reached(g, shared, inputs[s].node);
          assert flags[s];
        }
    }
  }

  ghost function ReachedFlags(g: Graph, shared: set<nat>, inputs: seq<Outlet>): (r: seq<bool>)
    ensures |r| == |inputs| && forall s | 0 <= s < |inputs| :: r[s] == Reached(g, shared, inputs[s].node)
  {
    seq(|inputs|, s requires 0 <= s < |inputs| => Reached(g, shared, inputs[s].node))
  }

  lemma {:induction false} FirstOfIs(flags: seq<bool>)
    requires true in flags
    ensures FirstOf(flags) < |flags| && flags[FirstOf(flags)] && forall r | 0 <= r < FirstOf(flags) :: !flags[r]
  {
    if !flags[0] {
      assert flags == [flags[0]] + flags[1..];
      FirstOfIs(flags[1..]);
    }
  }

  /** The positions of the changes whose slots are padded. */
  function Picks(changes: seq<(InOut, AxisOp)>, flags: seq<bool>, from: nat): seq<nat>
    decreases |changes| - from
  {
    if from >= |changes| then []
    else
      var io := changes[from].0;
      (if io.In? && io.slot < |flags| && !flags[io.slot] then [from] else []) + Picks(changes, flags, from + 1)
  }

  lemma {:induction false} PicksArePads(changes: seq<(InOut, AxisOp)>, flags: seq<bool>, from: nat)
    requires from <= |changes|
    ensures var (picks, pad) := (Picks(changes, flags, from), Pads(changes[from..], flags));
            && |picks| == |pad| && Ascending(picks)
            && (forall i | 0 <= i < |picks| :: from <= picks[i] < |changes| && changes[picks[i]].0 == In(pad[i]))
            && forall k | from <= k < |changes| ::
                 k in picks <==> changes[k].0.In? && changes[k].0.slot < |flags| && !flags[changes[k].0.slot]
    decreases |changes| - from
  {
    if from < |changes| {
      PicksArePads(changes, flags, from + 1);
      assert changes[from..][1..] == changes[from + 1..];
    }
  }

  lemma PadsArePicked(g: Graph, shared: set<nat>, inputs: seq<Outlet>, changes: seq<(InOut, AxisOp)>)
    ensures PadsOf(g, shared, inputs, changes, Pads(changes, ReachedFlags(g, shared, inputs)))
  {
    hide Reached;
    var flags := ReachedFlags(g, shared, inputs);
    PicksArePads(changes, flags, 0);
    assert changes[0..] == changes;
    assert IsPick(g, shared, inputs, changes, Pads(changes, flags), Picks(changes, flags, 0));
  }

  lemma AscendingFront(from: nat, sofar: seq<nat>)
    requires Ascending(sofar) && forall s | s in sofar :: from < s
    ensures Ascending([from] + sofar)
  {
    forall j | 0 <= j < |sofar|
      ensures from < sofar[j]
    {
      assert sofar[j] in sofar;
    }
  }

  lemma {:induction false} PadsAreSorted(from: nat, flags: seq<bool>, outputs: nat)
    ensures Ascending(Pads(Everywhere(from, |flags|, outputs, Add(0)), flags))
    ensures forall s: nat :: s in Pads(Everywhere(from, |flags|, outputs, Add(0)), flags) <==> from <= s < |flags| && !flags[s]
    decreases |flags| - from
  {
    hide Ascending;
    if from < |flags| {
      PadsAreSorted(from + 1, flags, outputs);
      var rest := Everywhere(from + 1, |flags|, outputs, Add(0));
      assert Everywhere(from, |flags|, outputs, Add(0))[1..] == rest;
      var r, sofar := Pads(Everywhere(from, |flags|, outputs, Add(0)), flags), Pads(rest, flags);
      if !flags[from] {
        assert r == [from] + sofar;
        AscendingFront(from, sofar);
      } else {
        assert r == sofar;
      }
    } else {
      PadsOfOuts(0, outputs, flags);
      assert Ascending([]) by { NothingAscends(); }
    }
  }

  lemma NothingAscends()
    ensures Ascending([])
  {}

  lemma EverywhereIsHosted(g: Graph, shared: set<nat>, inputs: seq<Outlet>, outputs: nat)
    ensures var changes := Everywhere(0, |inputs|, outputs, Add(0));
            && PadsUnreached(g, shared, inputs, Pads(changes, ReachedFlags(g, shared, inputs)))
            && forall slot | 0 <= slot < outputs :: (Out(slot), Add(0)) in changes
  {
    hide Reached;
    PadsAreSorted(0, ReachedFlags(g, shared, inputs), outputs);
    forall slot | 0 <= slot < outputs
      ensures (Out(slot), Add(0)) in Everywhere(0, |inputs|, outputs, Add(0))
    {
      EverywhereReaches(0, |inputs|, outputs, slot);
    }
  }

  lemma OneIsFirst(g: Graph, shared: set<nat>, inputs: seq<Outlet>, r: nat, s: nat)
    requires FirstReached(g, shared, inputs, r) && FirstReached(g, shared, inputs, s)
    ensures r == s
  {
    hide Reached;
  }

  /** A reached op is hosted if and only if it takes the axis. */
  lemma HostTakes(lib: Library, g: Graph, shared: set<nat>, id: nat, flags: seq<bool>)
    requires id < |g| && g[id].Wired? && flags == ReachedFlags(g, shared, g[id].inputs) && true in flags
    ensures var hosted := Host(lib, g[id].op, g[id].outputs, flags);
            && (hosted.Some? <==> TakesAxis(lib, g, shared, id))
            && (hosted.Some? ==> HostedAs(lib, g, shared, id, hosted.value))
  {
    hide Reached, Everywhere, Pads, BatchedEinSum, Shifted, PadsOf, PadsUnreached;
    var inputs := g[id].inputs;
    FirstOfIs(flags);
    EverywhereIsHosted(g, shared, inputs, g[id].outputs);
    match g[id].op {
      case Other(name) =>
        var s := FirstOf(flags);
        assert FirstReached(g, shared, inputs, s);
        forall r: nat | FirstReached(g, shared, inputs, r)
          ensures r == s
        {
          OneIsFirst(g, shared, inputs, r, s);
        }
        if CarriesAxis(lib, name, g[id].outputs, s) {
          PadsArePicked(g, shared, inputs, lib.changeAxes(name, In(s), Add(0)).value.changes);
        }
      case _ =>
    }
  }

  lemma {:induction false} FlagsAreReached(lib: Library, g: Graph, shared: set<nat>, k: nat, inputs: seq<Outlet>)
    requires k <= |g| && Ordered(g) && PlanOf(lib, g, shared, Joins(g, shared), k).Some?
    requires forall o | o in inputs :: o.node < k
    ensures Flags(inputs, PlanOf(lib, g, shared, Joins(g, shared), k).value.carried) == ReachedFlags(g, shared, inputs)
  {
    hide Reached, PlanOf, Joins;
    var carried := PlanOf(lib, g, shared, Joins(g, shared), k).value.carried;
    forall s | 0 <= s < |inputs|
      ensures Flags(inputs, carried)[s] == ReachedFlags(g, shared, inputs)[s]
    {
      assert inputs[s] in inputs;
      CarriedIsReached(lib, g, shared, k, inputs[s].node);
    }
  }

  /** Every op the axis reaches, among the first `k` nodes, takes it. */
  ghost predicate AllTake(lib: Library, g: Graph, shared: set<nat>, k: nat)
    requires k <= |g|
  {
    forall id: nat | id < k && g[id].Wired? && Reached(g, shared, id) :: TakesAxis(lib, g, shared, id)
  }

  /** The node reads a wire the axis reaches exactly when it is reached. */
  lemma WiredReached(g: Graph, shared: set<nat>, id: nat)
    requires Ordered(g) && id < |g| && g[id].Wired?
    ensures Reached(g, shared, id) <==> true in ReachedFlags(g, shared, g[id].inputs)
  {
    var inputs := g[id].inputs;
    assert InputsBefore(g, inputs, id);
    var flags := ReachedFlags(g, shared, inputs);
    if Reached(g, shared, id) {
      var s :| 0 <= s < |inputs| && inputs[s].node < id && Reached(g, shared, inputs[s].node);
      assert flags[s];
    }
    if true in flags {
      var s :| 0 <= s < |flags| && flags[s];
      assert inputs[s] in inputs;
    }
  }

  /** The plan is made if and only if every op the axis reaches takes it. */
  lemma {:induction false} PlannedExactly(lib: Library, g: Graph, shared: set<nat>, k: nat)
    requires k <= |g| && Ordered(g)
    ensures PlanOf(lib, g, shared, Joins(g, shared), k).Some? <==> AllTake(lib, g, shared, k)
  {
    hide Host, GainsAxis, Joins, Reached, TakesAxis, Flags;
    if k > 0 {
      var id := k - 1;
      PlannedExactly(lib, g, shared, id);
      if PlanOf(lib, g, shared, Joins(g, shared), id).Some? && g[id].Wired? {
        assert InputsBefore(g, g[id].inputs, id);
        FlagsAreReached(lib, g, shared, id, g[id].inputs);
        WiredReached(g, shared, id);
        if true in ReachedFlags(g, shared, g[id].inputs) {
          HostTakes(lib, g, shared, id, ReachedFlags(g, shared, g[id].inputs));
        }
      }
    }
  }

  /** The plan in the terms of the wires: what it carries, and what each op is hosted as. */
  ghost predicate PlansReached(lib: Library, g: Graph, shared: set<nat>, plan: Plan) {
    && (forall id: nat :: id in plan.carried <==> Reached(g, shared, id))
    && (forall id: nat :: id in plan.hosts <==> id < |g| && g[id].Wired? && Reached(g, shared, id))
    && forall id: nat | id in plan.hosts && id < |g| && g[id].Wired? :: HostedAs(lib, g, shared, id, plan.hosts[id])
  }

  lemma ReachedIsInside(g: Graph, shared: set<nat>, id: nat)
    requires Reached(g, shared, id)
    ensures id < |g|
  {}

  lemma PlanReaches(lib: Library, g: Graph, shared: set<nat>, plan: Plan)
    requires Ordered(g) && PlanOf(lib, g, shared, Joins(g, shared), |g|) == Some(plan)
    ensures PlansReached(lib, g, shared, plan)
  {
    hide Host, Joins, Reached, PlanOf, HostedAs, GainsAxis, Flags;
    forall id: nat
      ensures id in plan.carried <==> Reached(g, shared, id)
      ensures id in plan.hosts <==> id < |g| && g[id].Wired? && Reached(g, shared, id)
      ensures id in plan.hosts && id < |g| && g[id].Wired? ==> HostedAs(lib, g, shared, id, plan.hosts[id])
    {
      if id < |g| {
        CarriedIsReached(lib, g, shared, |g|, id);
        PlanSaysSo(lib, g, shared, |g|, id);
        if g[id].Wired? {
          assert InputsBefore(g, g[id].inputs, id);
          FlagsAreReached(lib, g, shared, |g|, g[id].inputs);
          if true in ReachedFlags(g, shared, g[id].inputs) {
            HostTakes(lib, g, shared, id, ReachedFlags(g, shared, g[id].inputs));
          }
        } else {
          SourcesAreNotHosted(lib, g, shared, |g|, id);
        }
      } else if Reached(g, shared, id) {
        ReachedIsInside(g, shared, id);
      }
    }
  }

  lemma {:induction false} SourcesAreNotHosted(lib: Library, g: Graph, shared: set<nat>, k: nat, id: nat)
    requires k <= |g| && id < |g| && g[id].Source? && PlanOf(lib, g, shared, Joins(g, shared), k).Some?
    ensures id !in PlanOf(lib, g, shared, Joins(g, shared), k).value.hosts
  {
    hide Host, GainsAxis, Joins, Flags;
    if k > 0 {
      SourcesAreNotHosted(lib, g, shared, k - 1, id);
    }
  }

  /** `batchify` answers if and only if every shared name is an input's and every op the axis
      reaches takes it; and its plan is then the wires': the inputs given the axis and all
      that is computed from them carry it, and each op of these is hosted as said. */
  lemma BatchifiedExactly(lib: Library, g: Graph, shared: set<nat>)
    requires Ordered(g)
    ensures var r := Batched(lib, g, shared);
            && (r.Some? <==> (forall id | id in shared :: id < |g| && g[id].Source?) && AllTake(lib, g, shared, |g|))
            && (r.Some? ==> PlansReached(lib, g, shared, r.value.0))
  {
    hide PlanOf, Joins, AllTake, PlansReached, WireOf;
    PlannedExactly(lib, g, shared, |g|);
    var r := Batched(lib, g, shared);
    if r.Some? {
      PlanReaches(lib, g, shared, r.value.0);
    }
  }

  // ---- The interface it leaves ----

  /** What the source's fact becomes: as it was where it is shared or has the batch in front;
      with the batch moved to the front where it has it further in; with the batch in place of
      its leading one where it joins another's; and with the batch put in front otherwise. */
  ghost predicate InterfaceFact(g: Graph, shared: set<nat>, id: nat, fact: seq<Dim>)
    requires id < |g| && g[id].Source?
  {
    var was := g[id].fact;
    if id in shared then fact == was
    else if Joining(g, shared, was) then fact == [Sized] + was[1..]
    else if forall axis: nat :: !FirstSized(was, axis) then fact == [Sized] + was
    else exists axis: nat :: FirstSized(was, axis) && fact == [was[axis]] + was[..axis] + was[axis + 1..]
  }

  /** The target's sources are the interfaces of the original's, one each and in their order. */
  ghost predicate HasInterfaces(g: Graph, shared: set<nat>, t: Target, k: nat)
    requires k <= |g|
  {
    && (forall id: nat :: id in t.interface <==> id < k && g[id].Source?)
    && (forall id: nat | id in t.interface :: t.interface[id] < |t.nodes|)
    && (forall a, b | a in t.interface && b in t.interface && a < b :: t.interface[a] < t.interface[b])
    && (forall id: nat | id in t.interface :: IsInterface(g, shared, t, id))
    && forall at | 0 <= at < |t.nodes| && t.nodes[at].Source? :: exists id: nat :: id in t.interface && t.interface[id] == at
  }

  ghost predicate IsInterface(g: Graph, shared: set<nat>, t: Target, id: nat)
    requires id in t.interface
  {
    && id < |g| && g[id].Source? && t.interface[id] < |t.nodes| && t.nodes[t.interface[id]].Source?
    && InterfaceFact(g, shared, id, t.nodes[t.interface[id]].fact)
  }

  lemma SourceFact(g: Graph, shared: set<nat>, id: nat, at: nat)
    requires id < |g| && g[id].Source?
    ensures var nodes := SourceNodes(g[id].fact, id !in shared, Joins(g, shared), at).0;
            && |nodes| > 0 && nodes[0].Source? && InterfaceFact(g, shared, id, nodes[0].fact)
            && forall k | 0 < k < |nodes| :: nodes[k].Wired?
  {
    hide Joins, HasBatch;
    var fact := g[id].fact;
    CarrierIsFirst(fact);
    JoinsIsHasBatch(g, shared);
    if Carrier(fact) == Some(0) {
      assert FirstSized(fact, 0);
      assert [fact[0]] + fact[..0] + fact[1..] == fact;
    } else if Carrier(fact).Some? {
      assert FirstSized(fact, Carrier(fact).value);
    }
  }

  lemma {:induction false} PadsAreWired(nodes: Graph, inputs: seq<Outlet>, pad: seq<nat>, spread: bool)
    requires forall slot | slot in pad :: slot < |inputs|
    ensures forall at | |nodes| <= at < |PadSlots(nodes, inputs, pad, spread).0| :: PadSlots(nodes, inputs, pad, spread).0[at].Wired?
    decreases |pad|
  {
    if pad != [] {
      var slot := pad[0];
      assert slot in pad && forall x | x in pad[1..] :: x in pad;
      var ranked := nodes + [Wired(Axis(Add(0)), [inputs[slot]], 1)];
      var padded := if spread then ranked + [Wired(ToBatch, [Outlet(|nodes|, 0)], 1)] else ranked;
      var r := PadSlots(nodes, inputs, pad, spread).0;
      PadsAreWired(padded, inputs[slot := Outlet(|padded| - 1, 0)], pad[1..], spread);
      forall at | |nodes| <= at < |r|
        ensures r[at].Wired?
      {
        if at < |padded| {
          assert r[at] == r[..|padded|][at];
        }
      }
    }
  }

  lemma NodesAdded(g: Graph, shared: set<nat>, hosts: map<nat, Hosted>, t: Target, id: nat)
    requires Ordered(g) && id < |g| && |t.mapping| == id && Fitting(g, hosts)
    requires forall j | 0 <= j < id :: |t.mapping[j]| == OutputsOf(g[j])
    ensures var u := WireNode(g, shared, Joins(g, shared), hosts, t, id);
            && |t.nodes| < |u.nodes| && u.nodes[..|t.nodes|] == t.nodes
            && (forall at | |t.nodes| < at < |u.nodes| :: u.nodes[at].Wired?)
            && if g[id].Source? then
                 && u.interface == t.interface[id := |t.nodes|] && u.nodes[|t.nodes|].Source?
                 && InterfaceFact(g, shared, id, u.nodes[|t.nodes|].fact)
               else u.interface == t.interface && u.nodes[|t.nodes|].Wired?
  {
    hide Joins, InterfaceFact, SourceNodes, PadSlots;
    var u := WireNode(g, shared, Joins(g, shared), hosts, t, id);
    match g[id] {
      case Source(fact) => SourceFact(g, shared, id, |t.nodes|);
      case Wired(op, inputs, outputs) =>
        assert InputsBefore(g, inputs, id);
        var hosted := if id in hosts then hosts[id] else Hosted(None, [], false);
        PadsAreWired(t.nodes, Mapped(t.mapping, inputs), hosted.pad, hosted.spread);
    }
  }

  lemma {:induction false} InterfacesUpto(g: Graph, shared: set<nat>, hosts: map<nat, Hosted>, k: nat)
    requires Ordered(g) && Fitting(g, hosts) && k <= |g|
    ensures HasInterfaces(g, shared, WireOf(g, shared, Joins(g, shared), hosts, k), k)
  {
    hide Joins, InterfaceFact, WireNode, Ordered, Fitting;
    if k > 0 {
      InterfacesUpto(g, shared, hosts, k - 1);
      var t := WireOf(g, shared, Joins(g, shared), hosts, k - 1);
      NodesAdded(g, shared, hosts, t, k - 1);
      OneMoreInterface(g, shared, t, WireOf(g, shared, Joins(g, shared), hosts, k), k - 1);
    }
  }

  lemma InterfaceStays(g: Graph, shared: set<nat>, t: Target, u: Target, id: nat)
    requires id in t.interface && IsInterface(g, shared, t, id)
    requires id in u.interface && u.interface[id] == t.interface[id]
    requires |t.nodes| < |u.nodes| && u.nodes[..|t.nodes|] == t.nodes
    ensures IsInterface(g, shared, u, id)
  {
    hide InterfaceFact;
    assert u.nodes[u.interface[id]] == u.nodes[..|t.nodes|][u.interface[id]];
  }

  lemma InterfaceIsNew(g: Graph, shared: set<nat>, t: Target, u: Target, id: nat)
    requires id < |g| && g[id].Source? && id in u.interface && u.interface[id] == |t.nodes| < |u.nodes|
    requires u.nodes[|t.nodes|].Source? && InterfaceFact(g, shared, id, u.nodes[|t.nodes|].fact)
    ensures IsInterface(g, shared, u, id)
  {
    hide InterfaceFact;
  }

  lemma OneMoreInterface(g: Graph, shared: set<nat>, t: Target, u: Target, k: nat)
    requires k < |g| && HasInterfaces(g, shared, t, k)
    requires |t.nodes| < |u.nodes| && u.nodes[..|t.nodes|] == t.nodes
    requires forall at | |t.nodes| < at < |u.nodes| :: u.nodes[at].Wired?
    requires if g[k].Source? then
               && u.interface == t.interface[k := |t.nodes|] && u.nodes[|t.nodes|].Source?
               && InterfaceFact(g, shared, k, u.nodes[|t.nodes|].fact)
             else u.interface == t.interface && u.nodes[|t.nodes|].Wired?
    ensures HasInterfaces(g, shared, u, k + 1)
  {
    hide IsInterface, InterfaceFact;
    forall id: nat | id in u.interface
      ensures IsInterface(g, shared, u, id)
    {
      if id in t.interface {
        InterfaceStays(g, shared, t, u, id);
      } else {
        InterfaceIsNew(g, shared, t, u, id);
      }
    }
    forall at | 0 <= at < |u.nodes| && u.nodes[at].Source?
      ensures exists id: nat :: id in u.interface && u.interface[id] == at
    {
      if at < |t.nodes| {
        assert u.nodes[at] == u.nodes[..|t.nodes|][at];
        var id: nat :| id in t.interface && t.interface[id] == at;
        assert id in u.interface && u.interface[id] == at;
      } else {
        assert at == |t.nodes| && k in u.interface;
      }
    }
  }

  /** The batchified graph's inputs are the original's, one each and in their order, with the
      facts said. */
  lemma InterfaceFacts(lib: Library, g: Graph, shared: set<nat>)
    requires Ordered(g) && Batched(lib, g, shared).Some?
    ensures HasInterfaces(g, shared, Batched(lib, g, shared).value.1, |g|)
  {
    hide PlanOf, Joins, HasInterfaces, WireOf;
    InterfacesUpto(g, shared, Batched(lib, g, shared).value.0.hosts, |g|);
  }
}
