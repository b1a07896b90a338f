/** Building a plan: the evaluation order with its constants left out, and the flush
    lists of what is left. */
module PlanBuilding {
  import opened Outcomes
  import opened Outlets
  import opened Symbols
  import opened FlushLists
  import opened PlanTurns
  import EvalOrders
  import SymbolDeps

  /** The nodes each node reads. */
  function WiringOf<V>(nodes: seq<PlanNode<V>>): (w: EvalOrders.Wiring)
    ensures |w| == |nodes| && forall n | 0 <= n < |nodes| :: w[n] == NodesRead(nodes[n].inputs)
  {
    seq(|nodes|, n requires 0 <= n < |nodes| => NodesRead(nodes[n].inputs))
  }

  function NodesRead(inputs: seq<Outlet>): (r: seq<nat>)
    ensures |r| == |inputs| && forall k | 0 <= k < |inputs| :: r[k] == inputs[k].node
  {
    seq(|inputs|, k requires 0 <= k < |inputs| => inputs[k].node)
  }

  /** `order.retain`: the order without its constants. */
  function Retained<V>(nodes: seq<PlanNode<V>>, order: seq<nat>): seq<nat>
    requires InRange(order, |nodes|)
  {
    if order == [] then []
    else
      var last := |order| - 1;
      Retained(nodes, order[..last]) + if nodes[order[last]].konst.None? then [order[last]] else []
  }

  lemma {:induction false} RetainedExactly<V>(nodes: seq<PlanNode<V>>, order: seq<nat>, n: nat)
    requires InRange(order, |nodes|)
    ensures n in Retained(nodes, order) <==> n in order && nodes[n].konst.None?
  {
    if order != [] {
      var last := |order| - 1;
      RetainedExactly(nodes, order[..last], n);
      assert order == order[..last] + [order[last]];
    }
  }

  /** Each step kept is a step of the order, with what was kept before it. */
  lemma {:induction false} StepKept<V>(nodes: seq<PlanNode<V>>, order: seq<nat>, s: nat) returns (k: nat)
    requires InRange(order, |nodes|) && s < |Retained(nodes, order)|
    ensures k < |order| && order[k] == Retained(nodes, order)[s]
    ensures InRange(order[..k], |nodes|) && Retained(nodes, order)[..s] == Retained(nodes, order[..k])
  {
    var last := |order| - 1;
    var before := Retained(nodes, order[..last]);
    if s < |before| {
      k := StepKept(nodes, order[..last], s);
      assert order[..last][..k] == order[..k] && Retained(nodes, order)[..s] == before[..s];
    } else {
      k := last;
      assert Retained(nodes, order)[..s] == before;
    }
  }

  lemma {:induction false} FirstStep(order: seq<nat>, s: nat, n: nat)
    requires s <= |order| && n in order[..s]
    ensures StepOf(order, n) < s
  {
    if order[0] != n {
      assert order[1..][..s - 1] == order[..s][1..] && order[..s][0] == order[0];
      FirstStep(order[1..], s - 1, n);
    }
  }

  lemma {:induction false} OnlyStep(order: seq<nat>, s: nat)
    requires s < |order| && order[s] !in order[..s]
    ensures StepOf(order, order[s]) == s
  {
    if s > 0 {
      assert order[0] == order[..s][0];
      assert order[1..][..s - 1] == order[..s][1..];
      OnlyStep(order[1..], s - 1);
    }
  }

  /** What a graph promises its plan: wires to outputs that exist, model inputs that read
      nothing and are not constants, constants that read nothing and have one output. */
  ghost predicate Sound<V>(nodes: seq<PlanNode<V>>, inputs: seq<Outlet>, outputs: seq<Outlet>) {
    && (forall n | 0 <= n < |nodes| :: AllWired(nodes, nodes[n].inputs))
    && AllWired(nodes, inputs) && AllWired(nodes, outputs)
    && (forall o | o in inputs :: o.node < |nodes| ==> nodes[o.node].inputs == [] && nodes[o.node].konst.None?)
    && forall n | 0 <= n < |nodes| && nodes[n].konst.Some? :: |nodes[n].facts| == 1
  }

  predicate AllWired<V>(nodes: seq<PlanNode<V>>, wires: seq<Outlet>) {
    forall k | 0 <= k < |wires| :: wires[k].node < |nodes| && wires[k].slot < |nodes[wires[k].node].facts|
  }

  lemma StepAvailable<V>(plan: Plan<V>, order: seq<nat>, more: seq<Edge>, s: nat, i: Outlet)
    requires Sound(plan.nodes, plan.inputs, plan.outputs) && EvalOrders.Closed(WiringOf(plan.nodes), more)
    requires EvalOrders.Topological(WiringOf(plan.nodes), NodesRead(plan.inputs), more, order)
    requires plan.order == Retained(plan.nodes, order) && s < |plan.order|
    requires plan.order[s] < |plan.nodes| && i in plan.nodes[plan.order[s]].inputs
    ensures Available(plan, i, s)
  {
    hide EvalOrders.Deps;
    var nodes, wiring := plan.nodes, WiringOf(plan.nodes);
    var k := StepKept(nodes, order, s);
    var n := order[k];
    var x :| 0 <= x < |nodes[n].inputs| && nodes[n].inputs[x] == i;
    assert AllWired(nodes, nodes[n].inputs);
    if nodes[i.node].konst.None? {
      ReadersAreNoInputs(nodes, plan.inputs, plan.outputs, n);
      assert wiring[n][x] == i.node;
      EvalOrders.DepsExactly(wiring, more, n, i.node);
      assert EvalOrders.AllIn(EvalOrders.Deps(wiring, more, n), order[..k]);
      var z :| 0 <= z < |EvalOrders.Deps(wiring, more, n)| && EvalOrders.Deps(wiring, more, n)[z] == i.node;
      assert i.node in order[..k];
      RetainedExactly(nodes, order[..k], i.node);
      FirstStep(plan.order, s, i.node);
    }
  }

  lemma ReadersAreNoInputs<V>(nodes: seq<PlanNode<V>>, inputs: seq<Outlet>, outputs: seq<Outlet>, n: nat)
    requires Sound(nodes, inputs, outputs) && n < |nodes| && nodes[n].inputs != []
    ensures n !in NodesRead(inputs)
  {
    forall y | 0 <= y < |inputs|
      ensures inputs[y].node != n
    {
      assert inputs[y] in inputs;
    }
  }

  lemma StepsOnce<V>(nodes: seq<PlanNode<V>>, order: seq<nat>, s: nat)
    requires InRange(order, |nodes|) && forall i, j | 0 <= i < j < |order| :: order[i] != order[j]
    requires s < |Retained(nodes, order)|
    ensures var kept := Retained(nodes, order);
            kept[s] < |nodes| && StepOf(kept, kept[s]) == s && nodes[kept[s]].konst.None?
  {
    var kept := Retained(nodes, order);
    var k := StepKept(nodes, order, s);
    RetainedExactly(nodes, order[..k], kept[s]);
    RetainedExactly(nodes, order, kept[s]);
    OnlyStep(kept, s);
  }

  lemma OutputAvailable<V>(plan: Plan<V>, order: seq<nat>, o: Outlet)
    requires Sound(plan.nodes, plan.inputs, plan.outputs) && InRange(order, |plan.nodes|)
    requires plan.order == Retained(plan.nodes, order) && EvalOrders.AllIn(NodesRead(plan.outputs), order)
    requires o in plan.outputs
    ensures Available(plan, o, |plan.order|)
  {
    var x :| 0 <= x < |plan.outputs| && plan.outputs[x] == o;
    assert NodesRead(plan.outputs)[x] == o.node;
    if plan.nodes[o.node].konst.None? {
      RetainedExactly(plan.nodes, order, o.node);
      assert plan.order[..|plan.order|] == plan.order;
      FirstStep(plan.order, |plan.order|, o.node);
    }
  }

  /** `build`: the order of the tensor edges and the derived dependencies, its constants
      left out, with its flush lists; nothing exactly when they loop. */
  method Build<V>(nodes: seq<PlanNode<V>>, inputs: seq<Outlet>, outputs: seq<Outlet>, deps: seq<Edge>)
    returns (r: Option<Plan<V>>)
    requires Sound(nodes, inputs, outputs) && forall k | 0 <= k < |deps| :: deps[k].1 < |nodes|
    ensures r.Some? ==> WellBuilt(r.value) && r.value.nodes == nodes && r.value.inputs == inputs && r.value.outputs == outputs
    ensures r.Some? ==> Named(r.value)
    ensures r.None? <==> EvalOrders.Loops(WiringOf(nodes), NodesRead(inputs), deps, NodesRead(outputs))
    ensures r.Some? ==> forall e | e in deps :: Follows(nodes, r.value.order, NodesRead(inputs), e)
    ensures r.Some? ==> forall n: nat :: n in r.value.order <==>
      n < |nodes| && nodes[n].konst.None? && EvalOrders.Wanted(WiringOf(nodes), NodesRead(inputs), deps, NodesRead(outputs), n)
  {
    hide EvalOrders.Loops, EvalOrders.Topological, EvalOrders.Wanted;
    var wiring := WiringOf(nodes);
    ReadsInRange(nodes, inputs, outputs);
    var order := EvalOrders.EvalOrder(wiring, NodesRead(inputs), NodesRead(outputs), deps);
    if order.None? {
      return None;
    }
    OrderShape(wiring, NodesRead(inputs), deps, order.value);
    var kept := Retained(nodes, order.value);
    KeptInRange(nodes, inputs, outputs, order.value);
    var lists := BuildFlushList(nodes, kept, outputs);
    var symbols := SymbolsOfNodes(nodes);
    var plan := Plan(nodes, kept, lists, inputs, outputs, symbols);
    BuiltWell(plan, order.value, deps);
    forall e | e in deps
      ensures Follows(nodes, kept, NodesRead(inputs), e)
    {
      EdgeFollowed(nodes, NodesRead(inputs), deps, order.value, e);
    }
    forall n: nat
      ensures n in kept <==> n in order.value && n < |nodes| && nodes[n].konst.None?
    {
      RetainedExactly(nodes, order.value, n);
    }
    r := Some(plan);
  }

  /** The symbols of every output shape of every node. */
  method SymbolsOfNodes<V>(nodes: seq<PlanNode<V>>) returns (symbols: set<Symbol>)
    ensures symbols == NodeSymbols(nodes, |nodes|)
  {
    symbols := {};
    var n := 0;
    while n < |nodes|
      invariant 0 <= n <= |nodes| && symbols == NodeSymbols(nodes, n)
    {
      var o := 0;
      while o < |nodes[n].facts|
        invariant 0 <= o <= |nodes[n].facts|
        invariant symbols + FactSymbols(nodes[n].facts[o..]) == NodeSymbols(nodes, n) + FactSymbols(nodes[n].facts)
      {
        symbols := symbols + SymbolsInAll(nodes[n].facts[o]);
        o := o + 1;
      }
      n := n + 1;
    }
  }

  /** A step comes after what the edge says comes before it, and that, unless it is a
      constant, is a step; a model input waits for nothing. */
  predicate Follows<V>(nodes: seq<PlanNode<V>>, order: seq<nat>, inputs: seq<nat>, e: Edge) {
    e.0 in order && e.0 !in inputs && e.1 < |nodes| && nodes[e.1].konst.None?
    ==> e.1 in order && StepOf(order, e.1) < StepOf(order, e.0)
  }

  /** The order respects the extra edges, and leaving constants out keeps it so. */
  lemma EdgeFollowed<V>(nodes: seq<PlanNode<V>>, inputs: seq<nat>, more: seq<Edge>, order: seq<nat>, e: Edge)
    requires EvalOrders.Closed(WiringOf(nodes), more) && e in more
    requires EvalOrders.Topological(WiringOf(nodes), inputs, more, order)
    ensures InRange(order, |nodes|) && Follows(nodes, Retained(nodes, order), inputs, e)
  {
    hide EvalOrders.Deps;
    var kept := Retained(nodes, order);
    if e.0 in kept && e.0 !in inputs && e.1 < |nodes| && nodes[e.1].konst.None? {
      var s := StepOf(kept, e.0);
      var k := StepKept(nodes, order, s);
      EvalOrders.DepsExactly(WiringOf(nodes), more, order[k], e.1);
      var deps := EvalOrders.Deps(WiringOf(nodes), more, order[k]);
      assert EvalOrders.AllIn(deps, order[..k]);
      var x :| 0 <= x < |deps| && deps[x] == e.1;
      RetainedExactly(nodes, order, e.1);
      RetainedExactly(nodes, order[..k], e.1);
      FirstStep(kept, s, e.1);
    }
  }

  // ---- With the dependencies symbols make ----

  /** What `symbol_deps` sees of the nodes is these nodes. */
  ghost predicate Seen<V>(nodes: seq<PlanNode<V>>, seen: seq<SymbolDeps.DepNode>) {
    |seen| == |nodes|
    && forall n | 0 <= n < |nodes| ::
         seen[n].inputs == NodesRead(nodes[n].inputs) && seen[n].shape == FactSymbols(nodes[n].facts)
  }

  /** A step mentioning a symbol comes after the symbol's definer, a step itself: unless the
      definer is a model input, or waits for the step along tensor edges itself. */
  ghost predicate SymbolsInOrder<V>(plan: Plan<V>, seen: seq<SymbolDeps.DepNode>, base: seq<nat>)
    requires InRange(NodesRead(plan.inputs), |seen|) && InRange(base, |seen|)
  {
    forall id: nat, d: nat |
      id in plan.order && id !in NodesRead(plan.inputs) && d < |plan.nodes| && plan.nodes[d].konst.None?
      && SymbolDeps.Waits(seen, NodesRead(plan.inputs), base, id, d) && !SymbolDeps.Before(seen, {}, d, id) ::
      d in plan.order && StepOf(plan.order, d) < StepOf(plan.order, id)
  }

  /** `build_with_outputs_and_deps`: the order of the tensor edges alone decides who defines
      a symbol; the derived dependencies and the given ones then order the plan. There is none
      exactly when the tensor edges loop, or they and these dependencies do. */
  method BuildWithSymbols<V>(nodes: seq<PlanNode<V>>, seen: seq<SymbolDeps.DepNode>, inputs: seq<Outlet>,
                             outputs: seq<Outlet>, deps: seq<Edge>)
    returns (r: Option<Plan<V>>, ghost base: seq<nat>, ghost derived: seq<Edge>)
    requires Sound(nodes, inputs, outputs) && Seen(nodes, seen) && forall k | 0 <= k < |deps| :: deps[k].1 < |nodes|
    ensures r.Some? ==> WellBuilt(r.value) && r.value.nodes == nodes && r.value.inputs == inputs && r.value.outputs == outputs
    ensures r.Some? ==> Named(r.value)
    ensures r.Some? ==> forall e | e in deps :: Follows(nodes, r.value.order, NodesRead(inputs), e)
    ensures r.Some? ==>
      && InRange(NodesRead(inputs), |seen|) && InRange(base, |seen|)
      && EvalOrders.Topological(WiringOf(nodes), NodesRead(inputs), [], base)
      && SymbolsInOrder(r.value, seen, base)
    ensures if EvalOrders.Loops(WiringOf(nodes), NodesRead(inputs), [], NodesRead(outputs)) then r.None?
            else
              && InRange(NodesRead(inputs), |seen|) && InRange(base, |seen|)
              && EvalOrders.Topological(WiringOf(nodes), NodesRead(inputs), [], base)
              && (forall id: nat, d: nat :: (id, d) in derived <==>
                   SymbolDeps.Derivable(seen, NodesRead(inputs), base, (set e: Edge | e in deps), id, d))
              && (r.None? <==> EvalOrders.Loops(WiringOf(nodes), NodesRead(inputs), deps + derived, NodesRead(outputs)))
  {
    hide EvalOrders.Loops, EvalOrders.Topological, SymbolDeps.Waits, SymbolDeps.Before, WellBuilt, Follows;
    base, derived := [], [];
    ReadsInRange(nodes, inputs, outputs);
    var wiring := WiringOf(nodes);
    var plain := EvalOrders.EvalOrder(wiring, NodesRead(inputs), NodesRead(outputs), []);
    if plain.None? {
      return None, [], [];
    }
    base := plain.value;
    OrderShape(wiring, NodesRead(inputs), [], plain.value);
    SeenIsClosed(nodes, seen, inputs, outputs);
    var found := SymbolDeps.SymbolDeps(seen, NodesRead(inputs), plain.value, deps);
    derived := found;
    var all := deps + found;
    DerivedInRange(seen, NodesRead(inputs), plain.value, deps, found);
    r := Build(nodes, inputs, outputs, all);
    if r.Some? {
      assert forall e | e in deps :: e in all;
      DerivedOrders(r.value, seen, plain.value, deps, found);
    }
  }

  lemma SeenIsClosed<V>(nodes: seq<PlanNode<V>>, seen: seq<SymbolDeps.DepNode>, inputs: seq<Outlet>, outputs: seq<Outlet>)
    requires Sound(nodes, inputs, outputs) && Seen(nodes, seen)
    ensures SymbolDeps.Closed(seen) && InRange(NodesRead(inputs), |seen|)
  {
    forall n | 0 <= n < |seen|
      ensures InRange(seen[n].inputs, |seen|)
    {
      assert AllWired(nodes, nodes[n].inputs);
    }
  }

  lemma DerivedInRange(seen: seq<SymbolDeps.DepNode>, inputs: seq<nat>, base: seq<nat>, deps: seq<Edge>, derived: seq<Edge>)
    requires InRange(inputs, |seen|) && InRange(base, |seen|) && forall k | 0 <= k < |deps| :: deps[k].1 < |seen|
    requires forall id: nat, d: nat | (id, d) in derived ::
      SymbolDeps.Derivable(seen, inputs, base, (set e: Edge | e in deps), id, d)
    ensures forall k | 0 <= k < |deps + derived| :: (deps + derived)[k].1 < |seen|
  {
    forall k | 0 <= k < |derived|
      ensures derived[k].1 < |seen|
    {
      var (id, d) := derived[k];
      assert (id, d) in derived;
      var sym: Symbol :| sym in seen[id].mentions && SymbolDeps.Defines(seen, inputs, base, sym, d);
    }
  }

  lemma DerivedOrders<V>(plan: Plan<V>, seen: seq<SymbolDeps.DepNode>, base: seq<nat>, deps: seq<Edge>, derived: seq<Edge>)
    requires WellBuilt(plan) && Seen(plan.nodes, seen)
    requires InRange(NodesRead(plan.inputs), |seen|) && InRange(base, |seen|)
    requires forall id: nat, d: nat :: (id, d) in derived <==>
      SymbolDeps.Derivable(seen, NodesRead(plan.inputs), base, (set e: Edge | e in deps), id, d)
    requires forall e | e in deps + derived :: Follows(plan.nodes, plan.order, NodesRead(plan.inputs), e)
    ensures SymbolsInOrder(plan, seen, base)
  {
    hide SymbolDeps.Waits, SymbolDeps.Before, FlushedAt;
    forall id: nat, d: nat |
      id in plan.order && id !in NodesRead(plan.inputs) && d < |plan.nodes| && plan.nodes[d].konst.None?
      && SymbolDeps.Waits(seen, NodesRead(plan.inputs), base, id, d) && !SymbolDeps.Before(seen, {}, d, id)
      ensures d in plan.order && StepOf(plan.order, d) < StepOf(plan.order, id)
    {
      var k := StepOf(plan.order, id);
      assert plan.order[k] == id;
      if d in seen[id].inputs {
        var x :| 0 <= x < |plan.nodes[id].inputs| && NodesRead(plan.nodes[id].inputs)[x] == d;
        var i := plan.nodes[id].inputs[x];
        assert i in plan.nodes[plan.order[k]].inputs && Available(plan, i, k);
      } else if (id, d) in deps {
        assert (id, d) in deps + derived;
        assert Follows(plan.nodes, plan.order, NodesRead(plan.inputs), (id, d));
      } else {
        var given := set e: Edge | e in deps;
        assert SymbolDeps.Derivable(seen, NodesRead(plan.inputs), base, given, id, d);
        assert (id, d) in deps + derived;
        assert Follows(plan.nodes, plan.order, NodesRead(plan.inputs), (id, d));
      }
    }
  }

  lemma ReadsInRange<V>(nodes: seq<PlanNode<V>>, inputs: seq<Outlet>, outputs: seq<Outlet>)
    requires Sound(nodes, inputs, outputs)
    ensures forall n | 0 <= n < |nodes| :: InRange(WiringOf(nodes)[n], |nodes|)
    ensures InRange(NodesRead(outputs), |nodes|)
  {
    forall n | 0 <= n < |nodes|
      ensures InRange(WiringOf(nodes)[n], |nodes|)
    {
      assert AllWired(nodes, nodes[n].inputs);
    }
  }

  lemma OrderShape(nodes: EvalOrders.Wiring, inputs: seq<nat>, more: seq<Edge>, order: seq<nat>)
    requires EvalOrders.Topological(nodes, inputs, more, order)
    ensures InRange(order, |nodes|)
  {}

  lemma KeptInRange<V>(nodes: seq<PlanNode<V>>, inputs: seq<Outlet>, outputs: seq<Outlet>, order: seq<nat>)
    requires Sound(nodes, inputs, outputs) && InRange(order, |nodes|)
    ensures forall s | 0 <= s < |Retained(nodes, order)| :: Retained(nodes, order)[s] < |nodes|
    ensures forall s | 0 <= s < |Retained(nodes, order)| ::
      forall i | i in nodes[Retained(nodes, order)[s]].inputs :: i.node < |nodes|
    ensures forall o | o in outputs :: o.node < |nodes|
  {
    var kept := Retained(nodes, order);
    forall s | 0 <= s < |kept|
      ensures kept[s] < |nodes|
    {
      RetainedExactly(nodes, order, kept[s]);
    }
    forall s | 0 <= s < |kept|
      ensures forall i | i in nodes[kept[s]].inputs :: i.node < |nodes|
    {
      assert AllWired(nodes, nodes[kept[s]].inputs);
    }
  }

  lemma FlushedInRange<V>(plan: Plan<V>, step: nat)
    requires forall s | 0 <= s < |plan.order| :: plan.order[s] < |plan.nodes|
    ensures forall n | n in FlushedAt(plan.nodes, plan.order, plan.outputs, step, |plan.nodes|) :: n < |plan.nodes|
  {
    forall n | n in FlushedAt(plan.nodes, plan.order, plan.outputs, step, |plan.nodes|)
      ensures n < |plan.nodes|
    {
      FlushedExactly(plan.nodes, plan.order, plan.outputs, step, |plan.nodes|, n);
    }
  }

  lemma BuiltWell<V>(plan: Plan<V>, order: seq<nat>, more: seq<Edge>)
    requires Sound(plan.nodes, plan.inputs, plan.outputs) && EvalOrders.Closed(WiringOf(plan.nodes), more)
    requires EvalOrders.Topological(WiringOf(plan.nodes), NodesRead(plan.inputs), more, order)
    requires EvalOrders.AllIn(NodesRead(plan.outputs), order)
    requires plan.order == Retained(plan.nodes, order) && |plan.flushLists| == |plan.order| + 1
    requires forall s | 0 <= s < |plan.order| :: plan.order[s] < |plan.nodes|
    requires forall s | 0 <= s <= |plan.order| ::
      plan.flushLists[s] == FlushedAt(plan.nodes, plan.order, plan.outputs, s, |plan.nodes|)
    ensures WellBuilt(plan)
  {
    hide FlushedAt, EvalOrders.Deps, Retained;
    OrderShape(WiringOf(plan.nodes), NodesRead(plan.inputs), more, order);
    KeptInRange(plan.nodes, plan.inputs, plan.outputs, order);
    forall s | 0 <= s <= |plan.order|
      ensures forall n | n in plan.flushLists[s] :: n < |plan.nodes|
    {
      FlushedInRange(plan, s);
    }
    forall s | 0 <= s < |plan.order|
      ensures StepOf(plan.order, plan.order[s]) == s && plan.nodes[plan.order[s]].konst.None?
      ensures forall i | i in plan.nodes[plan.order[s]].inputs :: Available(plan, i, s)
    {
      StepsOnce(plan.nodes, order, s);
      forall i | i in plan.nodes[plan.order[s]].inputs
        ensures Available(plan, i, s)
      {
        StepAvailable(plan, order, more, s, i);
      }
    }
    forall o | o in plan.outputs
      ensures Available(plan, o, |plan.order|)
    {
      OutputAvailable(plan, order, o);
    }
    OutletsInRange(plan);
  }

  lemma OutletsInRange<V>(plan: Plan<V>)
    requires Sound(plan.nodes, plan.inputs, plan.outputs)
    ensures forall o | o in plan.inputs + plan.outputs :: o.node < |plan.nodes| && o.slot < |plan.nodes[o.node].facts|
    ensures forall n | 0 <= n < |plan.nodes| && plan.nodes[n].konst.Some? ::
      |plan.nodes[n].facts| == 1 && !IsOutput(plan.inputs, n)
  {
    forall o | o in plan.inputs + plan.outputs
      ensures o.node < |plan.nodes| && o.slot < |plan.nodes[o.node].facts|
    {
      if o in plan.inputs {
        var k :| 0 <= k < |plan.inputs| && plan.inputs[k] == o;
      } else {
        var k :| 0 <= k < |plan.outputs| && plan.outputs[k] == o;
      }
    }
    forall n | 0 <= n < |plan.nodes| && plan.nodes[n].konst.Some?
      ensures !IsOutput(plan.inputs, n)
    {
      assert forall k | 0 <= k < |plan.inputs| :: plan.inputs[k] in plan.inputs;
    }
  }
}
