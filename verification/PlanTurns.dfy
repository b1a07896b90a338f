/** A plan's turn: what setting the inputs, running the steps and resetting make of the
    values, the bindings and the op states, and the naive evaluation it refines. */
module PlanTurns {
  import opened Outcomes
  import opened Outlets
  import opened Symbols
  import opened FlushLists

  datatype Plan<V> = Plan(
    nodes: seq<PlanNode<V>>,
    order: seq<nat>,
    flushLists: seq<seq<nat>>,
    inputs: seq<Outlet>,
    outputs: seq<Outlet>,
    symbols: set<Symbol>)

  /** What the ops do: a node's op, from its own state, its inputs and the symbols bound so
      far, its state after and its outputs if it succeeds; the symbols it needs; a value's
      extents; whether a value has the type of its input's fact. */
  datatype Ops<!V, !S> = Ops(
    eval: (nat, S, seq<V>, Bindings) -> (S, Option<seq<V>>),
    needs: nat -> set<Symbol>,
    extents: V -> seq<int>,
    typed: (nat, V) -> bool,
    solve: Solver)

  datatype TurnState<V, S> = TurnState(values: seq<Option<seq<V>>>, bindings: Bindings, states: seq<S>)

  datatype Status = Running | PrecursorMissing | EvalFailed | Clash

  // ---- Plans ----

  function FactSymbols(facts: seq<seq<TDim>>): set<Symbol> {
    if facts == [] then {} else SymbolsInAll(facts[0]) + FactSymbols(facts[1..])
  }

  function NodeSymbols<V>(nodes: seq<PlanNode<V>>, k: nat): set<Symbol>
    requires k <= |nodes|
  {
    if k == 0 then {} else NodeSymbols(nodes, k - 1) + FactSymbols(nodes[k - 1].facts)
  }

  /** The plan lists the symbols of its nodes' shapes. */
  predicate Named<V>(plan: Plan<V>) {
    plan.symbols == NodeSymbols(plan.nodes, |plan.nodes|)
  }

  /** Every step is a node, and so is every wire's other end. */
  ghost predicate Shaped<V>(plan: Plan<V>) {
    && (forall s | 0 <= s < |plan.order| :: plan.order[s] < |plan.nodes|)
    && (forall s | 0 <= s < |plan.order| :: forall i | i in plan.nodes[plan.order[s]].inputs :: i.node < |plan.nodes|)
    && (forall o | o in plan.inputs + plan.outputs :: o.node < |plan.nodes| && o.slot < |plan.nodes[o.node].facts|)
    && |plan.flushLists| == |plan.order| + 1
    && (forall s | 0 <= s <= |plan.order| :: forall n | n in plan.flushLists[s] :: n < |plan.nodes|)
  }

  /** A wire the step can read: a constant's, or an earlier step's. */
  predicate Available<V>(plan: Plan<V>, i: Outlet, k: nat) {
    && i.node < |plan.nodes| && i.slot < |plan.nodes[i.node].facts|
    && (plan.nodes[i.node].konst.Some? || StepOf(plan.order, i.node) < k)
  }

  /** What the order builder and the flush-list builder promise: each node once, after the
      nodes it reads, no constant among them, and the flush lists of that order. */
  ghost predicate WellBuilt<V>(plan: Plan<V>) {
    && Shaped(plan)
    && (forall s | 0 <= s < |plan.order| :: StepOf(plan.order, plan.order[s]) == s && plan.nodes[plan.order[s]].konst.None?)
    && (forall s | 0 <= s < |plan.order| :: forall i | i in plan.nodes[plan.order[s]].inputs :: Available(plan, i, s))
    && (forall o | o in plan.outputs :: Available(plan, o, |plan.order|))
    && (forall n | 0 <= n < |plan.nodes| && plan.nodes[n].konst.Some? ::
          |plan.nodes[n].facts| == 1 && !IsOutput(plan.inputs, n))
    && forall s | 0 <= s <= |plan.order| ::
         plan.flushLists[s] == FlushedAt(plan.nodes, plan.order, plan.outputs, s, |plan.nodes|)
  }

  /** An op that succeeds makes as many outputs as its node has. */
  ghost predicate Arity<V(!new), S(!new)>(ops: Ops<V, S>, plan: Plan<V>) {
    forall n, s, xs, b :: 0 <= n < |plan.nodes| && ops.eval(n, s, xs, b).1.Some?
      ==> |ops.eval(n, s, xs, b).1.value| == |plan.nodes[n].facts|
  }

  /** The same symbols are bound, to the same values. */
  ghost predicate Alike(syms: set<Symbol>, a: Bindings, b: Bindings) {
    forall sym | sym in syms :: (sym in a <==> sym in b) && (sym in a ==> a[sym] == b[sym])
  }

  /** An op looks at no other symbols than those it needs. */
  ghost predicate ReadsOnly<V(!new), S(!new)>(ops: Ops<V, S>) {
    forall n, s, xs, a, b :: Alike(ops.needs(n), a, b) ==> ops.eval(n, s, xs, a) == ops.eval(n, s, xs, b)
  }

  // ---- One step ----

  function ReadOne<V>(values: seq<Option<seq<V>>>, i: Outlet): Option<V> {
    if i.node < |values| && values[i.node].Some? && i.slot < |values[i.node].value|
    then Some(values[i.node].value[i.slot]) else None
  }

  function ReadAll<V>(values: seq<Option<seq<V>>>, inputs: seq<Outlet>): Option<seq<V>> {
    if inputs == [] then Some([])
    else
      match (ReadOne(values, inputs[0]), ReadAll(values, inputs[1..]))
      case (Some(x), Some(rest)) => Some([x] + rest)
      case _ => None
  }

  function Dropped<V>(values: seq<Option<seq<V>>>, list: seq<nat>): (r: seq<Option<seq<V>>>)
    ensures |r| == |values|
    ensures forall n | 0 <= n < |values| :: r[n] == if n in list then None else values[n]
    decreases |list|
  {
    if list == [] then values
    else Dropped(if list[0] < |values| then values[list[0] := None] else values, list[1..])
  }

  /** What the op is handed: its inputs, or what is already there for a node without. */
  function Handed<V>(node: PlanNode<V>, inputs: seq<V>, there: Option<seq<V>>): seq<V> {
    if node.inputs == [] && there.Some? then there.value else inputs
  }

  /** The outputs' dimensions, output by output, unless every symbol is bound already. */
  function ResolveOutputs<V(!new), S(!new)>(ops: Ops<V, S>, facts: seq<seq<TDim>>, vs: seq<V>, b: Bindings): (Bindings, bool)
    decreases |facts|
  {
    if facts == [] || vs == [] then (b, true)
    else
      var (b', ok) := ResolveAll(ops.solve, facts[0], ops.extents(vs[0]), b);
      if ok then ResolveOutputs(ops, facts[1..], vs[1..], b') else (b', false)
  }

  function Step<V(!new), S(!new)>(ops: Ops<V, S>, plan: Plan<V>, t: TurnState<V, S>, k: nat): (TurnState<V, S>, Status)
    requires k < |plan.order| && |plan.flushLists| == |plan.order| + 1
    requires plan.order[k] < |plan.nodes| == |t.values| == |t.states|
  {
    var n := plan.order[k];
    var node := plan.nodes[n];
    match ReadAll(t.values, node.inputs)
    case None => (t, PrecursorMissing)
    case Some(inputs) =>
      var values := Dropped(t.values, plan.flushLists[k]);
      var (state, outs) := ops.eval(n, t.states[n], Handed(node, inputs, values[n]), t.bindings);
      var states := t.states[n := state];
      match outs
      case None => (TurnState(values, t.bindings, states), EvalFailed)
      case Some(vs) =>
        var (b, ok) := if plan.symbols <= t.bindings.Keys then (t.bindings, true)
                       else ResolveOutputs(ops, node.facts, vs, t.bindings);
        if ok then (TurnState(values[n := Some(vs)], b, states), Running)
        else (TurnState(values, b, states), Clash)
  }

  /** The first `k` steps, or as many as succeed. */
  function Steps<V(!new), S(!new)>(ops: Ops<V, S>, plan: Plan<V>, t: TurnState<V, S>, k: nat)
    : (r: (TurnState<V, S>, Status))
    requires Shaped(plan) && k <= |plan.order| && |plan.nodes| == |t.values| == |t.states|
    ensures |r.0.values| == |plan.nodes| == |r.0.states|
  {
    if k == 0 then (t, Running)
    else
      var (before, status) := Steps(ops, plan, t, k - 1);
      if status == Running then Step(ops, plan, before, k - 1) else (before, status)
  }

  // ---- A turn ----

  /** `ready_turn`: room for every node's values, the constants in. */
  function Readied<V>(plan: Plan<V>, values: seq<Option<seq<V>>>): (r: seq<Option<seq<V>>>)
    ensures |r| == if values == [] then |plan.nodes| else |values|
  {
    if values != [] then values
    else seq(|plan.nodes|, n requires 0 <= n < |plan.nodes| =>
           if plan.nodes[n].konst.Some? then Some([plan.nodes[n].konst.value]) else None)
  }

  /** `TypedFact::matches`: the rank, and every dimension the bindings make a value of. */
  predicate Matches(es: seq<TDim>, provided: seq<int>, b: Bindings) {
    |es| == |provided|
    && forall d | 0 <= d < |es| :: Substituted(es[d], b).Val? ==> Substituted(es[d], b).value == provided[d]
  }

  function SetInput<V(!new), S(!new)>(ops: Ops<V, S>, plan: Plan<V>, t: TurnState<V, S>, ix: nat, x: V)
    : (r: (TurnState<V, S>, bool))
    requires Shaped(plan) && ix < |plan.inputs| && (t.values == [] || |t.values| == |plan.nodes|)
    ensures r.0.values == [] || |r.0.values| == |plan.nodes|
    ensures r.0.states == t.states && (r.1 ==> |r.0.values| == |plan.nodes|)
  {
    var o := plan.inputs[ix];
    assert o in plan.inputs + plan.outputs;
    var es := plan.nodes[o.node].facts[o.slot];
    var (b, ok) := ResolveAll(ops.solve, es, ops.extents(x), t.bindings);
    if !ok || !ops.typed(ix, x) || !Matches(es, ops.extents(x), b) then (t.(bindings := b), false)
    else (TurnState(Readied(plan, t.values)[o.node := Some([x])], b, t.states), true)
  }

  /** The first `k` inputs set, or as many as match. */
  function SetFirst<V(!new), S(!new)>(ops: Ops<V, S>, plan: Plan<V>, t: TurnState<V, S>, xs: seq<V>, k: nat)
    : (r: (TurnState<V, S>, bool))
    requires Shaped(plan) && k <= |xs| == |plan.inputs| && (t.values == [] || |t.values| == |plan.nodes|)
    ensures r.0.values == [] || |r.0.values| == |plan.nodes|
    ensures r.0.states == t.states && (r.1 && k > 0 ==> |r.0.values| == |plan.nodes|)
  {
    if k == 0 then (t, true)
    else
      var (before, ok) := SetFirst(ops, plan, t, xs, k - 1);
      if ok then SetInput(ops, plan, before, k - 1, xs[k - 1]) else (before, false)
  }

  /** `reset_turn`: every step's values and every binding gone. */
  function Reset<V, S>(plan: Plan<V>, t: TurnState<V, S>): (r: TurnState<V, S>)
    ensures |r.values| == |t.values| && r.states == t.states
  {
    TurnState(Dropped(t.values, plan.order), map[], t.states)
  }

  /** `run`: the state after, and the outputs if every part of the turn succeeded. A turn
      that fails is left where it stopped. */
  function Ran<V(!new), S(!new)>(ops: Ops<V, S>, plan: Plan<V>, t: TurnState<V, S>, xs: seq<V>)
    : (r: (TurnState<V, S>, Option<seq<V>>))
    requires Shaped(plan) && |t.states| == |plan.nodes| && (t.values == [] || |t.values| == |plan.nodes|)
    ensures |r.0.states| == |plan.nodes| && (r.0.values == [] || |r.0.values| == |plan.nodes|)
  {
    if |xs| != |plan.inputs| then (t, None)
    else
      var (given, ok) := SetFirst(ops, plan, t, xs, |xs|);
      if !ok then (given, None)
      else
        var ready := given.(values := Readied(plan, given.values));
        var (done, status) := Steps(ops, plan, ready, |plan.order|);
        if status != Running then (done, None)
        else
          match ReadAll(done.values, plan.outputs)
          case None => (done, None)
          case Some(outs) => (Reset(plan, done), Some(outs))
  }

  /** The state a turn's steps start from. */
  function Started<V(!new), S(!new)>(ops: Ops<V, S>, plan: Plan<V>, t: TurnState<V, S>, xs: seq<V>): (r: TurnState<V, S>)
    requires Shaped(plan) && |t.states| == |plan.nodes| && (t.values == [] || |t.values| == |plan.nodes|)
    ensures |r.states| == |plan.nodes| == |r.values|
  {
    var given := if |xs| == |plan.inputs| then SetFirst(ops, plan, t, xs, |xs|).0 else t;
    given.(values := Readied(plan, given.values))
  }

  /** The state its last step leaves, before the reset: its bindings are the turn's own. */
  function Ended<V(!new), S(!new)>(ops: Ops<V, S>, plan: Plan<V>, t: TurnState<V, S>, xs: seq<V>): (r: TurnState<V, S>)
    requires Shaped(plan) && |t.states| == |plan.nodes| && (t.values == [] || |t.values| == |plan.nodes|)
    ensures |r.states| == |plan.nodes| == |r.values|
  {
    Steps(ops, plan, Started(ops, plan, t, xs), |plan.order|).0
  }

  // ---- Naive evaluation ----

  /** What a wire carries, every node it depends on evaluated for it alone, all of them under
      the one set of bindings `b`. */
  function NaiveWire<V(!new), S(!new)>(ops: Ops<V, S>, plan: Plan<V>, given: map<nat, V>, b: Bindings, states: seq<S>, i: Outlet, k: nat)
    : Option<V>
    requires WellBuilt(plan) && Available(plan, i, k) && k <= |plan.order| && |states| == |plan.nodes|
    decreases k, 1
  {
    if plan.nodes[i.node].konst.Some? then Some(plan.nodes[i.node].konst.value)
    else
      var outs := Naive(ops, plan, given, b, states, StepOf(plan.order, i.node));
      if outs.Some? && i.slot < |outs.value| then Some(outs.value[i.slot]) else None
  }

  function NaiveWires<V(!new), S(!new)>(ops: Ops<V, S>, plan: Plan<V>, given: map<nat, V>, b: Bindings, states: seq<S>, inputs: seq<Outlet>, k: nat)
    : Option<seq<V>>
    requires WellBuilt(plan) && (forall i | i in inputs :: Available(plan, i, k)) && k <= |plan.order| && |states| == |plan.nodes|
    decreases k, 2 + |inputs|
  {
    if inputs == [] then Some([])
    else
      match (NaiveWire(ops, plan, given, b, states, inputs[0], k), NaiveWires(ops, plan, given, b, states, inputs[1..], k))
      case (Some(x), Some(rest)) => Some([x] + rest)
      case _ => None
  }

  /** What the node of step `k` is handed. */
  function NaiveArgs<V(!new), S(!new)>(ops: Ops<V, S>, plan: Plan<V>, given: map<nat, V>, b: Bindings, states: seq<S>, k: nat): Option<seq<V>>
    requires WellBuilt(plan) && k < |plan.order| && |states| == |plan.nodes|
    decreases k, 3 + |plan.nodes[plan.order[k]].inputs|
  {
    var n := plan.order[k];
    if plan.nodes[n].inputs == [] && n in given then Some([given[n]])
    else NaiveWires(ops, plan, given, b, states, plan.nodes[n].inputs, k)
  }

  /** The outputs of step `k`'s node, evaluated recursively from the inputs given. */
  function Naive<V(!new), S(!new)>(ops: Ops<V, S>, plan: Plan<V>, given: map<nat, V>, b: Bindings, states: seq<S>, k: nat): Option<seq<V>>
    requires WellBuilt(plan) && k < |plan.order| && |states| == |plan.nodes|
    decreases k + 1, 0
  {
    var n := plan.order[k];
    match NaiveArgs(ops, plan, given, b, states, k) case None => None case Some(xs) => ops.eval(n, states[n], xs, b).1
  }
}
