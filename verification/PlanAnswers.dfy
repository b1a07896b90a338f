/** When a turn of a plan answers, and with what: the one solution of the graph's equations. */
module PlanAnswers {
  import opened Outcomes
  import opened Outlets
  import opened Symbols
  import opened FlushLists
  import opened PlanTurns
  import opened PlanRefinement
  import opened FailedTurns
  import opened SymbolReads

  // ---- The equations of a graph ----

  /** The wire carries `v`. */
  predicate Carries<V(==)>(vals: seq<seq<V>>, o: Outlet, v: V) {
    o.node < |vals| && o.slot < |vals[o.node]| && vals[o.node][o.slot] == v
  }

  /** What node `n` is handed: what it is given, if it is a model input reading nothing, or
      else what its wires carry, in their order. */
  ghost predicate HandedSo<V>(plan: Plan<V>, given: map<nat, V>, vals: seq<seq<V>>, n: nat, args: seq<V>)
    requires n < |plan.nodes|
  {
    var wires := plan.nodes[n].inputs;
    if wires == [] && n in given then args == [given[n]]
    else |args| == |wires| && forall i | 0 <= i < |wires| :: Carries(vals, wires[i], args[i])
  }

  ghost predicate Holds<V(!new), S(!new)>(ops: Ops<V, S>, plan: Plan<V>, given: map<nat, V>, b: Bindings, states: seq<S>,
                                          vals: seq<seq<V>>, n: nat)
    requires n < |plan.nodes| == |states| == |vals|
  {
    exists args :: HandedSo(plan, given, vals, n, args) && ops.eval(n, states[n], args, b).1 == Some(vals[n])
  }

  /** A constant's outputs are itself; a step's are what its op makes of what it is handed. */
  ghost predicate Solves<V(!new), S(!new)>(ops: Ops<V, S>, plan: Plan<V>, given: map<nat, V>, b: Bindings, states: seq<S>,
                                           vals: seq<seq<V>>)
    requires Shaped(plan) && |states| == |plan.nodes|
  {
    && |vals| == |plan.nodes|
    && (forall n | 0 <= n < |plan.nodes| && plan.nodes[n].konst.Some? :: vals[n] == [plan.nodes[n].konst.value])
    && forall k | 0 <= k < |plan.order| :: Holds(ops, plan, given, b, states, vals, plan.order[k])
  }

  lemma {:induction false} WiresCarry<V(!new), S(!new)>(ops: Ops<V, S>, plan: Plan<V>, given: map<nat, V>, b: Bindings,
                                                        states: seq<S>, vals: seq<seq<V>>, inputs: seq<Outlet>, k: nat)
    requires WellBuilt(plan) && (forall i | i in inputs :: Available(plan, i, k)) && k <= |plan.order|
    requires |states| == |plan.nodes| == |vals|
    requires forall n | 0 <= n < |plan.nodes| && plan.nodes[n].konst.Some? :: vals[n] == [plan.nodes[n].konst.value]
    requires forall j | 0 <= j < k :: Naive(ops, plan, given, b, states, j) == Some(vals[plan.order[j]])
    requires forall i | i in inputs :: i.node < |vals| && i.slot < |vals[i.node]|
    ensures var r := NaiveWires(ops, plan, given, b, states, inputs, k);
            r.Some? && |r.value| == |inputs| && forall x | 0 <= x < |inputs| :: Carries(vals, inputs[x], r.value[x])
    decreases |inputs|
  {
    hide WellBuilt, Naive;
    if inputs != [] {
      assert inputs[0] in inputs && forall i | i in inputs[1..] :: i in inputs;
      WireCarries(ops, plan, given, b, states, vals, inputs[0], k);
      WiresCarry(ops, plan, given, b, states, vals, inputs[1..], k);
    }
  }

  lemma WireCarries<V(!new), S(!new)>(ops: Ops<V, S>, plan: Plan<V>, given: map<nat, V>, b: Bindings, states: seq<S>,
                                     vals: seq<seq<V>>, i: Outlet, k: nat)
    requires WellBuilt(plan) && Available(plan, i, k) && k <= |plan.order| && |states| == |plan.nodes| == |vals|
    requires plan.nodes[i.node].konst.Some? ==> vals[i.node] == [plan.nodes[i.node].konst.value]
    requires forall j | 0 <= j < k :: Naive(ops, plan, given, b, states, j) == Some(vals[plan.order[j]])
    requires i.slot < |vals[i.node]|
    ensures var r := NaiveWire(ops, plan, given, b, states, i, k); r.Some? && Carries(vals, i, r.value)
  {
    hide FlushedAt, Naive;
    if plan.nodes[i.node].konst.Some? {
      assert |plan.nodes[i.node].facts| == 1;
    } else {
      var j := StepOf(plan.order, i.node);
      assert Naive(ops, plan, given, b, states, j) == Some(vals[plan.order[j]]);
    }
  }

  lemma {:induction false} CarriedOnce<V(!new)>(vals: seq<seq<V>>, inputs: seq<Outlet>, xs: seq<V>, ys: seq<V>)
    requires |xs| == |inputs| == |ys|
    requires forall i | 0 <= i < |inputs| :: Carries(vals, inputs[i], xs[i]) && Carries(vals, inputs[i], ys[i])
    ensures xs == ys
  {}

  /** A solution is what naive evaluation computes: there is one at most. */
  lemma {:induction false} SolvedIsNaive<V(!new), S(!new)>(ops: Ops<V, S>, plan: Plan<V>, given: map<nat, V>, b: Bindings,
                                                           states: seq<S>, vals: seq<seq<V>>, k: nat)
    requires WellBuilt(plan) && |states| == |plan.nodes| && Solves(ops, plan, given, b, states, vals) && k < |plan.order|
    ensures Naive(ops, plan, given, b, states, k) == Some(vals[plan.order[k]])
    decreases k
  {
    hide WellBuilt, Naive;
    BuiltIsShaped(plan);
    forall j | 0 <= j < k
      ensures Naive(ops, plan, given, b, states, j) == Some(vals[plan.order[j]])
    {
      SolvedIsNaive(ops, plan, given, b, states, vals, j);
    }
    SolvedStep(ops, plan, given, b, states, vals, k);
  }

  lemma StepInputs<V>(plan: Plan<V>, k: nat)
    requires WellBuilt(plan) && k < |plan.order|
    ensures plan.order[k] < |plan.nodes| && forall i | i in plan.nodes[plan.order[k]].inputs :: Available(plan, i, k)
  {
    hide FlushedAt;
  }

  lemma SolvedStep<V(!new), S(!new)>(ops: Ops<V, S>, plan: Plan<V>, given: map<nat, V>, b: Bindings, states: seq<S>,
                                    vals: seq<seq<V>>, k: nat)
    requires WellBuilt(plan) && |states| == |plan.nodes| && Solves(ops, plan, given, b, states, vals) && k < |plan.order|
    requires forall j | 0 <= j < k :: Naive(ops, plan, given, b, states, j) == Some(vals[plan.order[j]])
    ensures Naive(ops, plan, given, b, states, k) == Some(vals[plan.order[k]])
  {
    hide WellBuilt, Available, NaiveWires;
    var n := plan.order[k];
    StepInputs(plan, k);
    assert Holds(ops, plan, given, b, states, vals, n);
    var args :| HandedSo(plan, given, vals, n, args) && ops.eval(n, states[n], args, b).1 == Some(vals[n]);
    var inputs := plan.nodes[n].inputs;
    if !(inputs == [] && n in given) {
      forall i | i in inputs
        ensures i.slot < |vals[i.node]|
      {
        var x :| 0 <= x < |inputs| && inputs[x] == i;
        assert Carries(vals, inputs[x], args[x]);
      }
      WiresCarry(ops, plan, given, b, states, vals, inputs, k);
      CarriedOnce(vals, inputs, args, NaiveWires(ops, plan, given, b, states, inputs, k).value);
    }
  }

  /** What naive evaluation computes of every node. */
  ghost function Computed<V(!new), S(!new)>(ops: Ops<V, S>, plan: Plan<V>, given: map<nat, V>, b: Bindings, states: seq<S>)
    : (r: seq<seq<V>>)
    requires WellBuilt(plan) && |states| == |plan.nodes|
    ensures |r| == |plan.nodes|
    ensures forall n | 0 <= n < |plan.nodes| :: r[n] == ComputedAt(ops, plan, given, b, states, n)
  {
    seq(|plan.nodes|, n requires 0 <= n < |plan.nodes| && WellBuilt(plan) && |states| == |plan.nodes| =>
      ComputedAt(ops, plan, given, b, states, n))
  }

  ghost function ComputedAt<V(!new), S(!new)>(ops: Ops<V, S>, plan: Plan<V>, given: map<nat, V>, b: Bindings, states: seq<S>,
                                              n: nat): seq<V>
    requires WellBuilt(plan) && |states| == |plan.nodes| && n < |plan.nodes|
  {
    if plan.nodes[n].konst.Some? then [plan.nodes[n].konst.value]
    else
      var s := StepOf(plan.order, n);
      if s < |plan.order| && Naive(ops, plan, given, b, states, s).Some? then Naive(ops, plan, given, b, states, s).value else []
  }

  /** Where naive evaluation computes every node, it solves the equations. */
  lemma NaiveSolves<V(!new), S(!new)>(ops: Ops<V, S>, plan: Plan<V>, given: map<nat, V>, b: Bindings, states: seq<S>)
    requires WellBuilt(plan) && Arity(ops, plan) && |states| == |plan.nodes|
    requires forall k | 0 <= k < |plan.order| :: Naive(ops, plan, given, b, states, k).Some?
    ensures Solves(ops, plan, given, b, states, Computed(ops, plan, given, b, states))
    ensures forall k | 0 <= k < |plan.order| ::
              Naive(ops, plan, given, b, states, k) == Some(Computed(ops, plan, given, b, states)[plan.order[k]])
  {
    hide Naive, Available, FlushedAt, Arity;
    var vals := Computed(ops, plan, given, b, states);
    forall k | 0 <= k < |plan.order|
      ensures Naive(ops, plan, given, b, states, k) == Some(vals[plan.order[k]])
    {
      assert StepOf(plan.order, plan.order[k]) == k;
    }
    forall k | 0 <= k < |plan.order|
      ensures Holds(ops, plan, given, b, states, vals, plan.order[k])
    {
      NaiveHolds(ops, plan, given, b, states, vals, k);
    }
  }

  lemma NaiveHolds<V(!new), S(!new)>(ops: Ops<V, S>, plan: Plan<V>, given: map<nat, V>, b: Bindings, states: seq<S>,
                                    vals: seq<seq<V>>, k: nat)
    requires WellBuilt(plan) && Arity(ops, plan) && k < |plan.order| && |states| == |plan.nodes| == |vals|
    requires forall n | 0 <= n < |plan.nodes| && plan.nodes[n].konst.Some? :: vals[n] == [plan.nodes[n].konst.value]
    requires forall j | 0 <= j < |plan.order| :: Naive(ops, plan, given, b, states, j) == Some(vals[plan.order[j]])
    ensures Holds(ops, plan, given, b, states, vals, plan.order[k])
  {
    hide WellBuilt, Arity, NaiveWires, Naive;
    var n := plan.order[k];
    StepInputs(plan, k);
    var args := NaiveArgs(ops, plan, given, b, states, k);
    NaiveUnfolds(ops, plan, given, b, states, k);
    if !(plan.nodes[n].inputs == [] && n in given) {
      forall i | i in plan.nodes[n].inputs
        ensures i.slot < |vals[i.node]|
      {
        NodeArity(ops, plan, given, b, states, vals, i, k);
      }
      WiresCarry(ops, plan, given, b, states, vals, plan.nodes[n].inputs, k);
    }
    assert HandedSo(plan, given, vals, n, args.value);
  }

  lemma NaiveUnfolds<V(!new), S(!new)>(ops: Ops<V, S>, plan: Plan<V>, given: map<nat, V>, b: Bindings, states: seq<S>, k: nat)
    requires WellBuilt(plan) && k < |plan.order| && |states| == |plan.nodes| && Naive(ops, plan, given, b, states, k).Some?
    ensures var args := NaiveArgs(ops, plan, given, b, states, k);
            && plan.order[k] < |plan.nodes| && args.Some?
            && ops.eval(plan.order[k], states[plan.order[k]], args.value, b).1 == Naive(ops, plan, given, b, states, k)
  {
    hide NaiveArgs, FlushedAt;
  }

  /** A wire's node has the output it names. */
  lemma NodeArity<V(!new), S(!new)>(ops: Ops<V, S>, plan: Plan<V>, given: map<nat, V>, b: Bindings, states: seq<S>,
                                   vals: seq<seq<V>>, i: Outlet, k: nat)
    requires WellBuilt(plan) && Arity(ops, plan) && k <= |plan.order| && |states| == |plan.nodes| == |vals|
    requires forall n | 0 <= n < |plan.nodes| && plan.nodes[n].konst.Some? :: vals[n] == [plan.nodes[n].konst.value]
    requires forall j | 0 <= j < |plan.order| :: Naive(ops, plan, given, b, states, j) == Some(vals[plan.order[j]])
    requires Available(plan, i, k)
    ensures i.slot < |vals[i.node]|
  {
    hide NaiveArgs, FlushedAt;
    if plan.nodes[i.node].konst.Some? {
      assert |plan.nodes[i.node].facts| == 1;
    } else {
      var j := StepOf(plan.order, i.node);
      NaiveUnfolds(ops, plan, given, b, states, j);
    }
  }

  /** The outputs are what their wires carry. */
  lemma OutputsCarried<V(!new), S(!new)>(ops: Ops<V, S>, plan: Plan<V>, given: map<nat, V>, b: Bindings, states: seq<S>,
                                        vals: seq<seq<V>>)
    requires WellBuilt(plan) && Arity(ops, plan) && |states| == |plan.nodes| && Solves(ops, plan, given, b, states, vals)
    ensures var r := NaiveOutputs(ops, plan, given, b, states);
            r.Some? && |r.value| == |plan.outputs|
            && forall o | 0 <= o < |plan.outputs| :: Carries(vals, plan.outputs[o], r.value[o])
  {
    hide Naive, NaiveWires, Holds, Arity, FlushedAt;
    forall j | 0 <= j < |plan.order|
      ensures Naive(ops, plan, given, b, states, j) == Some(vals[plan.order[j]])
    {
      SolvedIsNaive(ops, plan, given, b, states, vals, j);
    }
    forall i | i in plan.outputs
      ensures i.slot < |vals[i.node]|
    {
      NodeArity(ops, plan, given, b, states, vals, i, |plan.order|);
    }
    WiresCarry(ops, plan, given, b, states, vals, plan.outputs, |plan.order|);
  }

  // ---- When a turn answers ----

  /** Each dimension of the outputs is a bare symbol, or mentions only symbols known or
      mentioned by an earlier one. */
  predicate FactsLegible(facts: seq<seq<TDim>>, known: set<Symbol>)
    decreases |facts|
  {
    facts == [] || (Legible(facts[0], known) && FactsLegible(facts[1..], known + SymbolsInAll(facts[0])))
  }

  /** The symbols the first `k` steps' outputs mention. */
  function StepSymbols<V>(plan: Plan<V>, k: nat): set<Symbol>
    requires Shaped(plan) && k <= |plan.order|
  {
    if k == 0 then {} else StepSymbols(plan, k - 1) + FactSymbols(plan.nodes[plan.order[k - 1]].facts)
  }

  /** So it is step after step, from the symbols the inputs mention on. */
  ghost predicate StepsLegible<V>(plan: Plan<V>, known: set<Symbol>)
    requires Shaped(plan)
  {
    forall k | 0 <= k < |plan.order| :: FactsLegible(plan.nodes[plan.order[k]].facts, known + StepSymbols(plan, k))
  }

  /** The values have the extents the facts are worth. */
  ghost predicate AllFit<V(!new), S(!new)>(ops: Ops<V, S>, facts: seq<seq<TDim>>, vs: seq<V>, b: Bindings) {
    |facts| == |vs| && forall o | 0 <= o < |facts| :: Fits(facts[o], ops.extents(vs[o]), b)
  }

  ghost predicate SolutionFits<V(!new), S(!new)>(ops: Ops<V, S>, plan: Plan<V>, b: Bindings, vals: seq<seq<V>>)
    requires Shaped(plan) && |vals| == |plan.nodes|
  {
    forall k | 0 <= k < |plan.order| :: AllFit(ops, plan.nodes[plan.order[k]].facts, vals[plan.order[k]], b)
  }

  lemma {:induction false} FactsLegibleWiden(facts: seq<seq<TDim>>, known: set<Symbol>, more: set<Symbol>)
    requires FactsLegible(facts, known) && known <= more
    ensures FactsLegible(facts, more)
    decreases |facts|
  {
    if facts != [] {
      LegibleWiden(facts[0], known, more);
      FactsLegibleWiden(facts[1..], known + SymbolsInAll(facts[0]), more + SymbolsInAll(facts[0]));
    }
  }

  /** Outputs that fit are let through, and bind the symbols they mention. */
  lemma {:induction false} OutputsResolve<V(!new), S(!new)>(ops: Ops<V, S>, facts: seq<seq<TDim>>, vs: seq<V>, b: Bindings,
                                                            later: Bindings)
    requires FactsLegible(facts, b.Keys) && Extends(later, b) && AllFit(ops, facts, vs, later)
    ensures var (after, ok) := ResolveOutputs(ops, facts, vs, b);
            ok && Extends(later, after) && b.Keys + FactSymbols(facts) <= after.Keys
    decreases |facts|
  {
    hide ResolveAll, Legible, Fits, Extends;
    if facts != [] {
      var provided := ops.extents(vs[0]);
      assert Fits(facts[0], provided, later);
      FittingResolves(ops.solve, facts[0], provided, b, later);
      assert |facts[0]| == |provided| by { FitsLength(facts[0], provided, later); }
      LegibleResolves(ops.solve, facts[0], provided, b);
      forall o | 0 <= o < |facts[1..]|
        ensures Fits(facts[1..][o], ops.extents(vs[1..][o]), later)
      {
        assert Fits(facts[o + 1], ops.extents(vs[o + 1]), later);
      }
      OutputsResolve(ops, facts[1..], vs[1..], ResolveAll(ops.solve, facts[0], provided, b).0, later);
    }
  }

  lemma FitsLength(es: seq<TDim>, provided: seq<int>, b: Bindings)
    requires Fits(es, provided, b)
    ensures |es| == |provided|
  {}

  lemma {:induction false} StepSymbolsNamed<V>(plan: Plan<V>, k: nat)
    requires Shaped(plan) && Named(plan) && k <= |plan.order|
    ensures StepSymbols(plan, k) <= plan.symbols
  {
    hide Named, Shaped;
    if k > 0 {
      StepSymbolsNamed(plan, k - 1);
      StepNamed(plan, k - 1);
    }
  }

  lemma StepNamed<V>(plan: Plan<V>, k: nat)
    requires Shaped(plan) && Named(plan) && k < |plan.order|
    ensures FactSymbols(plan.nodes[plan.order[k]].facts) <= plan.symbols
  {
    NodeSymbolsHold(plan.nodes, |plan.nodes|, plan.order[k]);
  }

  /** A step running on the values of a solution that fits does not clash. */
  lemma StepGoesOn<V(!new), S(!new)>(ops: Ops<V, S>, plan: Plan<V>, given: map<nat, V>, later: Bindings, states: seq<S>,
                                    vals: seq<seq<V>>, t: TurnState<V, S>, k: nat, known: set<Symbol>)
    requires WellBuilt(plan) && Named(plan) && Arity(ops, plan) && k < |plan.order| && |states| == |plan.nodes|
    requires Midway(ops, plan, given, later, states, t, k)
    requires ReadsOnly(ops) && Alike(ops.needs(plan.order[k]), t.bindings, later) && Extends(later, t.bindings)
    requires |vals| == |plan.nodes| && Naive(ops, plan, given, later, states, k) == Some(vals[plan.order[k]])
    requires AllFit(ops, plan.nodes[plan.order[k]].facts, vals[plan.order[k]], later)
    requires FactsLegible(plan.nodes[plan.order[k]].facts, known) && known <= t.bindings.Keys
    ensures var (after, status) := Step(ops, plan, t, k);
            && status == Running && Midway(ops, plan, given, later, states, after, k + 1)
            && Extends(later, after.bindings)
            && known + FactSymbols(plan.nodes[plan.order[k]].facts) <= after.bindings.Keys
  {
    hide FlushedAt, NeededUntil, Arity, ReadsOnly, Alike, ResolveOutputs, NaiveArgs, Midway, AllFit, FactsLegible, ReadAll, Dropped, Named;
    BuiltIsShaped(plan);
    var n := plan.order[k];
    var facts := plan.nodes[n].facts;
    StepHands(ops, plan, given, later, states, t, k);
    StepKeeps(ops, plan, given, later, states, t, k);
    NaiveUnfolds(ops, plan, given, later, states, k);
    FactsLegibleWiden(facts, known, t.bindings.Keys);
    OutputsResolve(ops, facts, vals[n], t.bindings, later);
    StepNamed(plan, k);
    UndroppedThere(ops, plan, given, later, states, t, k);
  }

  lemma UndroppedThere<V(!new), S(!new)>(ops: Ops<V, S>, plan: Plan<V>, given: map<nat, V>, b: Bindings, states: seq<S>,
                                        t: TurnState<V, S>, k: nat)
    requires WellBuilt(plan) && k < |plan.order| && |states| == |plan.nodes| && Midway(ops, plan, given, b, states, t, k)
    requires plan.order[k] !in plan.flushLists[k]
    ensures |t.values| == |t.states| == |plan.nodes|
    ensures Dropped(t.values, plan.flushLists[k])[plan.order[k]] == t.values[plan.order[k]]
  {
    hide FlushedAt, RanSo, Waits;
  }

  /** An input gives its node the value it comes with, unless a later input gives it another. */
  lemma {:induction false} GivenLast<V>(inputs: seq<Outlet>, xs: seq<V>, k: nat, ix: nat)
    requires ix < k <= |inputs| && k <= |xs| && forall j | ix < j < k :: inputs[j].node != inputs[ix].node
    ensures inputs[ix].node in Given(inputs, xs, k) && Given(inputs, xs, k)[inputs[ix].node] == xs[ix]
  {
    if ix < k - 1 {
      GivenLast(inputs, xs, k - 1, ix);
    }
  }

  /** Every step runs. */
  lemma {:induction false} StepsGoOn<V(!new), S(!new)>(ops: Ops<V, S>, plan: Plan<V>, given: map<nat, V>, later: Bindings,
                                                       vals: seq<seq<V>>, start: TurnState<V, S>, k: nat, known: set<Symbol>)
    requires WellBuilt(plan) && Named(plan) && Arity(ops, plan) && ReadsOnly(ops) && k <= |plan.order|
    requires |start.states| == |plan.nodes| && Ready(ops, plan, given, start.values)
    requires |start.values| == |plan.nodes| && NeedsBound(ops, plan, start)
    requires Solves(ops, plan, given, later, start.states, vals) && SolutionFits(ops, plan, later, vals)
    requires StepsLegible(plan, known) && known <= start.bindings.Keys && Extends(later, start.bindings)
    ensures var (after, status) := Steps(ops, plan, start, k);
            && status == Running && Midway(ops, plan, given, later, start.states, after, k)
            && Extends(later, after.bindings) && known + StepSymbols(plan, k) <= after.bindings.Keys
  {
    hide WellBuilt, Named, Arity, ReadsOnly, Ready, Midway, Step, Naive, AllFit, FactsLegible, Alike, Extends, Solves;
    hide StepsLegible, SolutionFits, NeedsBound, Shaped;
    BuiltIsShaped(plan);
    if k == 0 {
      MidwayFromReady(ops, plan, given, later, start);
    } else {
      StepsGoOn(ops, plan, given, later, vals, start, k - 1, known);
      var before := Steps(ops, plan, start, k - 1).0;
      StepFacts(ops, plan, given, later, start, vals, known, k - 1);
      SolvedIsNaive(ops, plan, given, later, start.states, vals, k - 1);
      BoundAlike(ops.needs(plan.order[k - 1]), before.bindings, later);
      StepGoesOn(ops, plan, given, later, start.states, vals, before, k - 1, known + StepSymbols(plan, k - 1));
    }
  }

  lemma StepFacts<V(!new), S(!new)>(ops: Ops<V, S>, plan: Plan<V>, given: map<nat, V>, later: Bindings,
                                    start: TurnState<V, S>, vals: seq<seq<V>>, known: set<Symbol>, k: nat)
    requires Shaped(plan) && k < |plan.order| && |plan.nodes| == |start.values| == |start.states|
    requires Solves(ops, plan, given, later, start.states, vals) && SolutionFits(ops, plan, later, vals)
    requires StepsLegible(plan, known) && NeedsBound(ops, plan, start) && Steps(ops, plan, start, k).1 == Running
    ensures plan.order[k] < |vals| == |plan.nodes|
    ensures AllFit(ops, plan.nodes[plan.order[k]].facts, vals[plan.order[k]], later)
    ensures FactsLegible(plan.nodes[plan.order[k]].facts, known + StepSymbols(plan, k))
    ensures ops.needs(plan.order[k]) <= Steps(ops, plan, start, k).0.bindings.Keys
  {
    hide Holds, AllFit, FactsLegible, Steps;
  }

  lemma BoundAlike(syms: set<Symbol>, b: Bindings, later: Bindings)
    requires syms <= b.Keys && Extends(later, b)
    ensures Alike(syms, b, later)
  {}

  /** A turn from nothing stale answers whenever its inputs suit some bindings the state's
      own can grow to, the graph's equations have a solution under them, and the solution's
      values have the extents its facts are worth: and it answers that solution's outputs. */
  lemma {:induction false} SolvedTurnAnswers<V(!new), S(!new)>(ops: Ops<V, S>, plan: Plan<V>, t: TurnState<V, S>, xs: seq<V>,
                                                               later: Bindings, vals: seq<seq<V>>)
    requires WellBuilt(plan) && Named(plan) && Arity(ops, plan) && Ranked(ops, plan) && ReadsOnly(ops)
    requires Shaped(plan) && Provided(ops, plan) && |t.states| == |plan.nodes|
    requires (t.values == [] || |t.values| == |plan.nodes|) && Unstale(ops, plan, t.values)
    requires |xs| == |plan.inputs| && InputsLegible(plan, t.bindings.Keys, |xs|)
    requires StepsLegible(plan, t.bindings.Keys + InputSymbols(plan, |xs|))
    requires Extends(later, t.bindings) && AllSuit(ops, plan, later, xs, |xs|)
    requires Solves(ops, plan, Given(plan.inputs, xs, |xs|), later, t.states, vals) && SolutionFits(ops, plan, later, vals)
    ensures var r := Ran(ops, plan, t, xs).1;
            r.Some? && |r.value| == |plan.outputs|
            && forall o | 0 <= o < |plan.outputs| :: Carries(vals, plan.outputs[o], r.value[o])
  {
    hide WellBuilt, Named, Arity, Ranked, ReadsOnly, Provided, Unstale, InputsLegible, StepsLegible, AllSuit, Solves, SolutionFits;
    hide Given, SetFirst, Steps, Ready, Midway, ReadAll, Reset, NeedsBound, NaiveOutputs, InputSymbols, Readied, Extends, StepSymbols;
    var given := Given(plan.inputs, xs, |xs|);
    SuitedSet(ops, plan, t, xs, |xs|, later);
    SetSuits(ops, plan, t, xs, |xs|);
    ProvidedIsBound(ops, plan, t, xs);
    StartsReady(ops, plan, t, xs);
    var start := Started(ops, plan, t, xs);
    StepsGoOn(ops, plan, given, later, vals, start, |plan.order|, t.bindings.Keys + InputSymbols(plan, |xs|));
    OutputsHeld(ops, plan, given, later, start.states, Steps(ops, plan, start, |plan.order|).0);
    OutputsCarried(ops, plan, given, later, start.states, vals);
  }

  /** And whatever it answers are the outputs of a solution, under its own bindings. */
  lemma {:induction false} AnswersAreSolutions<V(!new), S(!new)>(ops: Ops<V, S>, plan: Plan<V>, t: TurnState<V, S>, xs: seq<V>)
    returns (vals: seq<seq<V>>)
    requires WellBuilt(plan) && Arity(ops, plan) && ReadsOnly(ops) && |t.states| == |plan.nodes|
    requires (t.values == [] || |t.values| == |plan.nodes|) && Unstale(ops, plan, t.values)
    requires NeedsBound(ops, plan, Started(ops, plan, t, xs)) && Ran(ops, plan, t, xs).1.Some?
    ensures |xs| == |plan.inputs| && Shaped(plan)
    ensures Solves(ops, plan, Given(plan.inputs, xs, |xs|), Ended(ops, plan, t, xs).bindings, t.states, vals)
    ensures var r := Ran(ops, plan, t, xs).1;
            |r.value| == |plan.outputs| && forall o | 0 <= o < |plan.outputs| :: Carries(vals, plan.outputs[o], r.value[o])
  {
    hide WellBuilt, Arity, ReadsOnly, Unstale, NeedsBound, NeedsMet, Started, Ran, Steps, Given, Midway, Solves, NaiveOutputs, Naive;
    BuiltIsShaped(plan);
    AnsweredBy(ops, plan, t, xs);
    BoundIsMet(ops, plan, Started(ops, plan, t, xs));
    var given, b := Given(plan.inputs, xs, |xs|), Ended(ops, plan, t, xs).bindings;
    TurnMidway(ops, plan, t, xs, b);
    TurnRefines(ops, plan, t, xs);
    AllComputed(ops, plan, given, b, t.states, Ended(ops, plan, t, xs));
    NaiveSolves(ops, plan, given, b, t.states);
    vals := Computed(ops, plan, given, b, t.states);
    OutputsCarried(ops, plan, given, b, t.states, vals);
  }

  lemma AllComputed<V(!new), S(!new)>(ops: Ops<V, S>, plan: Plan<V>, given: map<nat, V>, b: Bindings, states: seq<S>,
                                     t: TurnState<V, S>)
    requires WellBuilt(plan) && |states| == |plan.nodes| && Midway(ops, plan, given, b, states, t, |plan.order|)
    ensures forall k | 0 <= k < |plan.order| :: Naive(ops, plan, given, b, states, k).Some?
  {
    hide FlushedAt, Naive, StillThere, NaiveState;
    forall k | 0 <= k < |plan.order|
      ensures Naive(ops, plan, given, b, states, k).Some?
    {
      assert RanSo(ops, plan, given, b, states, t, k, |plan.order|);
    }
  }
}
