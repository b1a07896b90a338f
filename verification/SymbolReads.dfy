/** The symbols ops read as they run: in a plan built with the dependencies symbols make,
    every one of them is bound by then. */
module SymbolReads {
  import opened Outlets
  import opened Symbols
  import opened FlushLists
  import opened PlanTurns
  import opened PlanRefinement
  import opened PlanHistories
  import opened PlanBuilding
  import SymbolDeps

  /** The symbol is one of the dimensions, bare. */
  predicate Offers(es: seq<TDim>, sym: Symbol) {
    exists d :: 0 <= d < |es| && es[d] == Sym(sym)
  }

  ghost predicate OfferedByInput<V>(plan: Plan<V>, sym: Symbol)
    requires Shaped(plan)
  {
    exists ix :: 0 <= ix < |plan.inputs| && Offers(ShapeOfInput(plan, ix), sym)
  }

  predicate OfferedBy<V>(node: PlanNode<V>, sym: Symbol) {
    exists o :: 0 <= o < |node.facts| && Offers(node.facts[o], sym)
  }

  /** Each symbol an op needs is a bare dimension of a model input, or of an output of an
      earlier step. */
  ghost predicate Provided<V(!new), S(!new)>(ops: Ops<V, S>, plan: Plan<V>)
    requires Shaped(plan)
  {
    forall k: nat, sym: Symbol | k < |plan.order| && sym in ops.needs(plan.order[k]) ::
      OfferedByInput(plan, sym) || exists j :: 0 <= j < k && OfferedBy(plan.nodes[plan.order[j]], sym)
  }

  /** The outputs of an op have the ranks of its node's facts. */
  ghost predicate Ranked<V(!new), S(!new)>(ops: Ops<V, S>, plan: Plan<V>) {
    forall n: nat, s, xs, b, o: nat ::
      n < |plan.nodes| && ops.eval(n, s, xs, b).1.Some? && o < |plan.nodes[n].facts| && o < |ops.eval(n, s, xs, b).1.value|
      ==> |ops.extents(ops.eval(n, s, xs, b).1.value[o])| == |plan.nodes[n].facts[o]|
  }

  // ---- Bound when it is needed ----

  lemma {:induction false} InputsRanked<V(!new), S(!new)>(ops: Ops<V, S>, plan: Plan<V>, t: TurnState<V, S>, xs: seq<V>,
                                                          k: nat, ix: nat)
    requires Shaped(plan) && ix < k <= |xs| == |plan.inputs| && (t.values == [] || |t.values| == |plan.nodes|)
    requires SetFirst(ops, plan, t, xs, k).1
    ensures |ops.extents(xs[ix])| == |ShapeOfInput(plan, ix)|
  {
    hide Shaped, ResolveAll;
    if ix < k - 1 {
      InputsRanked(ops, plan, t, xs, k - 1, ix);
    }
  }

  lemma {:induction false} InputBinds<V(!new), S(!new)>(ops: Ops<V, S>, plan: Plan<V>, t: TurnState<V, S>, xs: seq<V>,
                                                        sym: Symbol)
    requires Shaped(plan) && |xs| == |plan.inputs| && (t.values == [] || |t.values| == |plan.nodes|)
    requires SetFirst(ops, plan, t, xs, |xs|).1 && OfferedByInput(plan, sym)
    ensures sym in SetFirst(ops, plan, t, xs, |xs|).0.bindings
  {
    hide Shaped, SetFirst, ShapeOfInput;
    var ix :| 0 <= ix < |plan.inputs| && Offers(ShapeOfInput(plan, ix), sym);
    var d :| 0 <= d < |ShapeOfInput(plan, ix)| && ShapeOfInput(plan, ix)[d] == Sym(sym);
    InputsRanked(ops, plan, t, xs, |xs|, ix);
    InputsAgree(ops, plan, t, xs, |xs|, ix, d);
    assert sym in SymbolsIn(ShapeOfInput(plan, ix)[d]);
  }

  /** What a step that ran made. */
  lemma StepMade<V(!new), S(!new)>(ops: Ops<V, S>, plan: Plan<V>, t: TurnState<V, S>, j: nat)
    requires Shaped(plan) && Arity(ops, plan) && Ranked(ops, plan)
    requires j < |plan.order| && |plan.nodes| == |t.values| == |t.states|
    requires Steps(ops, plan, t, j).1 == Running && Steps(ops, plan, t, j + 1).1 == Running
    ensures var n := plan.order[j];
            var made := Steps(ops, plan, t, j + 1).0.values[n];
            && made.Some? && |made.value| == |plan.nodes[n].facts|
            && forall o | 0 <= o < |made.value| :: |ops.extents(made.value[o])| == |plan.nodes[n].facts[o]|
  {
    hide Steps, ReadAll, Dropped, ResolveOutputs;
    var next := j + 1;
    var before, n := Steps(ops, plan, t, j).0, plan.order[j];
    StepIsLast(ops, plan, t, j);
    var xs := Handed(plan.nodes[n], ReadAll(before.values, plan.nodes[n].inputs).value,
                     Dropped(before.values, plan.flushLists[j])[n]);
    assert Steps(ops, plan, t, next).0.values[n] == ops.eval(n, before.states[n], xs, before.bindings).1;
  }

  lemma StepIsLast<V(!new), S(!new)>(ops: Ops<V, S>, plan: Plan<V>, t: TurnState<V, S>, j: nat)
    requires Shaped(plan) && j < |plan.order| && |plan.nodes| == |t.values| == |t.states|
    requires Steps(ops, plan, t, j).1 == Running
    ensures Steps(ops, plan, t, j + 1) == Step(ops, plan, Steps(ops, plan, t, j).0, j)
  {}

  lemma {:induction false} FactSymbolsHold(facts: seq<seq<TDim>>, o: nat)
    requires o < |facts|
    ensures SymbolsInAll(facts[o]) <= FactSymbols(facts)
  {
    if o > 0 {
      FactSymbolsHold(facts[1..], o - 1);
    }
  }

  lemma {:induction false} NodeSymbolsHold<V>(nodes: seq<PlanNode<V>>, k: nat, n: nat)
    requires n < k <= |nodes|
    ensures FactSymbols(nodes[n].facts) <= NodeSymbols(nodes, k)
  {
    if n < k - 1 {
      NodeSymbolsHold(nodes, k - 1, n);
    }
  }

  lemma {:induction false} OfferedIsThere(es: seq<TDim>, d: nat)
    requires d < |es|
    ensures SymbolsIn(es[d]) <= SymbolsInAll(es)
  {
    if d > 0 {
      OfferedIsThere(es[1..], d - 1);
    }
  }

  lemma OfferedIsNamed<V>(plan: Plan<V>, n: nat, sym: Symbol)
    requires Named(plan) && n < |plan.nodes| && OfferedBy(plan.nodes[n], sym)
    ensures sym in plan.symbols
  {
    var facts := plan.nodes[n].facts;
    var o :| 0 <= o < |facts| && Offers(facts[o], sym);
    var d :| 0 <= d < |facts[o]| && facts[o][d] == Sym(sym);
    OfferedIsThere(facts[o], d);
    assert sym in SymbolsIn(facts[o][d]);
    FactSymbolsHold(facts, o);
    NodeSymbolsHold(plan.nodes, |plan.nodes|, n);
  }

  lemma StepBinds<V(!new), S(!new)>(ops: Ops<V, S>, plan: Plan<V>, t: TurnState<V, S>, j: nat, k: nat, sym: Symbol)
    requires Shaped(plan) && Arity(ops, plan) && Ranked(ops, plan)
    requires j < k <= |plan.order| && |plan.nodes| == |t.values| == |t.states|
    requires Steps(ops, plan, t, k).1 == Running && Named(plan) && OfferedBy(plan.nodes[plan.order[j]], sym)
    ensures sym in Steps(ops, plan, t, k).0.bindings
  {
    hide Arity, Ranked, Steps, Named;
    var next := j + 1;
    StepsGrow(ops, plan, t, j, k);
    StepsGrow(ops, plan, t, next, k);
    OfferedIsNamed(plan, plan.order[j], sym);
    if !(plan.symbols <= Steps(ops, plan, t, j).0.bindings.Keys) {
      StepMade(ops, plan, t, j);
      var facts := plan.nodes[plan.order[j]].facts;
      var o :| 0 <= o < |facts| && Offers(facts[o], sym);
      var d :| 0 <= d < |facts[o]| && facts[o][d] == Sym(sym);
      StepAgrees(ops, plan, t, j, k, o, d);
      assert sym in SymbolsIn(facts[o][d]);
    }
  }

  /** Whatever state a turn starts from, its inputs through: each op finds bound what it
      needs. */
  lemma {:induction false} ProvidedIsBound<V(!new), S(!new)>(ops: Ops<V, S>, plan: Plan<V>, t: TurnState<V, S>, xs: seq<V>)
    requires Shaped(plan) && Named(plan) && Arity(ops, plan) && Ranked(ops, plan) && Provided(ops, plan)
    requires |t.states| == |plan.nodes|
    requires (t.values == [] || |t.values| == |plan.nodes|) && |xs| == |plan.inputs| && SetFirst(ops, plan, t, xs, |xs|).1
    ensures NeedsBound(ops, plan, Started(ops, plan, t, xs))
  {
    hide Arity, Ranked, Steps, Named, SetFirst, OfferedByInput, OfferedBy, Readied;
    var start := Started(ops, plan, t, xs);
    forall k, sym | 0 <= k < |plan.order| && Steps(ops, plan, start, k).1 == Running && sym in ops.needs(plan.order[k])
      ensures sym in Steps(ops, plan, start, k).0.bindings
    {
      if OfferedByInput(plan, sym) {
        InputBinds(ops, plan, t, xs, sym);
        StepsKeepBindings(ops, plan, start, k);
      } else {
        var j :| 0 <= j < k && OfferedBy(plan.nodes[plan.order[j]], sym);
        StepBinds(ops, plan, start, j, k, sym);
      }
    }
  }

  // ---- In a plan built so ----

  /** Each symbol an op needs is one its node mentions, and is a bare dimension of a model
      input, or of the node defining it: another one, which does not wait for it. */
  ghost predicate Defined<V(!new), S(!new)>(ops: Ops<V, S>, plan: Plan<V>, seen: seq<SymbolDeps.DepNode>, base: seq<nat>)
    requires Shaped(plan) && |seen| == |plan.nodes| && InRange(NodesRead(plan.inputs), |seen|) && InRange(base, |seen|)
  {
    forall k: nat, sym: Symbol | k < |plan.order| && sym in ops.needs(plan.order[k]) ::
      OfferedByInput(plan, sym) || DefinedBefore(plan, seen, base, plan.order[k], sym)
  }

  ghost predicate DefinedBefore<V>(plan: Plan<V>, seen: seq<SymbolDeps.DepNode>, base: seq<nat>, n: nat, sym: Symbol)
    requires n < |seen| == |plan.nodes| && InRange(NodesRead(plan.inputs), |seen|) && InRange(base, |seen|)
  {
    exists d: nat :: DefinedAt(plan, seen, base, n, sym, d)
  }

  ghost predicate DefinedAt<V>(plan: Plan<V>, seen: seq<SymbolDeps.DepNode>, base: seq<nat>, n: nat, sym: Symbol, d: nat)
    requires n < |seen| == |plan.nodes| && InRange(NodesRead(plan.inputs), |seen|) && InRange(base, |seen|)
  {
    var inputs := NodesRead(plan.inputs);
    && sym in seen[n].mentions && n in base && n !in inputs && SymbolDeps.Defines(seen, inputs, base, sym, d)
    && d != n && d !in inputs && d < |plan.nodes| && plan.nodes[d].konst.None?
    && OfferedBy(plan.nodes[d], sym) && !SymbolDeps.Before(seen, {}, d, n)
  }

  /** What the dependencies symbols make are for. */
  lemma BuiltProvides<V(!new), S(!new)>(ops: Ops<V, S>, plan: Plan<V>, seen: seq<SymbolDeps.DepNode>, base: seq<nat>)
    requires WellBuilt(plan) && Seen(plan.nodes, seen) && InRange(NodesRead(plan.inputs), |seen|) && InRange(base, |seen|)
    requires SymbolsInOrder(plan, seen, base) && Shaped(plan) && Defined(ops, plan, seen, base)
    ensures Provided(ops, plan)
  {
    hide FlushedAt, Available, SymbolDeps.Before, SymbolDeps.Defines, OfferedBy, OfferedByInput;
    forall k: nat, sym: Symbol | k < |plan.order| && sym in ops.needs(plan.order[k]) && !OfferedByInput(plan, sym)
      ensures exists j :: 0 <= j < k && OfferedBy(plan.nodes[plan.order[j]], sym)
    {
      var n := plan.order[k];
      assert DefinedBefore(plan, seen, base, n, sym);
      var d: nat :| DefinedAt(plan, seen, base, n, sym, d);
      assert SymbolDeps.Waits(seen, NodesRead(plan.inputs), base, n, d);
      assert StepOf(plan.order, d) < k;
    }
  }

  /** So in a plan built with the dependencies symbols make, whenever a turn answers that
      finds nothing stale, it answers naive evaluation's outputs under its own bindings:
      whatever symbols its ops read, and whatever bindings a failed turn left. */
  lemma {:induction false} BuiltTurnRefines<V(!new), S(!new)>(ops: Ops<V, S>, plan: Plan<V>, seen: seq<SymbolDeps.DepNode>,
                                                              base: seq<nat>, t: TurnState<V, S>, xs: seq<V>)
    requires WellBuilt(plan) && Named(plan) && Seen(plan.nodes, seen)
    requires InRange(NodesRead(plan.inputs), |seen|) && InRange(base, |seen|)
    requires SymbolsInOrder(plan, seen, base) && Shaped(plan) && Defined(ops, plan, seen, base)
    requires Arity(ops, plan) && Ranked(ops, plan) && ReadsOnly(ops) && |t.states| == |plan.nodes|
    requires (t.values == [] || |t.values| == |plan.nodes|) && Unstale(ops, plan, t.values)
    requires Ran(ops, plan, t, xs).1.Some?
    ensures |xs| == |plan.inputs|
    ensures var given, b := Given(plan.inputs, xs, |xs|), Ended(ops, plan, t, xs).bindings;
            && Ran(ops, plan, t, xs).1 == NaiveOutputs(ops, plan, given, b, t.states)
            && Ran(ops, plan, t, xs).0.states == NaiveStates(ops, plan, given, b, t.states)
            && Clean(plan, Ran(ops, plan, t, xs).0)
            && forall k | 0 <= k < |plan.order| :: ops.needs(plan.order[k]) <= b.Keys
  {
    hide WellBuilt, Named, Seen, Shaped, SymbolsInOrder, Defined, Arity, Ranked, ReadsOnly, Unstale, Ran, SetFirst, Steps,
         NaiveOutputs, NaiveStates, Clean, Given, Started, NeedsBound, Provided, Reset, ReadAll;
    BuiltProvides(ops, plan, seen, base);
    AnsweredBy(ops, plan, t, xs);
    ProvidedIsBound(ops, plan, t, xs);
    TurnRefines(ops, plan, t, xs);
    NeededIsBound(ops, plan, Started(ops, plan, t, xs));
  }

  lemma NeededIsBound<V(!new), S(!new)>(ops: Ops<V, S>, plan: Plan<V>, start: TurnState<V, S>)
    requires Shaped(plan) && |plan.nodes| == |start.values| == |start.states| && NeedsBound(ops, plan, start)
    requires Steps(ops, plan, start, |plan.order|).1 == Running
    ensures forall k | 0 <= k < |plan.order| :: ops.needs(plan.order[k]) <= Steps(ops, plan, start, |plan.order|).0.bindings.Keys
  {
    hide Shaped, Steps;
    forall k | 0 <= k < |plan.order|
      ensures ops.needs(plan.order[k]) <= Steps(ops, plan, start, |plan.order|).0.bindings.Keys
    {
      StepsGrow(ops, plan, start, k, |plan.order|);
    }
  }
}
