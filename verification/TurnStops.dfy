/** Where a turn of a plan that does not answer stops, and exactly what it leaves there. */
module TurnStops {
  import opened Outcomes
  import opened Outlets
  import opened Symbols
  import opened PlanTurns
  import opened PlanHistories

  // ---- A tensor that is refused ----

  /** The tensor's first `k` dimensions are let through, and the next is not. */
  ghost predicate RefusedAt(solve: Solver, es: seq<TDim>, provided: seq<int>, b: Bindings, k: nat, after: Bindings) {
    && k < |es| && k < |provided|
    && ResolveAll(solve, es[..k], provided[..k], b) == (after, true)
    && SymbolsIn(es[k]) <= after.Keys && Worth(es[k], after) != provided[k]
  }

  lemma RefusedByOne(solve: Solver, e: TDim, provided: int, b: Bindings)
    requires !Resolve(solve, e, provided, b).1
    ensures Resolve(solve, e, provided, b).0 == b && SymbolsIn(e) <= b.Keys && Worth(e, b) != provided
  {
    SubstitutedSymbols(e, b);
    ResolveKeepsBindings(solve, e, provided, b);
  }

  /** A refused tensor is refused at one dimension, all of whose symbols were bound by then and
      which is not worth its extent; it leaves bound what the dimensions before it bound. */
  lemma {:induction false} RefusedSomewhere(solve: Solver, es: seq<TDim>, provided: seq<int>, b: Bindings)
    requires !ResolveAll(solve, es, provided, b).1
    ensures exists k: nat :: RefusedAt(solve, es, provided, b, k, ResolveAll(solve, es, provided, b).0)
    decreases |es|
  {
    var (b', ok) := Resolve(solve, es[0], provided[0], b);
    var after := ResolveAll(solve, es, provided, b).0;
    if ok {
      RefusedSomewhere(solve, es[1..], provided[1..], b');
      var k: nat :| RefusedAt(solve, es[1..], provided[1..], b', k, after);
      assert es[..k + 1][1..] == es[1..][..k] && provided[..k + 1][1..] == provided[1..][..k];
      assert RefusedAt(solve, es, provided, b, k + 1, after);
    } else {
      RefusedByOne(solve, es[0], provided[0], b);
      assert RefusedAt(solve, es, provided, b, 0, after);
    }
  }

  // ---- A turn that stops at an input ----

  /** The inputs before `j` are in, and `j` is not: refused for its extents, for its type, or
      for what its fact asks besides. */
  ghost predicate StopsAtInput<V(!new), S(!new)>(ops: Ops<V, S>, plan: Plan<V>, t: TurnState<V, S>, xs: seq<V>, j: nat,
                                                 after: TurnState<V, S>)
    requires Shaped(plan) && |xs| == |plan.inputs| && (t.values == [] || |t.values| == |plan.nodes|)
  {
    && j < |xs| && SetFirst(ops, plan, t, xs, j).1
    && var before := SetFirst(ops, plan, t, xs, j).0;
       var (es, provided) := (ShapeOfInput(plan, j), ops.extents(xs[j]));
       && after.values == before.values && after.states == t.states
       && (|| (exists d: nat :: RefusedAt(ops.solve, es, provided, before.bindings, d, after.bindings))
           || (ResolveAll(ops.solve, es, provided, before.bindings) == (after.bindings, true)
               && (!ops.typed(j, xs[j]) || !Matches(es, provided, after.bindings))))
  }

  lemma InputStops<V(!new), S(!new)>(ops: Ops<V, S>, plan: Plan<V>, t: TurnState<V, S>, xs: seq<V>, j: nat)
    requires Shaped(plan) && j < |xs| == |plan.inputs| && (t.values == [] || |t.values| == |plan.nodes|)
    requires SetFirst(ops, plan, t, xs, j).1 && !SetInput(ops, plan, SetFirst(ops, plan, t, xs, j).0, j, xs[j]).1
    ensures StopsAtInput(ops, plan, t, xs, j, SetInput(ops, plan, SetFirst(ops, plan, t, xs, j).0, j, xs[j]).0)
  {
    hide SetFirst, Shaped, ResolveAll, Matches;
    var before := SetFirst(ops, plan, t, xs, j).0;
    if !ResolveAll(ops.solve, ShapeOfInput(plan, j), ops.extents(xs[j]), before.bindings).1 {
      RefusedSomewhere(ops.solve, ShapeOfInput(plan, j), ops.extents(xs[j]), before.bindings);
    }
  }

  lemma {:induction false} InputsStop<V(!new), S(!new)>(ops: Ops<V, S>, plan: Plan<V>, t: TurnState<V, S>, xs: seq<V>, k: nat)
    requires Shaped(plan) && k <= |xs| == |plan.inputs| && (t.values == [] || |t.values| == |plan.nodes|)
    requires !SetFirst(ops, plan, t, xs, k).1
    ensures exists j: nat :: StopsAtInput(ops, plan, t, xs, j, SetFirst(ops, plan, t, xs, k).0)
  {
    hide Shaped, SetInput, StopsAtInput;
    if SetFirst(ops, plan, t, xs, k - 1).1 {
      InputStops(ops, plan, t, xs, k - 1);
    } else {
      InputsStop(ops, plan, t, xs, k - 1);
    }
  }

  // ---- A turn that stops at a step ----

  /** Node `n`'s wires all hold a value, and these are they. */
  predicate Reads<V(==)>(values: seq<Option<seq<V>>>, inputs: seq<Outlet>, xs: seq<V>) {
    |xs| == |inputs|
    && forall i | 0 <= i < |inputs| ::
         && inputs[i].node < |values| && values[inputs[i].node].Some? && inputs[i].slot < |values[inputs[i].node].value|
         && xs[i] == values[inputs[i].node].value[inputs[i].slot]
  }

  lemma {:induction false} ReadsExactly<V>(values: seq<Option<seq<V>>>, inputs: seq<Outlet>, xs: seq<V>)
    ensures ReadAll(values, inputs) == Some(xs) <==> Reads(values, inputs, xs)
  {
    if inputs != [] {
      if |xs| == |inputs| {
        ReadsExactly(values, inputs[1..], xs[1..]);
        assert xs == [xs[0]] + xs[1..];
        if Reads(values, inputs[1..], xs[1..]) && ReadOne(values, inputs[0]) == Some(xs[0]) {
          forall i | 1 <= i < |inputs|
            ensures inputs[i].node < |values| && values[inputs[i].node].Some? && inputs[i].slot < |values[inputs[i].node].value|
            ensures xs[i] == values[inputs[i].node].value[inputs[i].slot]
          {
            assert inputs[i] == inputs[1..][i - 1] && xs[i] == xs[1..][i - 1];
          }
        }
        if Reads(values, inputs, xs) {
          forall i | 0 <= i < |inputs[1..]|
            ensures inputs[1..][i] == inputs[i + 1] && xs[1..][i] == xs[i + 1]
          {}
        }
      } else if ReadAll(values, inputs).Some? {
        ReadLength(values, inputs);
      }
    }
  }

  lemma {:induction false} ReadLength<V>(values: seq<Option<seq<V>>>, inputs: seq<Outlet>)
    requires ReadAll(values, inputs).Some?
    ensures |ReadAll(values, inputs).value| == |inputs|
  {
    if inputs != [] {
      ReadLength(values, inputs[1..]);
    }
  }

  /** The values but those the step flushes. */
  predicate Flushed<V(==)>(before: seq<Option<seq<V>>>, list: seq<nat>, after: seq<Option<seq<V>>>) {
    |after| == |before| && forall n | 0 <= n < |before| :: after[n] == if n in list then None else before[n]
  }

  /** The steps before `k` are run, and `k` stops: with nothing changed where a wire holds
      nothing; and otherwise with what it flushes gone, its op's state stepped, and no outputs,
      for the op made none or their extents clash, with what they bound by then bound. */
  ghost predicate StopsAtStep<V(!new), S(!new)>(ops: Ops<V, S>, plan: Plan<V>, start: TurnState<V, S>, k: nat,
                                                after: TurnState<V, S>)
    requires Shaped(plan) && |plan.nodes| == |start.values| == |start.states|
  {
    && k < |plan.order| && Steps(ops, plan, start, k).1 == Running
    && var before := Steps(ops, plan, start, k).0;
       var n := plan.order[k];
       if forall xs :: !Reads(before.values, plan.nodes[n].inputs, xs) then after == before
       else exists xs, outs :: Reads(before.values, plan.nodes[n].inputs, xs) && Unmade(ops, plan, before, k, xs, outs, after)
  }

  ghost predicate Unmade<V(!new), S(!new)>(ops: Ops<V, S>, plan: Plan<V>, before: TurnState<V, S>, k: nat, xs: seq<V>,
                                           outs: Option<seq<V>>, after: TurnState<V, S>)
    requires Shaped(plan) && k < |plan.order| && |plan.nodes| == |before.values| == |before.states|
  {
    var n := plan.order[k];
    && Flushed(before.values, plan.flushLists[k], after.values)
    && |after.states| == |plan.nodes| && after.states == before.states[n := after.states[n]]
    && ops.eval(n, before.states[n], if plan.nodes[n].inputs == [] && after.values[n].Some? then after.values[n].value else xs,
                before.bindings) == (after.states[n], outs)
    && if outs.None? then after.bindings == before.bindings
       else
         && !(plan.symbols <= before.bindings.Keys)
         && ResolveOutputs(ops, plan.nodes[n].facts, outs.value, before.bindings) == (after.bindings, false)
  }

  lemma StepStops<V(!new), S(!new)>(ops: Ops<V, S>, plan: Plan<V>, start: TurnState<V, S>, k: nat)
    requires Shaped(plan) && k < |plan.order| && |plan.nodes| == |start.values| == |start.states|
    requires Steps(ops, plan, start, k).1 == Running && Steps(ops, plan, start, k + 1).1 != Running
    ensures StopsAtStep(ops, plan, start, k, Steps(ops, plan, start, k + 1).0)
  {
    hide ResolveOutputs, Reads, ReadAll;
    var before := Steps(ops, plan, start, k).0;
    var (after, status) := Step(ops, plan, before, k);
    assert Steps(ops, plan, start, k + 1) == (after, status);
    var n := plan.order[k];
    var inputs := plan.nodes[n].inputs;
    forall xs
      ensures ReadAll(before.values, inputs) == Some(xs) <==> Reads(before.values, inputs, xs)
    {
      ReadsExactly(before.values, inputs, xs);
    }
    var read := ReadAll(before.values, inputs);
    if read.Some? {
      var values := Dropped(before.values, plan.flushLists[k]);
      var outs := ops.eval(n, before.states[n], Handed(plan.nodes[n], read.value, values[n]), before.bindings).1;
      assert Unmade(ops, plan, before, k, read.value, outs, after);
    }
  }

  lemma {:induction false} StepsStop<V(!new), S(!new)>(ops: Ops<V, S>, plan: Plan<V>, start: TurnState<V, S>, m: nat)
    requires Shaped(plan) && m <= |plan.order| && |plan.nodes| == |start.values| == |start.states|
    requires Steps(ops, plan, start, m).1 != Running
    ensures exists k: nat :: StopsAtStep(ops, plan, start, k, Steps(ops, plan, start, m).0)
  {
    hide Shaped, Step, StopsAtStep;
    if Steps(ops, plan, start, m - 1).1 == Running {
      StepStops(ops, plan, start, m - 1);
    } else {
      StepsStop(ops, plan, start, m - 1);
    }
  }

  /** A turn that does not answer was given another number of inputs, and leaves all as it was;
      or stopped at an input, at a step, or at an output nothing holds; and there is no reset. */
  lemma UnansweredStops<V(!new), S(!new)>(ops: Ops<V, S>, plan: Plan<V>, t: TurnState<V, S>, xs: seq<V>)
    requires Shaped(plan) && |t.states| == |plan.nodes| && (t.values == [] || |t.values| == |plan.nodes|)
    requires Ran(ops, plan, t, xs).1.None?
    ensures var after := Ran(ops, plan, t, xs).0;
            if |xs| != |plan.inputs| then after == t
            else if !SetFirst(ops, plan, t, xs, |xs|).1 then exists j: nat :: StopsAtInput(ops, plan, t, xs, j, after)
            else
              var start := Started(ops, plan, t, xs);
              || (exists k: nat :: StopsAtStep(ops, plan, start, k, after))
              || (Steps(ops, plan, start, |plan.order|) == (after, Running)
                  && forall outs :: !Reads(after.values, plan.outputs, outs))
  {
    hide Shaped, SetFirst, Steps, StopsAtInput, StopsAtStep, Reads, ReadAll;
    if |xs| == |plan.inputs| {
      if !SetFirst(ops, plan, t, xs, |xs|).1 {
        InputsStop(ops, plan, t, xs, |xs|);
      } else {
        var start := Started(ops, plan, t, xs);
        var (done, status) := Steps(ops, plan, start, |plan.order|);
        if status != Running {
          StepsStop(ops, plan, start, |plan.order|);
        } else {
          forall outs
            ensures ReadAll(done.values, plan.outputs) == Some(outs) <==> Reads(done.values, plan.outputs, outs)
          {
            ReadsExactly(done.values, plan.outputs, outs);
          }
        }
      }
    }
  }
}
