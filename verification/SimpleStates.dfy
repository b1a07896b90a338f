/** A plan's state as it is run: inputs set, steps executed in order with values flushed
    behind them, outputs read, the turn reset. */
module SimpleStates {
  import opened Outcomes
  import opened Outlets
  import opened Symbols
  import opened PlanTurns
  import opened PlanHistories
  import opened PlanRefinement

  class SimpleState<V(!new), S(!new)> {
    const plan: Plan<V>
    const ops: Ops<V, S>
    var values: seq<Option<seq<V>>>
    var bindings: Bindings
    var states: seq<S>

    ghost predicate Valid()
      reads this
    {
      Shaped(plan) && |states| == |plan.nodes| && (values == [] || |values| == |plan.nodes|)
    }

    ghost function Turn(): TurnState<V, S>
      reads this
    {
      TurnState(values, bindings, states)
    }

    constructor (plan: Plan<V>, ops: Ops<V, S>, states: seq<S>)
      requires Shaped(plan) && |states| == |plan.nodes|
      ensures Valid() && this.plan == plan && this.ops == ops
      ensures Clean(plan, Turn()) && this.states == states
    {
      this.plan, this.ops, this.states := plan, ops, states;
      values, bindings := [], map[];
    }

    method ReadyTurn()
      requires Valid()
      modifies this`values
      ensures Valid() && values == Readied(plan, old(values))
    {
      if |values| == 0 {
        var ready: seq<Option<seq<V>>> := seq(|plan.nodes|, _ => None);
        var n := 0;
        while n < |plan.nodes|
          invariant 0 <= n <= |plan.nodes| == |ready|
          invariant forall m | 0 <= m < |plan.nodes| ::
            ready[m] == if m < n && plan.nodes[m].konst.Some? then Some([plan.nodes[m].konst.value]) else None
        {
          if plan.nodes[n].konst.Some? {
            ready := ready[n := Some([plan.nodes[n].konst.value])];
          }
          n := n + 1;
        }
        values := ready;
      }
    }

    /** One dimension: binds a bare unbound symbol, checks what can be checked, and solves
        for a last unbound symbol. */
    method ResolveDim(e: TDim, provided: int) returns (ok: bool)
      requires Valid()
      modifies this`bindings
      ensures Valid() && (bindings, ok) == Resolve(ops.solve, e, provided, old(bindings))
    {
      if e.Sym? && e.sym !in bindings {
        bindings := bindings[e.sym := provided];
        return true;
      }
      var expected := Substituted(e, bindings);
      if expected.Val? && expected.value != provided {
        return false;
      }
      if |SymbolsIn(expected)| == 1 {
        var sym := FirstSymbol(expected).value;
        var v := ops.solve(sym, expected, provided);
        if v.Some? {
          bindings := bindings[sym := v.value];
        }
      }
      ok := true;
    }

    method ResolveDims(es: seq<TDim>, provided: seq<int>) returns (ok: bool)
      requires Valid()
      modifies this`bindings
      ensures Valid() && (bindings, ok) == ResolveAll(ops.solve, es, provided, old(bindings))
    {
      var k := 0;
      ok := true;
      while k < |es| && k < |provided|
        invariant 0 <= k <= |es| && k <= |provided| && Valid() && ok
        invariant ResolveAll(ops.solve, es, provided, old(bindings))
                  == ResolveAll(ops.solve, es[k..], provided[k..], bindings)
      {
        ok := ResolveDim(es[k], provided[k]);
        if !ok {
          return;
        }
        assert es[k..][1..] == es[k + 1..] && provided[k..][1..] == provided[k + 1..];
        k := k + 1;
      }
    }

    method SetOne(ix: nat, x: V) returns (ok: bool)
      requires Valid() && ix < |plan.inputs|
      modifies this`values, this`bindings
      ensures Valid() && (Turn(), ok) == SetInput(ops, plan, old(Turn()), ix, x)
    {
      var o := plan.inputs[ix];
      assert o in plan.inputs + plan.outputs;
      ok := ResolveDims(plan.nodes[o.node].facts[o.slot], ops.extents(x));
      if !ok {
        return;
      }
      ok := ops.typed(ix, x) && Matches(plan.nodes[o.node].facts[o.slot], ops.extents(x), bindings);
      if !ok {
        return;
      }
      ReadyTurn();
      values := values[o.node := Some([x])];
    }

    method SetInputs(xs: seq<V>) returns (ok: bool)
      requires Valid()
      modifies this`values, this`bindings
      ensures Valid()
      ensures if |xs| != |plan.inputs| then !ok && Turn() == old(Turn())
              else (Turn(), ok) == SetFirst(ops, plan, old(Turn()), xs, |xs|)
    {
      if |xs| != |plan.inputs| {
        return false;
      }
      ok := true;
      var k := 0;
      while k < |xs|
        invariant 0 <= k <= |xs| && Valid() && ok
        invariant (Turn(), true) == SetFirst(ops, plan, old(Turn()), xs, k)
      {
        ok := SetOne(k, xs[k]);
        if !ok {
          FailedFirst(ops, plan, old(Turn()), xs, k + 1, |xs|);
          return;
        }
        k := k + 1;
      }
    }

    method ResolveOutputDims(facts: seq<seq<TDim>>, vs: seq<V>) returns (ok: bool)
      requires Valid()
      modifies this`bindings
      ensures Valid() && (bindings, ok) == ResolveOutputs(ops, facts, vs, old(bindings))
    {
      var k := 0;
      ok := true;
      while k < |facts| && k < |vs|
        invariant 0 <= k <= |facts| && k <= |vs| && Valid() && ok
        invariant ResolveOutputs(ops, facts, vs, old(bindings)) == ResolveOutputs(ops, facts[k..], vs[k..], bindings)
      {
        ok := ResolveDims(facts[k], ops.extents(vs[k]));
        if !ok {
          return;
        }
        assert facts[k..][1..] == facts[k + 1..] && vs[k..][1..] == vs[k + 1..];
        k := k + 1;
      }
    }

    method Gather(inputs: seq<Outlet>) returns (r: Option<seq<V>>)
      requires Valid()
      ensures r == ReadAll(values, inputs)
    {
      var xs := [];
      var i := 0;
      while i < |inputs|
        invariant 0 <= i <= |inputs| && ReadAll(values, inputs[..i]) == Some(xs)
      {
        var x := ReadOne(values, inputs[i]);
        ReadOneMore(values, inputs, i);
        if x.None? {
          ReadNoMore(values, inputs, i + 1, |inputs|);
          assert inputs[..|inputs|] == inputs;
          return None;
        }
        xs := xs + [x.value];
        i := i + 1;
      }
      assert inputs[..i] == inputs;
      r := Some(xs);
    }

    method Flush(list: seq<nat>)
      requires Valid() && forall n | n in list :: n < |values|
      modifies this`values
      ensures Valid() && values == Dropped(old(values), list)
    {
      var i := 0;
      while i < |list|
        invariant 0 <= i <= |list| && Valid() && |values| == |old(values)|
        invariant forall n | 0 <= n < |values| :: values[n] == if n in list[..i] then None else old(values)[n]
      {
        assert list[i] in list && list[..i + 1] == list[..i] + [list[i]];
        values := values[list[i] := None];
        i := i + 1;
      }
      assert list[..i] == list;
    }

    /** The steps in order, each reading its inputs, dropping what no later step reads,
        and evaluating. */
    method Exec() returns (status: Status)
      requires Valid() && |values| == |plan.nodes|
      modifies this
      ensures Valid() && (Turn(), status) == Steps(ops, plan, old(Turn()), |plan.order|)
    {
      hide Step;
      status := Running;
      var bound := plan.symbols <= bindings.Keys;
      var step := 0;
      while step < |plan.order|
        invariant 0 <= step <= |plan.order| && Valid() && |values| == |plan.nodes|
        invariant status == Running && (bound <==> plan.symbols <= bindings.Keys)
        invariant (Turn(), status) == Steps(ops, plan, old(Turn()), step)
      {
        status := RunStep(step, bound);
        if status != Running {
          StoppedFirst(ops, plan, old(Turn()), step + 1, |plan.order|);
          return;
        }
        bound := plan.symbols <= bindings.Keys;
        step := step + 1;
      }
    }

    method RunStep(step: nat, bound: bool) returns (status: Status)
      requires Valid() && |values| == |plan.nodes| && step < |plan.order| && (bound <==> plan.symbols <= bindings.Keys)
      modifies this
      ensures Valid() && |values| == |plan.nodes|
      ensures (Turn(), status) == Step(ops, plan, old(Turn()), step)
    {
      var n := plan.order[step];
      var node := plan.nodes[n];
      var inputs := Gather(node.inputs);
      if inputs.None? {
        return PrecursorMissing;
      }
      Flush(plan.flushLists[step]);
      var args := inputs.value;
      if node.inputs == [] && values[n].Some? {
        args := values[n].value;
      }
      var (state, outs) := ops.eval(n, states[n], args, bindings);
      states := states[n := state];
      if outs.None? {
        return EvalFailed;
      }
      if !bound {
        var ok := ResolveOutputDims(node.facts, outs.value);
        if !ok {
          return Clash;
        }
      }
      values := values[n := outs];
      status := Running;
    }

    method ResetTurn()
      requires Valid() && |values| == |plan.nodes|
      modifies this`values, this`bindings
      ensures Valid() && Turn() == Reset(plan, old(Turn()))
    {
      Flush(plan.order);
      bindings := map[];
    }

    /** One turn. From a state nothing stale is left in, the ops finding bound what they need,
        an answer is naive evaluation's on this turn's inputs under this turn's bindings, and
        the state is left clean; and the constants stay in, the turn answered or failed. */
    method Run(xs: seq<V>) returns (r: Option<seq<V>>)
      requires Valid()
      modifies this
      ensures Valid() && (Turn(), r) == Ran(ops, plan, old(Turn()), xs)
      ensures WellBuilt(plan) && Arity(ops, plan) && ReadsOnly(ops) && old(Unstale(ops, plan, values))
              && NeedsBound(ops, plan, Started(ops, plan, old(Turn()), xs)) && r.Some? ==>
        && |xs| == |plan.inputs| && Clean(plan, Turn())
        && var b := Ended(ops, plan, old(Turn()), xs).bindings;
           && r == NaiveOutputs(ops, plan, Given(plan.inputs, xs, |xs|), b, old(states))
           && states == NaiveStates(ops, plan, Given(plan.inputs, xs, |xs|), b, old(states))
      ensures WellBuilt(plan) && old(Seeded(plan, Turn())) ==> Seeded(plan, Turn())
    {
      hide Seeded, Steps, SetFirst, NaiveOutputs, NaiveStates, WellBuilt, Arity, ReadsOnly, NeedsBound, Started, Unstale,
           Clean, Reset, Given;
      ghost var was := Turn();
      if WellBuilt(plan) && Seeded(plan, was) {
        TurnKeepsSeeded(ops, plan, was, xs);
      }
      var ok := SetInputs(xs);
      if !ok {
        return None;
      }
      ReadyTurn();
      var status := Exec();
      if status != Running {
        return None;
      }
      r := Gather(plan.outputs);
      if r.Some? {
        ResetTurn();
        if WellBuilt(plan) && Arity(ops, plan) && ReadsOnly(ops) && Unstale(ops, plan, was.values)
           && NeedsBound(ops, plan, Started(ops, plan, was, xs)) {
          TurnRefines(ops, plan, was, xs);
        }
      }
    }
  }

  lemma {:induction false} ReadAllConcat<V>(values: seq<Option<seq<V>>>, a: seq<Outlet>, i: Outlet)
    ensures ReadAll(values, a + [i])
            == match (ReadAll(values, a), ReadOne(values, i))
               case (Some(xs), Some(x)) => Some(xs + [x])
               case _ => None
  {
    if a == [] {
      assert [i][1..] == [] && a + [i] == [i];
      if ReadOne(values, i).Some? {
        assert [ReadOne(values, i).value] + [] == [] + [ReadOne(values, i).value];
      }
    } else {
      ReadAllConcat(values, a[1..], i);
      assert (a + [i])[1..] == a[1..] + [i];
      if ReadAll(values, a).Some? && ReadOne(values, i).Some? {
        var rest := ReadAll(values, a[1..]).value;
        assert [ReadOne(values, a[0]).value] + (rest + [ReadOne(values, i).value])
               == ([ReadOne(values, a[0]).value] + rest) + [ReadOne(values, i).value];
      }
    }
  }

  lemma ReadOneMore<V>(values: seq<Option<seq<V>>>, inputs: seq<Outlet>, i: nat)
    requires i < |inputs|
    ensures ReadAll(values, inputs[..i + 1])
            == match (ReadAll(values, inputs[..i]), ReadOne(values, inputs[i]))
               case (Some(xs), Some(x)) => Some(xs + [x])
               case _ => None
  {
    assert inputs[..i + 1] == inputs[..i] + [inputs[i]];
    ReadAllConcat(values, inputs[..i], inputs[i]);
  }

  lemma {:induction false} ReadNoMore<V>(values: seq<Option<seq<V>>>, inputs: seq<Outlet>, j: nat, k: nat)
    requires j <= k <= |inputs| && ReadAll(values, inputs[..j]).None?
    ensures ReadAll(values, inputs[..k]).None?
    decreases k
  {
    if j < k {
      ReadNoMore(values, inputs, j, k - 1);
      ReadOneMore(values, inputs, k - 1);
    }
  }

  lemma {:induction false} FailedFirst<V(!new), S(!new)>(ops: Ops<V, S>, plan: Plan<V>, t: TurnState<V, S>, xs: seq<V>,
                                                         j: nat, k: nat)
    requires Shaped(plan) && j <= k <= |xs| == |plan.inputs| && (t.values == [] || |t.values| == |plan.nodes|)
    requires !SetFirst(ops, plan, t, xs, j).1
    ensures SetFirst(ops, plan, t, xs, k) == SetFirst(ops, plan, t, xs, j)
    decreases k
  {
    if j < k {
      FailedFirst(ops, plan, t, xs, j, k - 1);
    }
  }

  lemma {:induction false} StoppedFirst<V(!new), S(!new)>(ops: Ops<V, S>, plan: Plan<V>, t: TurnState<V, S>, j: nat, k: nat)
    requires Shaped(plan) && j <= k <= |plan.order| && |plan.nodes| == |t.values| == |t.states|
    requires Steps(ops, plan, t, j).1 != Running
    ensures Steps(ops, plan, t, k) == Steps(ops, plan, t, j)
    decreases k
  {
    if j < k {
      StoppedFirst(ops, plan, t, j, k - 1);
    }
  }
}
