/** The flushing executor against naive evaluation: what each step finds, over one turn
    and over any number of them. */
module PlanRefinement {
  import opened Outcomes
  import opened Outlets
  import opened Symbols
  import opened FlushLists
  import opened PlanTurns

  // ---- What must hold before the steps run ----

  ghost predicate ConstantsIn<V>(plan: Plan<V>, values: seq<Option<seq<V>>>) {
    |values| == |plan.nodes|
    && forall n | 0 <= n < |plan.nodes| && plan.nodes[n].konst.Some? :: values[n] == Some([plan.nodes[n].konst.value])
  }

  function Preset<V>(given: map<nat, V>, n: nat): seq<V> {
    if n in given then [given[n]] else []
  }

  /** A node without inputs would answer just what it does to what this turn gives it. */
  ghost predicate HandsPreset<V(!new), S(!new)>(ops: Ops<V, S>, plan: Plan<V>, given: map<nat, V>, values: seq<Option<seq<V>>>,
                                                n: nat)
    requires n < |plan.nodes| == |values|
  {
    plan.nodes[n].inputs == [] ==>
      forall s, b :: ops.eval(n, s, Handed(plan.nodes[n], [], values[n]), b) == ops.eval(n, s, Preset(given, n), b)
  }

  ghost predicate Ready<V(!new), S(!new)>(ops: Ops<V, S>, plan: Plan<V>, given: map<nat, V>, values: seq<Option<seq<V>>>)
    requires Shaped(plan)
  {
    && ConstantsIn(plan, values)
    && forall s | 0 <= s < |plan.order| :: HandsPreset(ops, plan, given, values, plan.order[s])
  }

  // ---- After the first k steps ----

  /** Step `j`'s op state once it has run. */
  function NaiveState<V(!new), S(!new)>(ops: Ops<V, S>, plan: Plan<V>, given: map<nat, V>, b: Bindings, states: seq<S>, j: nat): S
    requires WellBuilt(plan) && j < |plan.order| && |states| == |plan.nodes|
  {
    var n := plan.order[j];
    match NaiveArgs(ops, plan, given, b, states, j)
    case None => states[n]
    case Some(xs) => ops.eval(n, states[n], xs, b).0
  }

  /** Whether the value of `n` can be needed by step `k` or later, or is never dropped. */
  predicate StillThere<V>(plan: Plan<V>, n: nat, k: nat)
    requires forall s | 0 <= s < |plan.order| :: plan.order[s] < |plan.nodes|
  {
    var until := NeededUntil(plan.nodes, plan.order, plan.outputs, n);
    until == 0 || until >= k
  }

  ghost predicate RanSo<V(!new), S(!new)>(ops: Ops<V, S>, plan: Plan<V>, given: map<nat, V>, b: Bindings, states: seq<S>,
                                          t: TurnState<V, S>, j: nat, k: nat)
    requires WellBuilt(plan) && j < |plan.order| && |states| == |plan.nodes| == |t.values| == |t.states|
  {
    var n := plan.order[j];
    && Naive(ops, plan, given, b, states, j).Some?
    && (StillThere(plan, n, k) ==> t.values[n] == Naive(ops, plan, given, b, states, j))
    && t.states[n] == NaiveState(ops, plan, given, b, states, j)
  }

  ghost predicate Waits<V(!new), S(!new)>(ops: Ops<V, S>, plan: Plan<V>, given: map<nat, V>, states: seq<S>, t: TurnState<V, S>, n: nat)
    requires n < |plan.nodes| == |states| == |t.values| == |t.states|
  {
    HandsPreset(ops, plan, given, t.values, n) && t.states[n] == states[n]
  }

  ghost predicate Midway<V(!new), S(!new)>(ops: Ops<V, S>, plan: Plan<V>, given: map<nat, V>, b: Bindings, states: seq<S>,
                                           t: TurnState<V, S>, k: nat)
    requires WellBuilt(plan) && k <= |plan.order| && |states| == |plan.nodes|
  {
    && |t.states| == |plan.nodes| && ConstantsIn(plan, t.values)
    && (forall j | 0 <= j < k :: RanSo(ops, plan, given, b, states, t, j, k))
    && (forall j | k <= j < |plan.order| :: Waits(ops, plan, given, states, t, plan.order[j]))
    && (forall n | 0 <= n < |plan.nodes| && n !in plan.order :: t.states[n] == states[n])
  }

  // ---- Reading a step's inputs ----

  lemma NeededAtRead<V>(plan: Plan<V>, i: Outlet, k: nat)
    requires Shaped(plan) && k < |plan.order| && i in plan.nodes[plan.order[k]].inputs && k > 0
    ensures StillThere(plan, i.node, k)
  {
    var node := plan.nodes[plan.order[k]];
    var x :| 0 <= x < |node.inputs| && node.inputs[x] == i;
    assert ReadsNode(node, i.node);
  }

  /** A wire still held reads what naive evaluation says. */
  lemma WireHeld<V(!new), S(!new)>(ops: Ops<V, S>, plan: Plan<V>, given: map<nat, V>, b: Bindings, states: seq<S>, t: TurnState<V, S>,
                                  k: nat, i: Outlet)
    requires WellBuilt(plan) && Arity(ops, plan) && k <= |plan.order| && |states| == |plan.nodes|
    requires Midway(ops, plan, given, b, states, t, k) && Available(plan, i, k)
    requires plan.nodes[i.node].konst.None? ==> StillThere(plan, i.node, k)
    ensures ReadOne(t.values, i).Some? && ReadOne(t.values, i) == NaiveWire(ops, plan, given, b, states, i, k)
  {
    hide FlushedAt, LastUse;
    if plan.nodes[i.node].konst.None? {
      var j := StepOf(plan.order, i.node);
      assert RanSo(ops, plan, given, b, states, t, j, k);
    }
  }

  lemma {:induction false} WiresHeld<V(!new), S(!new)>(ops: Ops<V, S>, plan: Plan<V>, given: map<nat, V>, b: Bindings, states: seq<S>,
                                                       t: TurnState<V, S>, k: nat, inputs: seq<Outlet>)
    requires WellBuilt(plan) && Arity(ops, plan) && k <= |plan.order| && |states| == |plan.nodes|
    requires Midway(ops, plan, given, b, states, t, k)
    requires forall i | i in inputs ::
      Available(plan, i, k) && (plan.nodes[i.node].konst.None? ==> StillThere(plan, i.node, k))
    ensures ReadAll(t.values, inputs).Some? && ReadAll(t.values, inputs) == NaiveWires(ops, plan, given, b, states, inputs, k)
    decreases |inputs|
  {
    hide WellBuilt, Arity, Midway, StillThere, NaiveWire;
    if inputs != [] {
      assert inputs[0] in inputs && forall i | i in inputs[1..] :: i in inputs;
      WireHeld(ops, plan, given, b, states, t, k, inputs[0]);
      WiresHeld(ops, plan, given, b, states, t, k, inputs[1..]);
    }
  }

  lemma StepReads<V(!new), S(!new)>(ops: Ops<V, S>, plan: Plan<V>, given: map<nat, V>, b: Bindings, states: seq<S>, t: TurnState<V, S>,
                                   k: nat)
    requires WellBuilt(plan) && Arity(ops, plan) && k < |plan.order| && |states| == |plan.nodes|
    requires Midway(ops, plan, given, b, states, t, k)
    ensures var inputs := plan.nodes[plan.order[k]].inputs;
            && (forall i | i in inputs :: Available(plan, i, k))
            && ReadAll(t.values, inputs).Some?
            && ReadAll(t.values, inputs) == NaiveWires(ops, plan, given, b, states, inputs, k)
  {
    hide Midway, Arity, FlushedAt, NeededUntil;
    var inputs := plan.nodes[plan.order[k]].inputs;
    forall i | i in inputs
      ensures Available(plan, i, k) && (plan.nodes[i.node].konst.None? ==> StillThere(plan, i.node, k))
    {
      assert Available(plan, i, k);
      if plan.nodes[i.node].konst.None? {
        NeededAtRead(plan, i, k);
      }
    }
    WiresHeld(ops, plan, given, b, states, t, k, inputs);
  }

  // ---- What a step drops ----

  /** A step never drops a constant, its own node, or one still to come. */
  lemma DropsOnlyDone<V>(plan: Plan<V>, k: nat, n: nat)
    requires WellBuilt(plan) && k < |plan.order| && n in plan.flushLists[k]
    ensures n < |plan.nodes| && plan.nodes[n].konst.None? && StepOf(plan.order, n) < k && !StillThere(plan, n, k + 1)
  {
    assert plan.flushLists[k] == FlushedAt(plan.nodes, plan.order, plan.outputs, k, |plan.nodes|);
    FlushedExactly(plan.nodes, plan.order, plan.outputs, k, |plan.nodes|, n);
    var node := plan.nodes[plan.order[k]];
    assert ReadsNode(node, n);
    var x :| 0 <= x < |node.inputs| && node.inputs[x].node == n;
    assert node.inputs[x] in node.inputs;
    assert Available(plan, node.inputs[x], k);
  }

  lemma EvalAlike<V(!new), S(!new)>(ops: Ops<V, S>, n: nat, s: S, xs: seq<V>, a: Bindings, b: Bindings)
    requires ReadsOnly(ops) && Alike(ops.needs(n), a, b)
    ensures ops.eval(n, s, xs, a) == ops.eval(n, s, xs, b)
  {}

  /** The step hands its op what naive evaluation would, and the bindings as far as it looks. */
  lemma StepHands<V(!new), S(!new)>(ops: Ops<V, S>, plan: Plan<V>, given: map<nat, V>, b: Bindings, states: seq<S>, t: TurnState<V, S>,
                                   k: nat)
    requires WellBuilt(plan) && Arity(ops, plan) && k < |plan.order| && |states| == |plan.nodes|
    requires Midway(ops, plan, given, b, states, t, k)
    requires ReadsOnly(ops) && Alike(ops.needs(plan.order[k]), t.bindings, b)
    ensures var n := plan.order[k];
            && ReadAll(t.values, plan.nodes[n].inputs).Some?
            && NaiveArgs(ops, plan, given, b, states, k).Some?
            && t.states[n] == states[n] && plan.order[k] !in plan.flushLists[k]
            && ops.eval(n, states[n], Handed(plan.nodes[n], ReadAll(t.values, plan.nodes[n].inputs).value, t.values[n]), t.bindings)
               == ops.eval(n, states[n], NaiveArgs(ops, plan, given, b, states, k).value, b)
  {
    hide Arity, FlushedAt, NeededUntil, ReadsOnly, Alike;
    var n := plan.order[k];
    StepReads(ops, plan, given, b, states, t, k);
    assert Waits(ops, plan, given, states, t, n);
    if n in plan.flushLists[k] {
      DropsOnlyDone(plan, k, n);
    }
    EvalAlike(ops, n, states[n], NaiveArgs(ops, plan, given, b, states, k).value, t.bindings, b);
  }

  /** One more step, if it ran. */
  lemma StepKeeps<V(!new), S(!new)>(ops: Ops<V, S>, plan: Plan<V>, given: map<nat, V>, b: Bindings, states: seq<S>, t: TurnState<V, S>,
                                   k: nat)
    requires WellBuilt(plan) && Arity(ops, plan) && k < |plan.order| && |states| == |plan.nodes|
    requires Midway(ops, plan, given, b, states, t, k)
    requires ReadsOnly(ops) && Alike(ops.needs(plan.order[k]), t.bindings, b)
    ensures var (after, status) := Step(ops, plan, t, k);
            && status != PrecursorMissing
            && (status == EvalFailed <==> Naive(ops, plan, given, b, states, k).None?)
            && (status == Running ==> Midway(ops, plan, given, b, states, after, k + 1))
  {
    hide FlushedAt, NeededUntil, Arity, ReadsOnly, Alike, ResolveOutputs, NaiveArgs;
    var n := plan.order[k];
    StepHands(ops, plan, given, b, states, t, k);
    var (after, status) := Step(ops, plan, t, k);
    if status == Running {
      assert after.values == Dropped(t.values, plan.flushLists[k])[n := Naive(ops, plan, given, b, states, k)];
      forall m | m in plan.flushLists[k]
        ensures m < |plan.nodes| && plan.nodes[m].konst.None? && StepOf(plan.order, m) < k && !StillThere(plan, m, k + 1)
      {
        DropsOnlyDone(plan, k, m);
      }
      StepsKept(ops, plan, given, b, states, t, after, k);
    }
  }

  /** What a step does to the values and the states, and what it drops. */
  ghost predicate SteppedSo<V(!new), S(!new)>(ops: Ops<V, S>, plan: Plan<V>, given: map<nat, V>, b: Bindings, states: seq<S>,
                                              t: TurnState<V, S>, after: TurnState<V, S>, k: nat)
    requires WellBuilt(plan) && k < |plan.order| && |states| == |plan.nodes|
  {
    var n := plan.order[k];
    && |t.values| == |t.states| == |plan.nodes|
    && Naive(ops, plan, given, b, states, k).Some?
    && after.values == Dropped(t.values, plan.flushLists[k])[n := Naive(ops, plan, given, b, states, k)]
    && after.states == t.states[n := NaiveState(ops, plan, given, b, states, k)]
    && forall m | m in plan.flushLists[k] ::
         m < |plan.nodes| && plan.nodes[m].konst.None? && StepOf(plan.order, m) < k && !StillThere(plan, m, k + 1)
  }

  lemma RanKept<V(!new), S(!new)>(ops: Ops<V, S>, plan: Plan<V>, given: map<nat, V>, b: Bindings, states: seq<S>, t: TurnState<V, S>,
                                 after: TurnState<V, S>, k: nat, j: nat)
    requires WellBuilt(plan) && j <= k < |plan.order| && |states| == |plan.nodes|
    requires SteppedSo(ops, plan, given, b, states, t, after, k)
    requires j < k ==> RanSo(ops, plan, given, b, states, t, j, k)
    ensures RanSo(ops, plan, given, b, states, after, j, k + 1)
  {
    hide FlushedAt, NeededUntil, Naive, NaiveState, Available;
    assert StepOf(plan.order, plan.order[j]) == j && StepOf(plan.order, plan.order[k]) == k;
  }

  lemma WaitsKept<V(!new), S(!new)>(ops: Ops<V, S>, plan: Plan<V>, given: map<nat, V>, b: Bindings, states: seq<S>, t: TurnState<V, S>,
                                   after: TurnState<V, S>, k: nat, j: nat)
    requires WellBuilt(plan) && k < j < |plan.order| && |states| == |plan.nodes|
    requires SteppedSo(ops, plan, given, b, states, t, after, k) && Waits(ops, plan, given, states, t, plan.order[j])
    ensures Waits(ops, plan, given, states, after, plan.order[j])
  {
    hide FlushedAt, NeededUntil, Naive, NaiveState, Available;
    assert StepOf(plan.order, plan.order[j]) == j && StepOf(plan.order, plan.order[k]) == k;
  }

  lemma StepsKept<V(!new), S(!new)>(ops: Ops<V, S>, plan: Plan<V>, given: map<nat, V>, b: Bindings, states: seq<S>, t: TurnState<V, S>,
                                   after: TurnState<V, S>, k: nat)
    requires WellBuilt(plan) && k < |plan.order| && |states| == |plan.nodes|
    requires Midway(ops, plan, given, b, states, t, k) && SteppedSo(ops, plan, given, b, states, t, after, k)
    ensures Midway(ops, plan, given, b, states, after, k + 1)
  {
    hide FlushedAt, NeededUntil, Naive, NaiveState, RanSo, Waits, Available;
    var next := k + 1;
    forall j | 0 <= j < next
      ensures RanSo(ops, plan, given, b, states, after, j, next)
    {
      assert j < k ==> RanSo(ops, plan, given, b, states, t, j, k);
      RanKept(ops, plan, given, b, states, t, after, k, j);
    }
    forall j | next <= j < |plan.order|
      ensures Waits(ops, plan, given, states, after, plan.order[j])
    {
      assert Waits(ops, plan, given, states, t, plan.order[j]);
      WaitsKept(ops, plan, given, b, states, t, after, k, j);
    }
  }

  // ---- Bindings ----

  lemma {:induction false} ResolveOutputsKeeps<V(!new), S(!new)>(ops: Ops<V, S>, facts: seq<seq<TDim>>, vs: seq<V>, b: Bindings)
    ensures Extends(ResolveOutputs(ops, facts, vs, b).0, b)
    decreases |facts|
  {
    if facts != [] && vs != [] {
      ResolveAllKeepsBindings(ops.solve, facts[0], ops.extents(vs[0]), b);
      ResolveOutputsKeeps(ops, facts[1..], vs[1..], ResolveAll(ops.solve, facts[0], ops.extents(vs[0]), b).0);
    }
  }

  /** Through a turn's steps a bound symbol keeps its value, whether they succeed or not. */
  lemma {:induction false} StepsKeepBindings<V(!new), S(!new)>(ops: Ops<V, S>, plan: Plan<V>, t: TurnState<V, S>, k: nat)
    requires Shaped(plan) && k <= |plan.order| && |plan.nodes| == |t.values| == |t.states|
    ensures Extends(Steps(ops, plan, t, k).0.bindings, t.bindings)
  {
    if k > 0 {
      StepsKeepBindings(ops, plan, t, k - 1);
      var (before, status) := Steps(ops, plan, t, k - 1);
      if status == Running {
        var n := plan.order[k - 1];
        var inputs := ReadAll(before.values, plan.nodes[n].inputs);
        if inputs.Some? {
          var values := Dropped(before.values, plan.flushLists[k - 1]);
          var outs := ops.eval(n, before.states[n], Handed(plan.nodes[n], inputs.value, values[n]), before.bindings).1;
          if outs.Some? {
            ResolveOutputsKeeps(ops, plan.nodes[n].facts, outs.value, before.bindings);
          }
        }
      }
    }
  }

  lemma {:induction false} StepsGrow<V(!new), S(!new)>(ops: Ops<V, S>, plan: Plan<V>, t: TurnState<V, S>, j: nat, k: nat)
    requires Shaped(plan) && j <= k <= |plan.order| && |plan.nodes| == |t.values| == |t.states|
    requires Steps(ops, plan, t, k).1 == Running
    ensures Steps(ops, plan, t, j).1 == Running
    ensures Extends(Steps(ops, plan, t, k).0.bindings, Steps(ops, plan, t, j).0.bindings)
  {
    hide Step, Shaped;
    if j < k {
      StepsGrow(ops, plan, t, j, k - 1);
      StepKeepsBindings(ops, plan, t, k - 1);
    }
  }

  lemma StepKeepsBindings<V(!new), S(!new)>(ops: Ops<V, S>, plan: Plan<V>, t: TurnState<V, S>, k: nat)
    requires Shaped(plan) && k < |plan.order| && |plan.nodes| == |t.values| == |t.states|
    requires Steps(ops, plan, t, k).1 == Running
    ensures Extends(Steps(ops, plan, t, k + 1).0.bindings, Steps(ops, plan, t, k).0.bindings)
  {
    hide Dropped, ReadAll, ResolveOutputs;
    var before := Steps(ops, plan, t, k).0;
    var n := plan.order[k];
    var inputs := ReadAll(before.values, plan.nodes[n].inputs);
    if inputs.Some? {
      var handed := Handed(plan.nodes[n], inputs.value, Dropped(before.values, plan.flushLists[k])[n]);
      var outs := ops.eval(n, before.states[n], handed, before.bindings).1;
      if outs.Some? {
        ResolveOutputsKeeps(ops, plan.nodes[n].facts, outs.value, before.bindings);
      }
    }
  }

  // ---- All the steps ----

  /** As long as the steps run, each op finds the symbols it needs as `b` has them. */
  ghost predicate NeedsMet<V(!new), S(!new)>(ops: Ops<V, S>, plan: Plan<V>, t: TurnState<V, S>, b: Bindings, k: nat)
    requires Shaped(plan) && k <= |plan.order| && |plan.nodes| == |t.values| == |t.states|
  {
    forall j | 0 <= j < k && Steps(ops, plan, t, j).1 == Running ::
      Alike(ops.needs(plan.order[j]), Steps(ops, plan, t, j).0.bindings, b)
  }

  lemma MidwayFromReady<V(!new), S(!new)>(ops: Ops<V, S>, plan: Plan<V>, given: map<nat, V>, b: Bindings, t: TurnState<V, S>)
    requires WellBuilt(plan) && |t.states| == |plan.nodes| && Ready(ops, plan, given, t.values)
    ensures Midway(ops, plan, given, b, t.states, t, 0)
  {
    hide NeededUntil, FlushedAt, Available;
    forall j | 0 <= j < |plan.order|
      ensures Waits(ops, plan, given, t.states, t, plan.order[j])
    {
      assert HandsPreset(ops, plan, given, t.values, plan.order[j]);
    }
  }

  /** No step ever finds a precursor missing; a step fails only where naive evaluation
      does; and once all have run, every value that can still be asked for is naive
      evaluation's, under any bindings the ops can not tell from those they found. */
  lemma {:induction false} StepsRefine<V(!new), S(!new)>(ops: Ops<V, S>, plan: Plan<V>, given: map<nat, V>, b: Bindings,
                                                         t: TurnState<V, S>, k: nat)
    requires WellBuilt(plan) && Arity(ops, plan) && k <= |plan.order| && |t.states| == |plan.nodes|
    requires Ready(ops, plan, given, t.values) && ReadsOnly(ops) && NeedsMet(ops, plan, t, b, k)
    ensures var (after, status) := Steps(ops, plan, t, k);
            && status != PrecursorMissing
            && (status == Running ==> Midway(ops, plan, given, b, t.states, after, k))
            && (status == EvalFailed ==> exists j :: 0 <= j < k && Naive(ops, plan, given, b, t.states, j).None?)
  {
    hide Arity, ReadsOnly, Alike, WellBuilt, HandsPreset, Midway, Step, Naive;
    BuiltIsShaped(plan);
    if k > 0 {
      StepsRefine(ops, plan, given, b, t, k - 1);
      var (before, status) := Steps(ops, plan, t, k - 1);
      if status == Running {
        StepKeeps(ops, plan, given, b, t.states, before, k - 1);
      }
    } else {
      MidwayFromReady(ops, plan, given, b, t);
    }
  }

  function NaiveOutputs<V(!new), S(!new)>(ops: Ops<V, S>, plan: Plan<V>, given: map<nat, V>, b: Bindings, states: seq<S>): Option<seq<V>>
    requires WellBuilt(plan) && |states| == |plan.nodes|
  {
    NaiveWires(ops, plan, given, b, states, plan.outputs, |plan.order|)
  }

  /** A node's op state after a turn: stepped once if the node is in the order. */
  function StateAfter<V(!new), S(!new)>(ops: Ops<V, S>, plan: Plan<V>, given: map<nat, V>, b: Bindings, states: seq<S>, n: nat): S
    requires WellBuilt(plan) && n < |states| == |plan.nodes|
  {
    var s := StepOf(plan.order, n);
    if s < |plan.order| then NaiveState(ops, plan, given, b, states, s) else states[n]
  }

  function NaiveStates<V(!new), S(!new)>(ops: Ops<V, S>, plan: Plan<V>, given: map<nat, V>, b: Bindings, states: seq<S>): (r: seq<S>)
    requires WellBuilt(plan) && |states| == |plan.nodes|
    ensures |r| == |states| && forall n | 0 <= n < |states| :: r[n] == StateAfter(ops, plan, given, b, states, n)
  {
    seq(|states|, n requires 0 <= n < |states| && WellBuilt(plan) && |states| == |plan.nodes| =>
      StateAfter(ops, plan, given, b, states, n))
  }

  lemma MidwayStates<V(!new), S(!new)>(ops: Ops<V, S>, plan: Plan<V>, given: map<nat, V>, b: Bindings, states: seq<S>,
                                      t: TurnState<V, S>)
    requires WellBuilt(plan) && |states| == |plan.nodes| && Midway(ops, plan, given, b, states, t, |plan.order|)
    ensures t.states == NaiveStates(ops, plan, given, b, states)
  {
    hide NeededUntil, FlushedAt, NaiveState, Naive;
    var r := NaiveStates(ops, plan, given, b, states);
    forall n | 0 <= n < |plan.nodes|
      ensures t.states[n] == r[n]
    {
      var s := StepOf(plan.order, n);
      if s < |plan.order| {
        assert RanSo(ops, plan, given, b, states, t, s, |plan.order|);
      }
    }
  }

  /** Outputs are never dropped. */
  lemma OutputsHeld<V(!new), S(!new)>(ops: Ops<V, S>, plan: Plan<V>, given: map<nat, V>, b: Bindings, states: seq<S>,
                                     t: TurnState<V, S>)
    requires WellBuilt(plan) && Arity(ops, plan) && |states| == |plan.nodes|
    requires Midway(ops, plan, given, b, states, t, |plan.order|)
    ensures ReadAll(t.values, plan.outputs).Some?
    ensures ReadAll(t.values, plan.outputs) == NaiveOutputs(ops, plan, given, b, states)
  {
    hide Midway, Arity, FlushedAt;
    forall o | o in plan.outputs
      ensures Available(plan, o, |plan.order|) && (plan.nodes[o.node].konst.None? ==> StillThere(plan, o.node, |plan.order|))
    {
      var x :| 0 <= x < |plan.outputs| && plan.outputs[x] == o;
      assert IsOutput(plan.outputs, o.node);
    }
    WiresHeld(ops, plan, given, b, states, t, |plan.order|, plan.outputs);
  }

  // ---- A turn ----

  /** What the first `k` inputs give. */
  function Given<V>(inputs: seq<Outlet>, xs: seq<V>, k: nat): map<nat, V>
    requires k <= |inputs| && k <= |xs|
  {
    if k == 0 then map[] else Given(inputs, xs, k - 1)[inputs[k - 1].node := xs[k - 1]]
  }

  /** Nothing an earlier turn left would show in an op's answer: where a node takes no inputs
      and is not one of the model's, nothing is there, or the op does not look. */
  ghost predicate Unstale<V(!new), S(!new)>(ops: Ops<V, S>, plan: Plan<V>, values: seq<Option<seq<V>>>)
    requires Shaped(plan)
  {
    values != [] ==>
      && ConstantsIn(plan, values)
      && forall s | 0 <= s < |plan.order| && !IsOutput(plan.inputs, plan.order[s]) ::
           HandsPreset(ops, plan, map[], values, plan.order[s])
  }

  /** Set, a node is handed what it was given; not set yet, what it was handed before. */
  ghost predicate SetSo<V>(plan: Plan<V>, was: seq<Option<seq<V>>>, given: map<nat, V>, values: seq<Option<seq<V>>>)
    requires |was| == |plan.nodes|
  {
    && |values| == |plan.nodes|
    && forall n | 0 <= n < |plan.nodes| :: values[n] == if n in given then Some([given[n]]) else was[n]
  }

  /** Setting inputs only adds bindings, whether they all match or not. */
  lemma {:induction false} SettingKeepsBindings<V(!new), S(!new)>(ops: Ops<V, S>, plan: Plan<V>, t: TurnState<V, S>,
                                                                  xs: seq<V>, k: nat)
    requires Shaped(plan) && k <= |xs| == |plan.inputs| && (t.values == [] || |t.values| == |plan.nodes|)
    ensures Extends(SetFirst(ops, plan, t, xs, k).0.bindings, t.bindings)
  {
    hide ResolveAll;
    if k > 0 {
      SettingKeepsBindings(ops, plan, t, xs, k - 1);
      var before := SetFirst(ops, plan, t, xs, k - 1).0;
      var o := plan.inputs[k - 1];
      assert o in plan.inputs + plan.outputs;
      ResolveAllKeepsBindings(ops.solve, plan.nodes[o.node].facts[o.slot], ops.extents(xs[k - 1]), before.bindings);
    }
  }

  lemma {:induction false} GivenAreInputs<V>(inputs: seq<Outlet>, xs: seq<V>, k: nat)
    requires k <= |inputs| && k <= |xs|
    ensures forall n :: n in Given(inputs, xs, k) <==> IsOutput(inputs[..k], n)
  {
    hide IsOutput;
    if k > 0 {
      GivenAreInputs(inputs, xs, k - 1);
      OneMoreOutput(inputs, k - 1);
      assert inputs[..k - 1 + 1] == inputs[..k];
      forall n
        ensures n in Given(inputs, xs, k) <==> IsOutput(inputs[..k], n)
      {
        assert n in Given(inputs, xs, k) <==> n in Given(inputs, xs, k - 1) || n == inputs[k - 1].node;
        assert IsOutput(inputs[..k - 1 + 1], n) <==> IsOutput(inputs[..k - 1], n) || n == inputs[k - 1].node;
      }
    } else {
      NoOutputs(inputs[..0]);
    }
  }

  lemma NoOutputs(outputs: seq<Outlet>)
    requires outputs == []
    ensures forall n :: !IsOutput(outputs, n)
  {}

  lemma OneSet<V(!new), S(!new)>(ops: Ops<V, S>, plan: Plan<V>, t: TurnState<V, S>, ix: nat, x: V)
    requires Shaped(plan) && ix < |plan.inputs| && (t.values == [] || |t.values| == |plan.nodes|)
    requires SetInput(ops, plan, t, ix, x).1
    ensures plan.inputs[ix].node < |plan.nodes|
    ensures Readied(plan, SetInput(ops, plan, t, ix, x).0.values)
            == Readied(plan, t.values)[plan.inputs[ix].node := Some([x])]
  {
    assert plan.inputs[ix] in plan.inputs + plan.outputs;
  }

  lemma {:induction false} SetFirstSets<V(!new), S(!new)>(ops: Ops<V, S>, plan: Plan<V>, t: TurnState<V, S>, xs: seq<V>, k: nat)
    requires Shaped(plan) && k <= |xs| == |plan.inputs| && (t.values == [] || |t.values| == |plan.nodes|)
    requires SetFirst(ops, plan, t, xs, k).1
    ensures var after := SetFirst(ops, plan, t, xs, k).0;
            && SetSo(plan, Readied(plan, t.values), Given(plan.inputs, xs, k), Readied(plan, after.values))
            && Extends(after.bindings, t.bindings)
    ensures forall n :: n in Given(plan.inputs, xs, k) <==> IsOutput(plan.inputs[..k], n)
  {
    hide IsOutput, Shaped, SetInput, Readied, Extends;
    SettingKeepsBindings(ops, plan, t, xs, k);
    GivenAreInputs(plan.inputs, xs, k);
    if k > 0 {
      SetFirstSets(ops, plan, t, xs, k - 1);
      OneSet(ops, plan, SetFirst(ops, plan, t, xs, k - 1).0, k - 1, xs[k - 1]);
    }
  }

  lemma SetMakesReady<V(!new), S(!new)>(ops: Ops<V, S>, plan: Plan<V>, t: TurnState<V, S>, xs: seq<V>)
    requires WellBuilt(plan) && |xs| == |plan.inputs| && (t.values == [] || |t.values| == |plan.nodes|)
    requires Unstale(ops, plan, t.values) && SetFirst(ops, plan, t, xs, |xs|).1
    ensures Ready(ops, plan, Given(plan.inputs, xs, |xs|), Readied(plan, SetFirst(ops, plan, t, xs, |xs|).0.values))
  {
    hide FlushedAt, NeededUntil, HandsPreset, SetFirst, Given;
    SetFirstSets(ops, plan, t, xs, |xs|);
    assert plan.inputs[..|xs|] == plan.inputs;
    var given := Given(plan.inputs, xs, |xs|);
    var was, values := Readied(plan, t.values), Readied(plan, SetFirst(ops, plan, t, xs, |xs|).0.values);
    forall s | 0 <= s < |plan.order|
      ensures HandsPreset(ops, plan, given, values, plan.order[s])
    {
      var n := plan.order[s];
      assert values[n] == if n in given then Some([given[n]]) else was[n];
      if n !in given && t.values != [] {
        assert !IsOutput(plan.inputs, n);
        assert HandsPreset(ops, plan, map[], t.values, n);
      }
      PresetHanded(ops, plan, given, was, values, n);
    }
  }

  lemma PresetHanded<V(!new), S(!new)>(ops: Ops<V, S>, plan: Plan<V>, given: map<nat, V>, was: seq<Option<seq<V>>>,
                                      values: seq<Option<seq<V>>>, n: nat)
    requires n < |plan.nodes| == |was| == |values|
    requires values[n] == if n in given then Some([given[n]]) else was[n]
    requires n in given || was[n].None? || HandsPreset(ops, plan, map[], was, n)
    ensures HandsPreset(ops, plan, given, values, n)
  {}

  /** What `run` leaves after a turn that succeeds: the constants and nothing else that any
      step could read, and no binding. */
  ghost predicate Clean<V, S>(plan: Plan<V>, t: TurnState<V, S>)
    requires Shaped(plan)
  {
    && t.bindings == map[] && |t.states| == |plan.nodes|
    && (t.values != [] ==>
        && ConstantsIn(plan, t.values)
        && forall s | 0 <= s < |plan.order| :: t.values[plan.order[s]].None?)
  }

  lemma CleanIsUnstale<V(!new), S(!new)>(ops: Ops<V, S>, plan: Plan<V>, t: TurnState<V, S>)
    requires Shaped(plan) && Clean(plan, t)
    ensures Unstale(ops, plan, t.values) && (t.values == [] || |t.values| == |plan.nodes|)
  {}

  /** As long as the steps run, every symbol an op needs is bound when it runs. */
  ghost predicate NeedsBound<V(!new), S(!new)>(ops: Ops<V, S>, plan: Plan<V>, t: TurnState<V, S>)
    requires Shaped(plan) && |plan.nodes| == |t.values| == |t.states|
  {
    forall j | 0 <= j < |plan.order| && Steps(ops, plan, t, j).1 == Running ::
      ops.needs(plan.order[j]) <= Steps(ops, plan, t, j).0.bindings.Keys
  }

  /** What is bound when it is needed is worth the same to the end. */
  lemma BoundIsMet<V(!new), S(!new)>(ops: Ops<V, S>, plan: Plan<V>, t: TurnState<V, S>)
    requires Shaped(plan) && |plan.nodes| == |t.values| == |t.states|
    requires NeedsBound(ops, plan, t) && Steps(ops, plan, t, |plan.order|).1 == Running
    ensures NeedsMet(ops, plan, t, Steps(ops, plan, t, |plan.order|).0.bindings, |plan.order|)
  {
    hide Steps, Shaped;
    forall j | 0 <= j < |plan.order| && Steps(ops, plan, t, j).1 == Running
      ensures Alike(ops.needs(plan.order[j]), Steps(ops, plan, t, j).0.bindings,
                    Steps(ops, plan, t, |plan.order|).0.bindings)
    {
      StepsGrow(ops, plan, t, j, |plan.order|);
    }
  }

  /** A turn starting from nothing stale, whose ops find bound what they need, answers, if it
      answers, naive evaluation's outputs on its own inputs under its own bindings, steps
      each op's state once, and leaves the state clean. */
  lemma {:induction false} TurnRefines<V(!new), S(!new)>(ops: Ops<V, S>, plan: Plan<V>, t: TurnState<V, S>, xs: seq<V>)
    requires WellBuilt(plan) && Arity(ops, plan) && ReadsOnly(ops) && |t.states| == |plan.nodes|
    requires (t.values == [] || |t.values| == |plan.nodes|) && Unstale(ops, plan, t.values)
    requires NeedsBound(ops, plan, Started(ops, plan, t, xs)) && Ran(ops, plan, t, xs).1.Some?
    ensures |xs| == |plan.inputs|
    ensures var given, b := Given(plan.inputs, xs, |xs|), Ended(ops, plan, t, xs).bindings;
            && Ran(ops, plan, t, xs).1 == NaiveOutputs(ops, plan, given, b, t.states)
            && Ran(ops, plan, t, xs).0.states == NaiveStates(ops, plan, given, b, t.states)
            && Clean(plan, Ran(ops, plan, t, xs).0)
  {
    hide WellBuilt, Unstale, Arity, ReadsOnly, Ran, Steps, NeedsBound, NeedsMet, SetFirst, Reset, ReadAll, Started,
         NaiveOutputs, NaiveStates, Clean, Given;
    BuiltIsShaped(plan);
    AnsweredBy(ops, plan, t, xs);
    BoundIsMet(ops, plan, Started(ops, plan, t, xs));
    TurnRefinesUnder(ops, plan, t, xs, Ended(ops, plan, t, xs).bindings);
  }

  /** The same under any bindings the ops can not tell from those they found. */
  lemma {:induction false} TurnRefinesUnder<V(!new), S(!new)>(ops: Ops<V, S>, plan: Plan<V>, t: TurnState<V, S>, xs: seq<V>, b: Bindings)
    requires WellBuilt(plan) && Arity(ops, plan) && ReadsOnly(ops) && |t.states| == |plan.nodes|
    requires (t.values == [] || |t.values| == |plan.nodes|) && Unstale(ops, plan, t.values)
    requires NeedsMet(ops, plan, Started(ops, plan, t, xs), b, |plan.order|) && Ran(ops, plan, t, xs).1.Some?
    ensures |xs| == |plan.inputs|
    ensures Ran(ops, plan, t, xs).1 == NaiveOutputs(ops, plan, Given(plan.inputs, xs, |xs|), b, t.states)
    ensures Ran(ops, plan, t, xs).0.states == NaiveStates(ops, plan, Given(plan.inputs, xs, |xs|), b, t.states)
    ensures Clean(plan, Ran(ops, plan, t, xs).0)
  {
    hide *;
    BuiltIsShaped(plan);
    TurnMidway(ops, plan, t, xs, b);
    DoneRefines(ops, plan, Given(plan.inputs, xs, |xs|), b, t.states, Ended(ops, plan, t, xs));
  }

  lemma {:induction false} DoneRefines<V(!new), S(!new)>(ops: Ops<V, S>, plan: Plan<V>, given: map<nat, V>, b: Bindings, states: seq<S>,
                                     done: TurnState<V, S>)
    requires WellBuilt(plan) && Arity(ops, plan) && |states| == |plan.nodes|
    requires Midway(ops, plan, given, b, states, done, |plan.order|)
    ensures ReadAll(done.values, plan.outputs) == NaiveOutputs(ops, plan, given, b, states)
    ensures Reset(plan, done).states == NaiveStates(ops, plan, given, b, states)
    ensures Shaped(plan) && Clean(plan, Reset(plan, done))
  {
    hide *;
    BuiltIsShaped(plan);
    OutputsHeld(ops, plan, given, b, states, done);
    MidwayStates(ops, plan, given, b, states, done);
    MidwaySeeded(ops, plan, given, b, states, done);
    ResetCleans(plan, done);
  }

  /** The steps of a turn that answers are all run, as naive evaluation runs them. */
  lemma {:induction false} TurnMidway<V(!new), S(!new)>(ops: Ops<V, S>, plan: Plan<V>, t: TurnState<V, S>, xs: seq<V>, b: Bindings)
    requires WellBuilt(plan) && Arity(ops, plan) && ReadsOnly(ops) && |t.states| == |plan.nodes|
    requires (t.values == [] || |t.values| == |plan.nodes|) && Unstale(ops, plan, t.values)
    requires NeedsMet(ops, plan, Started(ops, plan, t, xs), b, |plan.order|) && Ran(ops, plan, t, xs).1.Some?
    ensures |xs| == |plan.inputs|
    ensures Midway(ops, plan, Given(plan.inputs, xs, |xs|), b, t.states, Ended(ops, plan, t, xs), |plan.order|)
    ensures Ran(ops, plan, t, xs).0 == Reset(plan, Ended(ops, plan, t, xs))
    ensures Ran(ops, plan, t, xs).1 == ReadAll(Ended(ops, plan, t, xs).values, plan.outputs)
  {
    hide Arity, ReadsOnly, WellBuilt, Unstale, Ran, Midway, SetFirst, Steps, Reset, Given, ReadAll, Naive, NeedsMet, Started,
         Ready;
    BuiltIsShaped(plan);
    AnsweredBy(ops, plan, t, xs);
    StartsReady(ops, plan, t, xs);
    StepsRefine(ops, plan, Given(plan.inputs, xs, |xs|), b, Started(ops, plan, t, xs), |plan.order|);
  }

  /** Its inputs through, a turn from nothing stale starts ready. */
  lemma {:induction false} StartsReady<V(!new), S(!new)>(ops: Ops<V, S>, plan: Plan<V>, t: TurnState<V, S>, xs: seq<V>)
    requires WellBuilt(plan) && |t.states| == |plan.nodes| && (t.values == [] || |t.values| == |plan.nodes|)
    requires Unstale(ops, plan, t.values) && |xs| == |plan.inputs| && SetFirst(ops, plan, t, xs, |xs|).1
    ensures Ready(ops, plan, Given(plan.inputs, xs, |xs|), Started(ops, plan, t, xs).values)
    ensures Started(ops, plan, t, xs).states == t.states
  {
    hide WellBuilt, Unstale, SetFirst, Ready, Readied, Given;
    BuiltIsShaped(plan);
    SetMakesReady(ops, plan, t, xs);
  }

  lemma BuiltIsShaped<V>(plan: Plan<V>)
    requires WellBuilt(plan)
    ensures Shaped(plan)
  {}

  lemma MidwaySeeded<V(!new), S(!new)>(ops: Ops<V, S>, plan: Plan<V>, given: map<nat, V>, b: Bindings, states: seq<S>,
                                      t: TurnState<V, S>)
    requires WellBuilt(plan) && |states| == |plan.nodes| && Midway(ops, plan, given, b, states, t, |plan.order|)
    ensures ConstantsIn(plan, t.values) && |t.states| == |plan.nodes|
  {}

  /** A turn that answers got through every part of it. */
  lemma AnsweredBy<V(!new), S(!new)>(ops: Ops<V, S>, plan: Plan<V>, t: TurnState<V, S>, xs: seq<V>)
    requires Shaped(plan) && |t.states| == |plan.nodes| && (t.values == [] || |t.values| == |plan.nodes|)
    requires Ran(ops, plan, t, xs).1.Some?
    ensures |xs| == |plan.inputs| && SetFirst(ops, plan, t, xs, |xs|).1
    ensures Started(ops, plan, t, xs).states == t.states
    ensures var (done, status) := Steps(ops, plan, Started(ops, plan, t, xs), |plan.order|);
            && status == Running
            && Ran(ops, plan, t, xs) == (Reset(plan, done), ReadAll(done.values, plan.outputs))
  {
    hide SetFirst, Steps, Reset, ReadAll, Shaped, Readied;
  }

  lemma ResetCleans<V, S>(plan: Plan<V>, t: TurnState<V, S>)
    requires WellBuilt(plan) && ConstantsIn(plan, t.values) && |t.states| == |plan.nodes|
    ensures Clean(plan, Reset(plan, t))
  {
    hide FlushedAt;
    var after := Reset(plan, t);
    forall n | 0 <= n < |plan.nodes| && plan.nodes[n].konst.Some?
      ensures after.values[n] == Some([plan.nodes[n].konst.value])
    {
      assert n !in plan.order;
    }
  }
}
