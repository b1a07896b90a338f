/** Turn after turn of one state, whichever of them fail: what stays, and when no value of one shows
    in a later one. */
module PlanHistories {
  import opened Outcomes
  import opened Symbols
  import opened FlushLists
  import opened PlanTurns
  import opened PlanRefinement

  /** The state before turn `k`, whether the turns before it answered or failed. */
  function StateAt<V(!new), S(!new)>(ops: Ops<V, S>, plan: Plan<V>, t: TurnState<V, S>, xss: seq<seq<V>>, k: nat)
    : (r: TurnState<V, S>)
    requires Shaped(plan) && |t.states| == |plan.nodes| && (t.values == [] || |t.values| == |plan.nodes|) && k <= |xss|
    ensures |r.states| == |plan.nodes| && (r.values == [] || |r.values| == |plan.nodes|)
  {
    if k == 0 then t else Ran(ops, plan, StateAt(ops, plan, t, xss, k - 1), xss[k - 1]).0
  }

  /** What turn `k` answers, if it does. */
  function AnswerAt<V(!new), S(!new)>(ops: Ops<V, S>, plan: Plan<V>, t: TurnState<V, S>, xss: seq<seq<V>>, k: nat)
    : Option<seq<V>>
    requires Shaped(plan) && |t.states| == |plan.nodes| && (t.values == [] || |t.values| == |plan.nodes|) && k < |xss|
  {
    Ran(ops, plan, StateAt(ops, plan, t, xss, k), xss[k]).1
  }

  // ---- Constants ----

  /** The constants are in, or the first turn is still to put them in. */
  ghost predicate Seeded<V, S>(plan: Plan<V>, t: TurnState<V, S>) {
    |t.states| == |plan.nodes| && (t.values == [] || ConstantsIn(plan, t.values))
  }

  lemma {:induction false} SettingKeepsSeeded<V(!new), S(!new)>(ops: Ops<V, S>, plan: Plan<V>, t: TurnState<V, S>,
                                                                xs: seq<V>, k: nat)
    requires WellBuilt(plan) && Seeded(plan, t) && k <= |xs| == |plan.inputs|
    ensures Seeded(plan, SetFirst(ops, plan, t, xs, k).0)
  {
    hide FlushedAt, Available, ResolveAll;
    if k > 0 {
      SettingKeepsSeeded(ops, plan, t, xs, k - 1);
      var o := plan.inputs[k - 1];
      assert o in plan.inputs + plan.outputs && IsOutput(plan.inputs, o.node);
    }
  }

  lemma StepKeepsConstants<V(!new), S(!new)>(ops: Ops<V, S>, plan: Plan<V>, t: TurnState<V, S>, k: nat)
    requires WellBuilt(plan) && ConstantsIn(plan, t.values) && |t.states| == |plan.nodes| && k < |plan.order|
    ensures ConstantsIn(plan, Step(ops, plan, t, k).0.values)
  {
    hide FlushedAt, Available, ResolveOutputs, NeededUntil, ReadAll;
    var kept := Dropped(t.values, plan.flushLists[k]);
    forall n | 0 <= n < |plan.nodes| && plan.nodes[n].konst.Some?
      ensures kept[n] == t.values[n] && n != plan.order[k]
    {
      if n in plan.flushLists[k] {
        DropsOnlyDone(plan, k, n);
      }
    }
  }

  lemma {:induction false} StepsKeepConstants<V(!new), S(!new)>(ops: Ops<V, S>, plan: Plan<V>, t: TurnState<V, S>, k: nat)
    requires WellBuilt(plan) && ConstantsIn(plan, t.values) && |t.states| == |plan.nodes| && k <= |plan.order|
    ensures ConstantsIn(plan, Steps(ops, plan, t, k).0.values)
  {
    hide WellBuilt, Step, ConstantsIn;
    BuiltIsShaped(plan);
    ConstantsFit(plan, t.values);
    if k > 0 {
      StepsKeepConstants(ops, plan, t, k - 1);
      var (before, status) := Steps(ops, plan, t, k - 1);
      if status == Running {
        StepKeepsConstants(ops, plan, before, k - 1);
      }
    }
  }

  lemma ConstantsFit<V>(plan: Plan<V>, values: seq<Option<seq<V>>>)
    requires ConstantsIn(plan, values)
    ensures |values| == |plan.nodes|
  {}

  /** A turn, answered or failed wherever it fails, keeps the constants in. */
  lemma TurnKeepsSeeded<V(!new), S(!new)>(ops: Ops<V, S>, plan: Plan<V>, t: TurnState<V, S>, xs: seq<V>)
    requires WellBuilt(plan) && Seeded(plan, t)
    ensures Shaped(plan) && Seeded(plan, Ran(ops, plan, t, xs).0)
  {
    hide FlushedAt, Available, SetFirst, Steps, ReadAll, Reset, Clean;
    if |xs| == |plan.inputs| {
      SettingKeepsSeeded(ops, plan, t, xs, |xs|);
      var (placed, ok) := SetFirst(ops, plan, t, xs, |xs|);
      if ok {
        var ready := placed.(values := Readied(plan, placed.values));
        StepsKeepConstants(ops, plan, ready, |plan.order|);
        ResetSeeds(plan, Steps(ops, plan, ready, |plan.order|).0);
      }
    }
  }

  lemma ResetSeeds<V, S>(plan: Plan<V>, t: TurnState<V, S>)
    requires WellBuilt(plan) && ConstantsIn(plan, t.values) && |t.states| == |plan.nodes|
    ensures Seeded(plan, Reset(plan, t))
  {
    hide FlushedAt, Available;
    ResetCleans(plan, t);
  }

  /** A turn that answers leaves the state clean. */
  lemma {:induction false} TurnCleans<V(!new), S(!new)>(ops: Ops<V, S>, plan: Plan<V>, t: TurnState<V, S>, xs: seq<V>)
    requires WellBuilt(plan) && Seeded(plan, t)
    requires Shaped(plan) && (t.values == [] || |t.values| == |plan.nodes|) && Ran(ops, plan, t, xs).1.Some?
    ensures Clean(plan, Ran(ops, plan, t, xs).0)
  {
    hide FlushedAt, Available, SetFirst, Steps, ReadAll, Reset, Clean, Ran;
    AnsweredBy(ops, plan, t, xs);
    SettingKeepsSeeded(ops, plan, t, xs, |xs|);
    StepsKeepConstants(ops, plan, Started(ops, plan, t, xs), |plan.order|);
    ResetCleans(plan, Ended(ops, plan, t, xs));
  }

  /** The constants stay in through any history, failures included. */
  lemma {:induction false} ConstantsStay<V(!new), S(!new)>(ops: Ops<V, S>, plan: Plan<V>, t: TurnState<V, S>,
                                                           xss: seq<seq<V>>, k: nat)
    requires WellBuilt(plan) && Seeded(plan, t) && k <= |xss|
    ensures Shaped(plan) && (t.values == [] || |t.values| == |plan.nodes|)
    ensures Seeded(plan, StateAt(ops, plan, t, xss, k))
  {
    hide WellBuilt, Ran;
    BuiltIsShaped(plan);
    if k > 0 {
      ConstantsStay(ops, plan, t, xss, k - 1);
      TurnKeepsSeeded(ops, plan, StateAt(ops, plan, t, xss, k - 1), xss[k - 1]);
    }
  }

  // ---- Values ----

  /** The op never looks at what it is handed. */
  ghost predicate Deaf<V(!new), S(!new)>(ops: Ops<V, S>, n: nat) {
    forall s, xs, ys, b :: ops.eval(n, s, xs, b) == ops.eval(n, s, ys, b)
  }

  /** Every step that reads no node is one of the model's inputs, or does not look at what
      it is handed. */
  ghost predicate Sealed<V(!new), S(!new)>(ops: Ops<V, S>, plan: Plan<V>)
    requires Shaped(plan)
  {
    forall s | 0 <= s < |plan.order| && plan.nodes[plan.order[s]].inputs == [] ::
      IsOutput(plan.inputs, plan.order[s]) || Deaf(ops, plan.order[s])
  }

  /** In a sealed plan whatever is left is never stale. */
  lemma SealedIsUnstale<V(!new), S(!new)>(ops: Ops<V, S>, plan: Plan<V>, t: TurnState<V, S>)
    requires Shaped(plan) && Sealed(ops, plan) && Seeded(plan, t)
    ensures Unstale(ops, plan, t.values)
  {
    if t.values != [] {
      forall s | 0 <= s < |plan.order| && !IsOutput(plan.inputs, plan.order[s])
        ensures HandsPreset(ops, plan, map[], t.values, plan.order[s])
      {
        if plan.nodes[plan.order[s]].inputs == [] {
          assert Deaf(ops, plan.order[s]);
        }
      }
    }
  }

  /** Where nothing stale is left before turn `k`: the plan is sealed, or every turn before
      answered. */
  lemma {:induction false} UnstaleAt<V(!new), S(!new)>(ops: Ops<V, S>, plan: Plan<V>, t: TurnState<V, S>,
                                                       xss: seq<seq<V>>, k: nat)
    requires WellBuilt(plan) && Seeded(plan, t) && k <= |xss|
    requires Shaped(plan) && (t.values == [] || |t.values| == |plan.nodes|) && Unstale(ops, plan, t.values)
    requires Sealed(ops, plan) || forall j | 0 <= j < k :: AnswerAt(ops, plan, t, xss, j).Some?
    ensures Unstale(ops, plan, StateAt(ops, plan, t, xss, k).values)
  {
    hide WellBuilt, Unstale, Ran, Sealed, ConstantsIn, Clean;
    if k > 0 {
      if Sealed(ops, plan) {
        ConstantsStay(ops, plan, t, xss, k);
        SealedIsUnstale(ops, plan, StateAt(ops, plan, t, xss, k));
      } else {
        UnstaleAt(ops, plan, t, xss, k - 1);
        var before := StateAt(ops, plan, t, xss, k - 1);
        assert AnswerAt(ops, plan, t, xss, k - 1).Some?;
        ConstantsStay(ops, plan, t, xss, k - 1);
        TurnCleans(ops, plan, before, xss[k - 1]);
        CleanIsUnstale(ops, plan, Ran(ops, plan, before, xss[k - 1]).0);
      }
    }
  }

  /** Any number of turns: whenever a turn answers whose ops find bound what they need, and
      the plan is sealed or no turn before it failed, it answers naive evaluation's outputs on
      its own inputs under its own bindings, from the op states alone; and it leaves the state
      clean. */
  lemma {:induction false} TurnsRefine<V(!new), S(!new)>(ops: Ops<V, S>, plan: Plan<V>, t: TurnState<V, S>, xss: seq<seq<V>>,
                                                         k: nat)
    requires WellBuilt(plan) && Arity(ops, plan) && ReadsOnly(ops) && Seeded(plan, t) && k < |xss|
    requires Shaped(plan) && (t.values == [] || |t.values| == |plan.nodes|) && Unstale(ops, plan, t.values)
    requires Sealed(ops, plan) || forall j | 0 <= j < k :: AnswerAt(ops, plan, t, xss, j).Some?
    requires NeedsBound(ops, plan, Started(ops, plan, StateAt(ops, plan, t, xss, k), xss[k]))
    requires AnswerAt(ops, plan, t, xss, k).Some?
    ensures |xss[k]| == |plan.inputs|
    ensures var given, before := Given(plan.inputs, xss[k], |xss[k]|), StateAt(ops, plan, t, xss, k);
            var b := Ended(ops, plan, before, xss[k]).bindings;
            && AnswerAt(ops, plan, t, xss, k) == NaiveOutputs(ops, plan, given, b, before.states)
            && StateAt(ops, plan, t, xss, k + 1).states == NaiveStates(ops, plan, given, b, before.states)
            && Clean(plan, StateAt(ops, plan, t, xss, k + 1))
  {
    hide WellBuilt, Arity, ReadsOnly, Unstale, Ran, Sealed, ConstantsIn, Clean, NaiveOutputs, NaiveStates, Given, NeedsBound,
         Started, Steps;
    UnstaleAt(ops, plan, t, xss, k);
    TurnRefines(ops, plan, StateAt(ops, plan, t, xss, k), xss[k]);
  }

  // ---- Bindings ----

  /** The symbolic shape of input `ix`. */
  function ShapeOfInput<V>(plan: Plan<V>, ix: nat): seq<TDim>
    requires Shaped(plan) && ix < |plan.inputs|
  {
    var o := plan.inputs[ix];
    assert o in plan.inputs + plan.outputs;
    plan.nodes[o.node].facts[o.slot]
  }

  /** Over a whole turn a bound symbol keeps its value, up to the reset of a turn that
      answers: a turn that fails keeps every binding it started with. */
  lemma TurnKeepsBindings<V(!new), S(!new)>(ops: Ops<V, S>, plan: Plan<V>, t: TurnState<V, S>, xs: seq<V>)
    requires Shaped(plan) && |t.states| == |plan.nodes| && (t.values == [] || |t.values| == |plan.nodes|)
    ensures if Ran(ops, plan, t, xs).1.Some? then Ran(ops, plan, t, xs).0.bindings == map[]
            else Extends(Ran(ops, plan, t, xs).0.bindings, t.bindings)
  {
    hide Shaped, SetFirst, Steps, ReadAll;
    if |xs| == |plan.inputs| {
      SettingKeepsBindings(ops, plan, t, xs, |xs|);
      var (placed, ok) := SetFirst(ops, plan, t, xs, |xs|);
      if ok {
        StepsKeepBindings(ops, plan, placed.(values := Readied(plan, placed.values)), |plan.order|);
      }
    }
  }

  /** Until a turn answers, every binding stays. */
  lemma {:induction false} BoundUntilAnswered<V(!new), S(!new)>(ops: Ops<V, S>, plan: Plan<V>, t: TurnState<V, S>,
                                                                xss: seq<seq<V>>, k: nat)
    requires Shaped(plan) && |t.states| == |plan.nodes| && (t.values == [] || |t.values| == |plan.nodes|) && k <= |xss|
    requires forall j | 0 <= j < k :: AnswerAt(ops, plan, t, xss, j).None?
    ensures Extends(StateAt(ops, plan, t, xss, k).bindings, t.bindings)
  {
    hide Shaped, Ran;
    if k > 0 {
      BoundUntilAnswered(ops, plan, t, xss, k - 1);
      assert AnswerAt(ops, plan, t, xss, k - 1).None?;
      TurnKeepsBindings(ops, plan, StateAt(ops, plan, t, xss, k - 1), xss[k - 1]);
    }
  }

  /** A dimension that is a bare symbol, or whose symbols are all bound. */
  predicate Checked(e: TDim, b: Bindings) {
    e.Sym? || SymbolsIn(e) <= b.Keys
  }

  lemma {:induction false} SettingGrows<V(!new), S(!new)>(ops: Ops<V, S>, plan: Plan<V>, t: TurnState<V, S>, xs: seq<V>,
                                                          j: nat, k: nat)
    requires Shaped(plan) && j <= k <= |xs| == |plan.inputs| && (t.values == [] || |t.values| == |plan.nodes|)
    requires SetFirst(ops, plan, t, xs, k).1
    ensures SetFirst(ops, plan, t, xs, j).1
    ensures Extends(SetFirst(ops, plan, t, xs, k).0.bindings, SetFirst(ops, plan, t, xs, j).0.bindings)
  {
    if j < k {
      SettingGrows(ops, plan, t, xs, j, k - 1);
      var before := SetFirst(ops, plan, t, xs, k - 1).0;
      var o := plan.inputs[k - 1];
      assert o in plan.inputs + plan.outputs;
      ResolveAllKeepsBindings(ops.solve, plan.nodes[o.node].facts[o.slot], ops.extents(xs[k - 1]), before.bindings);
    }
  }

  /** Over the inputs of a turn that got through: every dimension whose symbols were bound
      when its tensor came, and every bare symbol, is worth its tensor's extent under the
      bindings the steps start from. */
  lemma InputsAgree<V(!new), S(!new)>(ops: Ops<V, S>, plan: Plan<V>, t: TurnState<V, S>, xs: seq<V>, n: nat, ix: nat, d: nat)
    requires Shaped(plan) && ix < n <= |xs| == |plan.inputs| && (t.values == [] || |t.values| == |plan.nodes|)
    requires SetFirst(ops, plan, t, xs, n).1 && d < |ShapeOfInput(plan, ix)| && d < |ops.extents(xs[ix])|
    requires Checked(ShapeOfInput(plan, ix)[d], SetFirst(ops, plan, t, xs, ix).0.bindings)
    ensures IsWorth(ShapeOfInput(plan, ix)[d], SetFirst(ops, plan, t, xs, n).0.bindings, ops.extents(xs[ix])[d])
  {
    hide Shaped, ResolveAll, Worth;
    var next := ix + 1;
    SettingGrows(ops, plan, t, xs, next, n);
    ResolvedBinds(ops.solve, ShapeOfInput(plan, ix), ops.extents(xs[ix]), SetFirst(ops, plan, t, xs, ix).0.bindings, d);
    StillWorth(ShapeOfInput(plan, ix)[d], SetFirst(ops, plan, t, xs, next).0.bindings,
               SetFirst(ops, plan, t, xs, n).0.bindings, ops.extents(xs[ix])[d]);
  }

  lemma {:induction false} OutputsAgree<V(!new), S(!new)>(ops: Ops<V, S>, facts: seq<seq<TDim>>, vs: seq<V>, b: Bindings,
                                                          o: nat, d: nat)
    requires o < |facts| && o < |vs| && d < |facts[o]| && d < |ops.extents(vs[o])| && Checked(facts[o][d], b)
    requires ResolveOutputs(ops, facts, vs, b).1
    ensures IsWorth(facts[o][d], ResolveOutputs(ops, facts, vs, b).0, ops.extents(vs[o])[d])
    decreases |facts|
  {
    hide ResolveAll, Worth;
    var b' := ResolveAll(ops.solve, facts[0], ops.extents(vs[0]), b).0;
    ResolveAllKeepsBindings(ops.solve, facts[0], ops.extents(vs[0]), b);
    if o == 0 {
      ResolvedBinds(ops.solve, facts[0], ops.extents(vs[0]), b, d);
      ResolveOutputsKeeps(ops, facts[1..], vs[1..], b');
      StillWorth(facts[0][d], b', ResolveOutputs(ops, facts[1..], vs[1..], b').0, ops.extents(vs[0])[d]);
    } else {
      OutputsAgree(ops, facts[1..], vs[1..], b', o - 1, d);
    }
  }

  /** And over its steps, as long as some symbol of the plan is unbound: every dimension of an
      output whose symbols were bound when the step began, and every bare symbol, is worth
      the output's extent under the bindings the turn ends with. */
  lemma StepAgrees<V(!new), S(!new)>(ops: Ops<V, S>, plan: Plan<V>, t: TurnState<V, S>, k: nat, m: nat, o: nat, d: nat)
    requires Shaped(plan) && k < m <= |plan.order| && |plan.nodes| == |t.values| == |t.states|
    requires Steps(ops, plan, t, m).1 == Running && !(plan.symbols <= Steps(ops, plan, t, k).0.bindings.Keys)
    requires var n := plan.order[k];
             var made := Steps(ops, plan, t, k + 1).0.values[n];
             && made.Some? && o < |plan.nodes[n].facts| && o < |made.value|
             && d < |plan.nodes[n].facts[o]| && d < |ops.extents(made.value[o])|
             && Checked(plan.nodes[n].facts[o][d], Steps(ops, plan, t, k).0.bindings)
    ensures var n := plan.order[k];
            IsWorth(plan.nodes[n].facts[o][d], Steps(ops, plan, t, m).0.bindings,
                    ops.extents(Steps(ops, plan, t, k + 1).0.values[n].value[o])[d])
  {
    hide ReadAll, Dropped, Worth, ResolveOutputs, IsWorth;
    var next := k + 1;
    StepsGrow(ops, plan, t, next, m);
    StepsGrow(ops, plan, t, k, m);
    var before, after, n := Steps(ops, plan, t, k).0, Steps(ops, plan, t, next).0, plan.order[k];
    assert Steps(ops, plan, t, next) == Step(ops, plan, before, k);
    var vs := after.values[n].value;
    OutputsAgree(ops, plan.nodes[n].facts, vs, before.bindings, o, d);
    StillWorth(plan.nodes[n].facts[o][d], after.bindings, Steps(ops, plan, t, m).0.bindings, ops.extents(vs[o])[d]);
  }
}
