/** Symbols a failed turn left bound, and the ops that read them: when the next turn goes
    as it would from a new state. */
module LeftoverSymbols {
  import opened Symbols
  import opened FlushLists
  import opened PlanTurns
  import opened PlanRefinement
  import opened PlanHistories
  import opened FailedTurns
  import opened SymbolReads

  /** The same op states with nothing left in the values nor in the bindings. */
  function Renewed<V, S>(t: TurnState<V, S>): TurnState<V, S> {
    TurnState([], map[], t.states)
  }

  // ---- Plans whose dimensions leave nothing to solve ----

  /** Output by output, each dimension is a bare symbol or mentions only symbols known or
      mentioned before. */
  predicate FactsLegible(facts: seq<seq<TDim>>, known: set<Symbol>)
    decreases |facts|
  {
    facts == [] || (Legible(facts[0], known) && FactsLegible(facts[1..], known + SymbolsInAll(facts[0])))
  }

  /** The symbols the inputs and the first `k` steps mention. */
  function SymbolsBy<V>(plan: Plan<V>, k: nat): set<Symbol>
    requires Shaped(plan) && k <= |plan.order|
  {
    if k == 0 then InputSymbols(plan, |plan.inputs|)
    else SymbolsBy(plan, k - 1) + FactSymbols(plan.nodes[plan.order[k - 1]].facts)
  }

  ghost predicate PlanLegible<V>(plan: Plan<V>)
    requires Shaped(plan)
  {
    && InputsLegible(plan, {}, |plan.inputs|)
    && forall k | 0 <= k < |plan.order| :: FactsLegible(plan.nodes[plan.order[k]].facts, SymbolsBy(plan, k))
  }

  lemma {:induction false} FactsLegibleWiden(facts: seq<seq<TDim>>, known: set<Symbol>, more: set<Symbol>)
    requires FactsLegible(facts, known) && known <= more
    ensures FactsLegible(facts, more)
    decreases |facts|
  {
    if facts != [] {
      LegibleWiden(facts[0], known, more);
      FactsLegibleWiden(facts[1..], known + SymbolsInAll(facts[0]), more + SymbolsInAll(facts[0]));
    }
  }

  // ---- One tensor after another ----

  /** The outputs have the ranks of the facts. */
  predicate InRank<V(!new), S(!new)>(ops: Ops<V, S>, facts: seq<seq<TDim>>, vs: seq<V>) {
    |vs| == |facts| && forall o | 0 <= o < |vs| :: |ops.extents(vs[o])| == |facts[o]|
  }

  lemma {:induction false} OutputsBeside<V(!new), S(!new)>(ops: Ops<V, S>, facts: seq<seq<TDim>>, vs: seq<V>, b: Bindings,
                                                          left: Bindings)
    requires InRank(ops, facts, vs) && FactsLegible(facts, b.Keys) && ResolveOutputs(ops, facts, vs, b).1
    ensures var (after, (beside, ok)) := (ResolveOutputs(ops, facts, vs, b).0, ResolveOutputs(ops, facts, vs, b + left));
            && after.Keys == b.Keys + FactSymbols(facts) && Extends(after, b)
            && (ok ==> beside == after + left)
            && (Compatible(after, left) ==> ok)
    decreases |facts|
  {
    hide ResolveAll, Legible;
    if facts != [] {
      var b' := ResolveAll(ops.solve, facts[0], ops.extents(vs[0]), b).0;
      LegibleResolves(ops.solve, facts[0], ops.extents(vs[0]), b);
      AllResolvedBeside(ops.solve, facts[0], ops.extents(vs[0]), b, left);
      OutputsBeside(ops, facts[1..], vs[1..], b', left);
    }
  }

  lemma SetOneBeside<V(!new), S(!new)>(ops: Ops<V, S>, plan: Plan<V>, a: TurnState<V, S>, t: TurnState<V, S>, ix: nat, x: V,
                                      left: Bindings)
    requires Shaped(plan) && ix < |plan.inputs| && (t.values == [] || |t.values| == |plan.nodes|)
    requires (a.values == [] || |a.values| == |plan.nodes|) && t.bindings == a.bindings + left
    requires Legible(ShapeOfInput(plan, ix), a.bindings.Keys) && SetInput(ops, plan, a, ix, x).1
    ensures SetInput(ops, plan, t, ix, x).1 ==>
      SetInput(ops, plan, t, ix, x).0.bindings == SetInput(ops, plan, a, ix, x).0.bindings + left
  {
    hide Shaped, ResolveAll, Legible, ShapeOfInput, Matches, SetInput;
    ShapeSet(ops, plan, a, ix, x);
    ShapeSet(ops, plan, t, ix, x);
    AllResolvedBeside(ops.solve, ShapeOfInput(plan, ix), ops.extents(x), a.bindings, left);
  }

  /** Setting the inputs, from the state and from it renewed. */
  lemma {:induction false} SettingBeside<V(!new), S(!new)>(ops: Ops<V, S>, plan: Plan<V>, t: TurnState<V, S>, xs: seq<V>, k: nat)
    requires Shaped(plan) && k <= |xs| == |plan.inputs| && (t.values == [] || |t.values| == |plan.nodes|)
    requires InputsLegible(plan, {}, k) && SetFirst(ops, plan, Renewed(t), xs, k).1
    ensures SetFirst(ops, plan, Renewed(t), xs, k).0.bindings.Keys == InputSymbols(plan, k)
    ensures SetFirst(ops, plan, t, xs, k).1 ==>
      SetFirst(ops, plan, t, xs, k).0.bindings == SetFirst(ops, plan, Renewed(t), xs, k).0.bindings + t.bindings
  {
    hide Shaped, InputsLegible, ShapeOfInput, SetInput, AllSuit, Extends;
    assert Renewed(t).bindings.Keys == {};
    SetSuits(ops, plan, Renewed(t), xs, k);
    if k > 0 {
      LegibleAt(plan, {}, k - 1);
      SettingBeside(ops, plan, t, xs, k - 1);
      var anew := SetFirst(ops, plan, Renewed(t), xs, k - 1).0;
      assert {} + InputSymbols(plan, k - 1) == anew.bindings.Keys;
      if SetFirst(ops, plan, t, xs, k - 1).1 {
        SetOneBeside(ops, plan, anew, SetFirst(ops, plan, t, xs, k - 1).0, k - 1, xs[k - 1], t.bindings);
      }
    } else {
      assert map[] + t.bindings == t.bindings;
    }
  }

  /** Inputs that get through renewed get through beside leftover bindings that agree. */
  lemma {:induction false} SetBesideAgreeing<V(!new), S(!new)>(ops: Ops<V, S>, plan: Plan<V>, t: TurnState<V, S>, xs: seq<V>,
                                                              k: nat)
    requires Shaped(plan) && k <= |xs| == |plan.inputs| && (t.values == [] || |t.values| == |plan.nodes|)
    requires InputsLegible(plan, {}, k) && SetFirst(ops, plan, Renewed(t), xs, k).1
    requires Compatible(SetFirst(ops, plan, Renewed(t), xs, k).0.bindings, t.bindings)
    ensures SetFirst(ops, plan, t, xs, k).1
  {
    hide Shaped, SetFirst, Legible, Suits, ShapeOfInput;
    assert Renewed(t).bindings.Keys == {};
    SetSuits(ops, plan, Renewed(t), xs, k);
    var anew := SetFirst(ops, plan, Renewed(t), xs, k).0.bindings;
    var later := anew + t.bindings;
    forall ix | 0 <= ix < k
      ensures Suits(ops, plan, later, ix, xs[ix])
    {
      SuitsLater(ops, plan, anew, later, ix, xs[ix]);
    }
    forall ix | 0 <= ix < k
      ensures Legible(ShapeOfInput(plan, ix), t.bindings.Keys + InputSymbols(plan, ix))
    {
      LegibleWiden(ShapeOfInput(plan, ix), {} + InputSymbols(plan, ix), t.bindings.Keys + InputSymbols(plan, ix));
    }
    SuitedSet(ops, plan, t, xs, k, later);
  }

  // ---- One step after another ----

  lemma NaiveInRank<V(!new), S(!new)>(ops: Ops<V, S>, plan: Plan<V>, given: map<nat, V>, b: Bindings, states: seq<S>, k: nat)
    requires WellBuilt(plan) && Arity(ops, plan) && Ranked(ops, plan) && k < |plan.order| && |states| == |plan.nodes|
    requires Naive(ops, plan, given, b, states, k).Some?
    ensures InRank(ops, plan.nodes[plan.order[k]].facts, Naive(ops, plan, given, b, states, k).value)
  {
    hide FlushedAt, Available, NaiveArgs;
    var n, xs := plan.order[k], NaiveArgs(ops, plan, given, b, states, k).value;
    assert Naive(ops, plan, given, b, states, k) == ops.eval(n, states[n], xs, b).1;
  }

  /** Step `k`'s outputs resolved, unless every symbol is bound. */
  function StepResolved<V(!new), S(!new)>(ops: Ops<V, S>, plan: Plan<V>, vs: seq<V>, b: Bindings, k: nat): (Bindings, bool)
    requires Shaped(plan) && k < |plan.order|
  {
    if plan.symbols <= b.Keys then (b, true) else ResolveOutputs(ops, plan.nodes[plan.order[k]].facts, vs, b)
  }

  /** What a step does to the bindings, its op answering what naive evaluation does. */
  lemma StepBindings<V(!new), S(!new)>(ops: Ops<V, S>, plan: Plan<V>, given: map<nat, V>, b: Bindings, states: seq<S>,
                                      t: TurnState<V, S>, k: nat)
    requires WellBuilt(plan) && Arity(ops, plan) && k < |plan.order| && |states| == |plan.nodes|
    requires Midway(ops, plan, given, b, states, t, k)
    requires ReadsOnly(ops) && Alike(ops.needs(plan.order[k]), t.bindings, b)
    requires Naive(ops, plan, given, b, states, k).Some?
    ensures var (after, status) := Step(ops, plan, t, k);
            (after.bindings, status == Running)
            == StepResolved(ops, plan, Naive(ops, plan, given, b, states, k).value, t.bindings, k)
  {
    hide FlushedAt, NeededUntil, Arity, ReadsOnly, Alike, ResolveOutputs, NaiveArgs;
    StepHands(ops, plan, given, b, states, t, k);
  }

  lemma StepResolvedBeside<V(!new), S(!new)>(ops: Ops<V, S>, plan: Plan<V>, vs: seq<V>, b: Bindings, left: Bindings, k: nat)
    requires Shaped(plan) && Named(plan) && k < |plan.order| && InRank(ops, plan.nodes[plan.order[k]].facts, vs)
    requires FactsLegible(plan.nodes[plan.order[k]].facts, SymbolsBy(plan, k)) && SymbolsBy(plan, k) <= b.Keys
    requires StepResolved(ops, plan, vs, b, k).1
    ensures var (after, (beside, ok)) := (StepResolved(ops, plan, vs, b, k).0, StepResolved(ops, plan, vs, b + left, k));
            && SymbolsBy(plan, k + 1) <= after.Keys
            && (ok ==> beside == after + left)
            && (Compatible(after, left) ==> ok)
  {
    hide ResolveOutputs, FactsLegible, InRank, NodeSymbols;
    var facts := plan.nodes[plan.order[k]].facts;
    NodeSymbolsHold(plan.nodes, |plan.nodes|, plan.order[k]);
    if !(plan.symbols <= b.Keys) {
      FactsLegibleWiden(facts, SymbolsBy(plan, k), b.Keys);
      OutputsBeside(ops, facts, vs, b, left);
      var after := ResolveOutputs(ops, facts, vs, b).0;
      if plan.symbols <= (b + left).Keys {
        assert b + left == after + left;
      }
    }
  }

  /** What the ops need of the leftover bindings is worth what the renewed turn ends with. */
  ghost predicate NeededAgree<V(!new), S(!new)>(ops: Ops<V, S>, plan: Plan<V>, left: Bindings, b: Bindings)
    requires Shaped(plan)
  {
    forall k: nat, sym: Symbol | k < |plan.order| && sym in ops.needs(plan.order[k]) && sym in left ::
      sym in b && left[sym] == b[sym]
  }

  /** One step of both turns. */
  lemma StepBeside<V(!new), S(!new)>(ops: Ops<V, S>, plan: Plan<V>, given: map<nat, V>, b: Bindings, states: seq<S>,
                                    a: TurnState<V, S>, t: TurnState<V, S>, left: Bindings, k: nat)
    requires WellBuilt(plan) && Named(plan) && Arity(ops, plan) && Ranked(ops, plan) && ReadsOnly(ops)
    requires k < |plan.order| && |states| == |plan.nodes|
    requires FactsLegible(plan.nodes[plan.order[k]].facts, SymbolsBy(plan, k)) && SymbolsBy(plan, k) <= a.bindings.Keys
    requires Midway(ops, plan, given, b, states, a, k) && Midway(ops, plan, given, b, states, t, k)
    requires t.bindings == a.bindings + left
    requires Alike(ops.needs(plan.order[k]), a.bindings, b) && Alike(ops.needs(plan.order[k]), t.bindings, b)
    requires Step(ops, plan, a, k).1 == Running
    ensures var (after, (beside, status)) := (Step(ops, plan, a, k).0, Step(ops, plan, t, k));
            && SymbolsBy(plan, k + 1) <= after.bindings.Keys
            && (status == Running ==> beside.bindings == after.bindings + left)
            && (Compatible(after.bindings, left) ==> status == Running)
  {
    hide WellBuilt, Named, Arity, Ranked, ReadsOnly, FactsLegible, SymbolsBy, Midway, Alike, Step, Compatible, StepResolved,
         Naive, InRank;
    BuiltIsShaped(plan);
    StepKeeps(ops, plan, given, b, states, a, k);
    NaiveInRank(ops, plan, given, b, states, k);
    StepBindings(ops, plan, given, b, states, a, k);
    StepBindings(ops, plan, given, b, states, t, k);
    StepResolvedBeside(ops, plan, Naive(ops, plan, given, b, states, k).value, a.bindings, left, k);
  }

  /** Both turns ready for their steps on the same inputs, the one with `left` beside what
      the other has bound. */
  ghost predicate Beside<V(!new), S(!new)>(ops: Ops<V, S>, plan: Plan<V>, given: map<nat, V>, a: TurnState<V, S>,
                                           t: TurnState<V, S>, left: Bindings)
    requires Shaped(plan)
  {
    && |a.states| == |plan.nodes| && t.states == a.states && |a.values| == |plan.nodes| == |t.values|
    && Ready(ops, plan, given, a.values) && Ready(ops, plan, given, t.values)
    && SymbolsBy(plan, 0) <= a.bindings.Keys && t.bindings == a.bindings + left
  }

  /** After `k` steps of each, `b` being what the one ends with. */
  ghost predicate StillBeside<V(!new), S(!new)>(ops: Ops<V, S>, plan: Plan<V>, a: TurnState<V, S>, t: TurnState<V, S>,
                                                left: Bindings, b: Bindings, k: nat)
    requires Shaped(plan) && k <= |plan.order| && |a.values| == |a.states| == |plan.nodes| == |t.values| == |t.states|
  {
    var (after, (beside, status)) := (Steps(ops, plan, a, k).0, Steps(ops, plan, t, k));
    && (status == Running ==> SymbolsBy(plan, k) <= after.bindings.Keys && beside.bindings == after.bindings + left)
    && NeedsMet(ops, plan, t, b, k)
    && (Compatible(b, left) ==> status == Running)
  }

  lemma BesideIsMet<V(!new), S(!new)>(ops: Ops<V, S>, plan: Plan<V>, a: Bindings, left: Bindings, b: Bindings, k: nat)
    requires Shaped(plan) && k < |plan.order| && NeededAgree(ops, plan, left, b)
    requires ops.needs(plan.order[k]) <= a.Keys && Extends(b, a)
    ensures Alike(ops.needs(plan.order[k]), a, b) && Alike(ops.needs(plan.order[k]), a + left, b)
  {}

  lemma CompatibleBefore(b: Bindings, a: Bindings, left: Bindings)
    requires Extends(b, a) && Compatible(b, left)
    ensures Compatible(a, left)
  {}

  /** One step more, the one turn's steps all run. */
  lemma OneStepBeside<V(!new), S(!new)>(ops: Ops<V, S>, plan: Plan<V>, given: map<nat, V>, a: TurnState<V, S>,
                                       t: TurnState<V, S>, left: Bindings, b: Bindings, k: nat)
    requires WellBuilt(plan) && Named(plan) && Arity(ops, plan) && Ranked(ops, plan) && ReadsOnly(ops)
    requires Shaped(plan) && PlanLegible(plan) && k < |plan.order| && Beside(ops, plan, given, a, t, left)
    requires Steps(ops, plan, a, k).1 == Running && Steps(ops, plan, a, k + 1).1 == Running
    requires Extends(b, Steps(ops, plan, a, k).0.bindings) && Extends(b, Steps(ops, plan, a, k + 1).0.bindings)
    requires ops.needs(plan.order[k]) <= Steps(ops, plan, a, k).0.bindings.Keys && NeedsMet(ops, plan, a, b, k)
    requires NeededAgree(ops, plan, left, b) && StillBeside(ops, plan, a, t, left, b, k)
    requires Steps(ops, plan, t, k).1 == Running
    ensures var (after, (beside, status)) := (Steps(ops, plan, a, k + 1).0, Steps(ops, plan, t, k + 1));
            && SymbolsBy(plan, k + 1) <= after.bindings.Keys
            && (status == Running ==> beside.bindings == after.bindings + left)
            && (Compatible(b, left) ==> status == Running)
    ensures Alike(ops.needs(plan.order[k]), Steps(ops, plan, t, k).0.bindings, b)
  {
    hide WellBuilt, Named, Arity, Ranked, ReadsOnly, FactsLegible, SymbolsBy, Step, Steps, Ready, NeededAgree, NeedsMet,
         Midway, Extends, Compatible, Alike, Shaped;
    var before, beside := Steps(ops, plan, a, k).0, Steps(ops, plan, t, k).0;
    StepsRefine(ops, plan, given, b, a, k);
    StepsRefine(ops, plan, given, b, t, k);
    BesideIsMet(ops, plan, before.bindings, left, b, k);
    StepIsLast(ops, plan, a, k);
    StepIsLast(ops, plan, t, k);
    StepBeside(ops, plan, given, b, a.states, before, beside, left, k);
    if Compatible(b, left) {
      var next := k + 1;
      CompatibleBefore(b, Steps(ops, plan, a, next).0.bindings, left);
    }
  }

  lemma StepsStart<V(!new), S(!new)>(ops: Ops<V, S>, plan: Plan<V>, t: TurnState<V, S>)
    requires Shaped(plan) && |plan.nodes| == |t.values| == |t.states|
    ensures Steps(ops, plan, t, 0) == (t, Running)
  {}

  lemma StaysStopped<V(!new), S(!new)>(ops: Ops<V, S>, plan: Plan<V>, t: TurnState<V, S>, k: nat)
    requires Shaped(plan) && k < |plan.order| && |plan.nodes| == |t.values| == |t.states|
    requires Steps(ops, plan, t, k).1 != Running
    ensures Steps(ops, plan, t, k + 1) == Steps(ops, plan, t, k)
  {}

  /** What both turns keep, step by step, as long as they run. */
  lemma {:induction false} StepsBeside<V(!new), S(!new)>(ops: Ops<V, S>, plan: Plan<V>, given: map<nat, V>,
                                                         a: TurnState<V, S>, t: TurnState<V, S>, left: Bindings, k: nat)
    requires WellBuilt(plan) && Named(plan) && Arity(ops, plan) && Ranked(ops, plan) && ReadsOnly(ops)
    requires Shaped(plan) && PlanLegible(plan) && k <= |plan.order| && Beside(ops, plan, given, a, t, left)
    requires Steps(ops, plan, a, |plan.order|).1 == Running && NeedsBound(ops, plan, a)
    requires NeededAgree(ops, plan, left, Steps(ops, plan, a, |plan.order|).0.bindings)
    ensures StillBeside(ops, plan, a, t, left, Steps(ops, plan, a, |plan.order|).0.bindings, k)
  {
    hide WellBuilt, Named, Arity, Ranked, ReadsOnly, PlanLegible, SymbolsBy, Steps, Ready, NeededAgree, Extends, Compatible,
         Alike, Shaped;
    StepsStart(ops, plan, t);
    StepsStart(ops, plan, a);
    if k > 0 {
      StepsBeside(ops, plan, given, a, t, left, k - 1);
      var b := Steps(ops, plan, a, |plan.order|).0.bindings;
      StepsGrow(ops, plan, a, k - 1, |plan.order|);
      StepsGrow(ops, plan, a, k, |plan.order|);
      BoundIsMet(ops, plan, a);
      if Steps(ops, plan, t, k - 1).1 == Running {
        OneStepBeside(ops, plan, given, a, t, left, b, k - 1);
      } else {
        StaysStopped(ops, plan, t, k - 1);
      }
    }
  }

  lemma {:induction false} StartsBeside<V(!new), S(!new)>(ops: Ops<V, S>, plan: Plan<V>, t: TurnState<V, S>, xs: seq<V>)
    requires WellBuilt(plan) && Shaped(plan) && PlanLegible(plan) && |t.states| == |plan.nodes| && |xs| == |plan.inputs|
    requires (t.values == [] || |t.values| == |plan.nodes|) && Unstale(ops, plan, t.values)
    requires SetFirst(ops, plan, Renewed(t), xs, |xs|).1 && SetFirst(ops, plan, t, xs, |xs|).1
    ensures Beside(ops, plan, Given(plan.inputs, xs, |xs|), Started(ops, plan, Renewed(t), xs), Started(ops, plan, t, xs), t.bindings)
  {
    hide WellBuilt, Shaped, InputsLegible, SetFirst, Readied, Given, Ready;
    assert Unstale(ops, plan, Renewed(t).values);
    StartsReady(ops, plan, Renewed(t), xs);
    StartsReady(ops, plan, t, xs);
    SettingBeside(ops, plan, t, xs, |xs|);
  }

  // ---- A turn after a failed one, and the same turn anew ----

  /** At every step, the symbols the op needs are bound alike in both turns. */
  ghost predicate FoundAlike<V(!new), S(!new)>(ops: Ops<V, S>, plan: Plan<V>, a: TurnState<V, S>, t: TurnState<V, S>)
    requires Shaped(plan) && |a.values| == |a.states| == |plan.nodes| == |t.values| == |t.states|
  {
    forall k | 0 <= k < |plan.order| ::
      Alike(ops.needs(plan.order[k]), Steps(ops, plan, t, k).0.bindings, Steps(ops, plan, a, k).0.bindings)
  }

  lemma {:induction false} AgreeIfFoundAlike<V(!new), S(!new)>(ops: Ops<V, S>, plan: Plan<V>, a: TurnState<V, S>,
                                                              t: TurnState<V, S>, left: Bindings)
    requires Shaped(plan) && |a.values| == |a.states| == |plan.nodes| == |t.values| == |t.states|
    requires Steps(ops, plan, a, |plan.order|).1 == Running && NeedsBound(ops, plan, a)
    requires Extends(t.bindings, left) && FoundAlike(ops, plan, a, t)
    ensures NeededAgree(ops, plan, left, Steps(ops, plan, a, |plan.order|).0.bindings)
  {
    hide Steps, Shaped;
    forall k: nat, sym: Symbol | k < |plan.order| && sym in ops.needs(plan.order[k]) && sym in left
      ensures var b := Steps(ops, plan, a, |plan.order|).0.bindings; sym in b && left[sym] == b[sym]
    {
      StepsGrow(ops, plan, a, k, |plan.order|);
      StepsKeepBindings(ops, plan, t, k);
    }
  }

  lemma {:induction false} FoundAlikeIfAgree<V(!new), S(!new)>(ops: Ops<V, S>, plan: Plan<V>, given: map<nat, V>,
                                                              a: TurnState<V, S>, t: TurnState<V, S>, left: Bindings)
    requires WellBuilt(plan) && Named(plan) && Arity(ops, plan) && Ranked(ops, plan) && ReadsOnly(ops)
    requires Shaped(plan) && PlanLegible(plan) && Beside(ops, plan, given, a, t, left)
    requires Steps(ops, plan, a, |plan.order|).1 == Running && NeedsBound(ops, plan, a)
    requires NeededAgree(ops, plan, left, Steps(ops, plan, a, |plan.order|).0.bindings)
    requires Steps(ops, plan, t, |plan.order|).1 == Running
    ensures FoundAlike(ops, plan, a, t)
  {
    hide WellBuilt, Named, Arity, Ranked, ReadsOnly, PlanLegible, Steps, Shaped, NeededAgree, SymbolsBy, Compatible, Ready,
         NeedsMet, Extends, Alike;
    var b := Steps(ops, plan, a, |plan.order|).0.bindings;
    forall k | 0 <= k < |plan.order|
      ensures Alike(ops.needs(plan.order[k]), Steps(ops, plan, t, k).0.bindings, Steps(ops, plan, a, k).0.bindings)
    {
      StepsGrow(ops, plan, a, k, |plan.order|);
      StepsGrow(ops, plan, t, k, |plan.order|);
      StepsBeside(ops, plan, given, a, t, left, k);
      var before := Steps(ops, plan, a, k).0.bindings;
      BesideIsMet(ops, plan, before, left, b, k);
      AlikeBoth(ops.needs(plan.order[k]), before + left, before, b);
    }
  }

  lemma AlikeBoth(syms: set<Symbol>, x: Bindings, y: Bindings, b: Bindings)
    requires Alike(syms, x, b) && Alike(syms, y, b)
    ensures Alike(syms, x, y)
  {}

  /** Ops finding what they need as the renewed turn binds it: the turn answers what the
      renewed turn does. */
  lemma {:induction false} AnswersAlike<V(!new), S(!new)>(ops: Ops<V, S>, plan: Plan<V>, t: TurnState<V, S>, xs: seq<V>, b: Bindings)
    requires WellBuilt(plan) && Arity(ops, plan) && ReadsOnly(ops) && Shaped(plan) && |t.states| == |plan.nodes|
    requires (t.values == [] || |t.values| == |plan.nodes|) && Unstale(ops, plan, t.values)
    requires Ran(ops, plan, Renewed(t), xs).1.Some? && Ran(ops, plan, t, xs).1.Some?
    requires NeedsMet(ops, plan, Started(ops, plan, Renewed(t), xs), b, |plan.order|)
    requires NeedsMet(ops, plan, Started(ops, plan, t, xs), b, |plan.order|)
    ensures Ran(ops, plan, t, xs).1 == Ran(ops, plan, Renewed(t), xs).1
    ensures Ran(ops, plan, t, xs).0.states == Ran(ops, plan, Renewed(t), xs).0.states
  {
    hide WellBuilt, Arity, ReadsOnly, Shaped, ConstantsIn, Ran, NeedsMet, Started, NaiveOutputs, NaiveStates, Clean, Given;
    assert Unstale(ops, plan, Renewed(t).values);
    TurnRefinesUnder(ops, plan, Renewed(t), xs, b);
    TurnRefinesUnder(ops, plan, t, xs, b);
  }

  /** A turn that answers over leftover bindings, and would answer renewed: its ops find the
      symbols they need bound as the renewed turn binds them, if and only if each leftover
      binding an op needs is what the renewed turn ends with; and it then answers and steps
      the op states exactly as the renewed turn does. */
  lemma {:induction false} LeftoverSymbolsDecide<V(!new), S(!new)>(ops: Ops<V, S>, plan: Plan<V>, t: TurnState<V, S>, xs: seq<V>)
    requires WellBuilt(plan) && Named(plan) && Arity(ops, plan) && Ranked(ops, plan) && ReadsOnly(ops)
    requires Shaped(plan) && PlanLegible(plan) && |t.states| == |plan.nodes|
    requires (t.values == [] || |t.values| == |plan.nodes|) && Unstale(ops, plan, t.values)
    requires NeedsBound(ops, plan, Started(ops, plan, Renewed(t), xs)) && Ran(ops, plan, Renewed(t), xs).1.Some?
    requires Ran(ops, plan, t, xs).1.Some?
    ensures FoundAlike(ops, plan, Started(ops, plan, Renewed(t), xs), Started(ops, plan, t, xs))
            <==> NeededAgree(ops, plan, t.bindings, Ended(ops, plan, Renewed(t), xs).bindings)
    ensures NeededAgree(ops, plan, t.bindings, Ended(ops, plan, Renewed(t), xs).bindings) ==>
      && Ran(ops, plan, t, xs).1 == Ran(ops, plan, Renewed(t), xs).1
      && Ran(ops, plan, t, xs).0.states == Ran(ops, plan, Renewed(t), xs).0.states
  {
    hide WellBuilt, Named, Arity, Ranked, ReadsOnly, Shaped, PlanLegible, Unstale, NeedsBound, NeedsMet, Ran, SetFirst, Steps,
         FoundAlike, NeededAgree, Beside, Readied, Reset, ReadAll, SymbolsBy, Compatible, Given, Started;
    var a, b := Started(ops, plan, Renewed(t), xs), Ended(ops, plan, Renewed(t), xs).bindings;
    AnsweredBy(ops, plan, Renewed(t), xs);
    AnsweredBy(ops, plan, t, xs);
    var given := Given(plan.inputs, xs, |xs|);
    StartsBeside(ops, plan, t, xs);
    StartsFurther(ops, plan, t, xs);
    if FoundAlike(ops, plan, a, Started(ops, plan, t, xs)) {
      AgreeIfFoundAlike(ops, plan, a, Started(ops, plan, t, xs), t.bindings);
    }
    if NeededAgree(ops, plan, t.bindings, b) {
      FoundAlikeIfAgree(ops, plan, given, a, Started(ops, plan, t, xs), t.bindings);
      StepsBeside(ops, plan, given, a, Started(ops, plan, t, xs), t.bindings, |plan.order|);
      BoundIsMet(ops, plan, a);
      AnswersAlike(ops, plan, t, xs, b);
    }
  }

  lemma StartsFurther<V(!new), S(!new)>(ops: Ops<V, S>, plan: Plan<V>, t: TurnState<V, S>, xs: seq<V>)
    requires Shaped(plan) && |t.states| == |plan.nodes| && (t.values == [] || |t.values| == |plan.nodes|)
    ensures Extends(Started(ops, plan, t, xs).bindings, t.bindings)
  {
    hide Shaped, SetFirst, Readied;
    if |xs| == |plan.inputs| {
      SettingKeepsBindings(ops, plan, t, xs, |xs|);
    }
  }

  /** Where all the leftover bindings agree with what the renewed turn ends with, whether an
      op needs them or not, the turn does answer. */
  lemma {:induction false} AgreeingLeftoversAnswer<V(!new), S(!new)>(ops: Ops<V, S>, plan: Plan<V>, t: TurnState<V, S>, xs: seq<V>)
    requires WellBuilt(plan) && Named(plan) && Arity(ops, plan) && Ranked(ops, plan) && ReadsOnly(ops)
    requires Shaped(plan) && PlanLegible(plan) && |t.states| == |plan.nodes|
    requires (t.values == [] || |t.values| == |plan.nodes|) && Unstale(ops, plan, t.values)
    requires NeedsBound(ops, plan, Started(ops, plan, Renewed(t), xs)) && Ran(ops, plan, Renewed(t), xs).1.Some?
    requires Compatible(Ended(ops, plan, Renewed(t), xs).bindings, t.bindings)
    ensures Ran(ops, plan, t, xs).1 == Ran(ops, plan, Renewed(t), xs).1
    ensures Ran(ops, plan, t, xs).0.states == Ran(ops, plan, Renewed(t), xs).0.states
  {
    hide WellBuilt, Named, Arity, Ranked, ReadsOnly, Shaped, PlanLegible, Unstale, NeedsBound, NeedsMet, Ran, SetFirst, Steps,
         NeededAgree, Beside, Readied, Reset, ReadAll, SymbolsBy, Compatible, Given, Started, Midway, Ready;
    var a, b := Started(ops, plan, Renewed(t), xs), Ended(ops, plan, Renewed(t), xs).bindings;
    AnsweredBy(ops, plan, Renewed(t), xs);
    var given := Given(plan.inputs, xs, |xs|);
    InputsAgreeing(ops, plan, t, xs);
    StartsBeside(ops, plan, t, xs);
    StepsBeside(ops, plan, given, a, Started(ops, plan, t, xs), t.bindings, |plan.order|);
    StartsReady(ops, plan, t, xs);
    StepsRefine(ops, plan, given, b, Started(ops, plan, t, xs), |plan.order|);
    OutputsHeld(ops, plan, given, b, t.states, Ended(ops, plan, t, xs));
    AnswersAll(ops, plan, t, xs);
    BoundIsMet(ops, plan, a);
    AnswersAlike(ops, plan, t, xs, b);
  }

  /** The inputs of such a turn get through, and its needs are met. */
  lemma {:induction false} InputsAgreeing<V(!new), S(!new)>(ops: Ops<V, S>, plan: Plan<V>, t: TurnState<V, S>, xs: seq<V>)
    requires Shaped(plan) && PlanLegible(plan) && |t.states| == |plan.nodes| && |xs| == |plan.inputs|
    requires t.values == [] || |t.values| == |plan.nodes|
    requires SetFirst(ops, plan, Renewed(t), xs, |xs|).1 && NeedsBound(ops, plan, Started(ops, plan, Renewed(t), xs))
    requires Steps(ops, plan, Started(ops, plan, Renewed(t), xs), |plan.order|).1 == Running
    requires Compatible(Ended(ops, plan, Renewed(t), xs).bindings, t.bindings)
    ensures SetFirst(ops, plan, t, xs, |xs|).1
    ensures NeededAgree(ops, plan, t.bindings, Ended(ops, plan, Renewed(t), xs).bindings)
  {
    hide Shaped, SetFirst, Steps, Readied, InputsLegible, Extends, NeedsBound;
    var a := Started(ops, plan, Renewed(t), xs);
    StepsKeepBindings(ops, plan, a, |plan.order|);
    CompatibleBefore(Ended(ops, plan, Renewed(t), xs).bindings, a.bindings, t.bindings);
    SetBesideAgreeing(ops, plan, t, xs, |xs|);
    NeededIsBound(ops, plan, a);
  }

  lemma AnswersAll<V(!new), S(!new)>(ops: Ops<V, S>, plan: Plan<V>, t: TurnState<V, S>, xs: seq<V>)
    requires Shaped(plan) && |t.states| == |plan.nodes| && (t.values == [] || |t.values| == |plan.nodes|)
    requires |xs| == |plan.inputs| && SetFirst(ops, plan, t, xs, |xs|).1
    requires Steps(ops, plan, Started(ops, plan, t, xs), |plan.order|).1 == Running
    requires ReadAll(Ended(ops, plan, t, xs).values, plan.outputs).Some?
    ensures Ran(ops, plan, t, xs).1.Some?
  {
    hide Shaped, SetFirst, Steps, Readied, ReadAll;
  }

  /** After any history of a sealed plan whose needs are provided for, turns failed or not:
      turn `k`, if it answers and would answer renewed, answers just as it would renewed
      whenever each leftover binding its ops need is what the renewed turn ends with; which is
      exactly when its ops find the symbols they need as they would renewed. */
  lemma {:induction false} HistoryDecides<V(!new), S(!new)>(ops: Ops<V, S>, plan: Plan<V>, t: TurnState<V, S>,
                                                            xss: seq<seq<V>>, k: nat)
    requires WellBuilt(plan) && Named(plan) && Arity(ops, plan) && Ranked(ops, plan) && ReadsOnly(ops) && Seeded(plan, t)
    requires Shaped(plan) && PlanLegible(plan) && Provided(ops, plan) && Sealed(ops, plan) && k < |xss|
    requires (t.values == [] || |t.values| == |plan.nodes|) && Unstale(ops, plan, t.values)
    requires AnswerAt(ops, plan, t, xss, k).Some?
    requires Ran(ops, plan, Renewed(StateAt(ops, plan, t, xss, k)), xss[k]).1.Some?
    ensures var before := StateAt(ops, plan, t, xss, k);
            var b := Ended(ops, plan, Renewed(before), xss[k]).bindings;
            && (FoundAlike(ops, plan, Started(ops, plan, Renewed(before), xss[k]), Started(ops, plan, before, xss[k]))
                <==> NeededAgree(ops, plan, before.bindings, b))
            && (NeededAgree(ops, plan, before.bindings, b) ==>
                 && AnswerAt(ops, plan, t, xss, k) == Ran(ops, plan, Renewed(before), xss[k]).1
                 && StateAt(ops, plan, t, xss, k + 1).states == Ran(ops, plan, Renewed(before), xss[k]).0.states)
  {
    hide WellBuilt, Named, Arity, Ranked, ReadsOnly, Shaped, PlanLegible, Provided, Sealed, Unstale, NeedsBound, Ran, SetFirst,
         Steps, FoundAlike, NeededAgree, Reset, ReadAll, Started, ConstantsIn;
    UnstaleAt(ops, plan, t, xss, k);
    var before := StateAt(ops, plan, t, xss, k);
    AnsweredBy(ops, plan, Renewed(before), xss[k]);
    ProvidedIsBound(ops, plan, Renewed(before), xss[k]);
    LeftoverSymbolsDecide(ops, plan, before, xss[k]);
  }
}
