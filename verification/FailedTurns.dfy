/** What a turn that fails leaves behind: `run` returns before its reset. */
module FailedTurns {
  import opened Outcomes
  import opened Outlets
  import opened Symbols
  import opened FlushLists
  import opened PlanTurns
  import opened PlanRefinement
  import opened PlanHistories

  // ---- Leftover bindings ----

  /** A leftover binding is enough for an input of another extent to be refused, and only
      that: a tensor whose dimensions are all bound gets through exactly when every
      dimension is still worth the extent it comes with. */
  lemma {:induction false} LeftoverBindingsDecide(solve: Solver, es: seq<TDim>, provided: seq<int>, b: Bindings)
    requires forall k | 0 <= k < |es| :: SymbolsIn(es[k]) <= b.Keys
    ensures ResolveAll(solve, es, provided, b).1
            <==> forall k | 0 <= k < |es| && k < |provided| :: Worth(es[k], b) == provided[k]
    ensures ResolveAll(solve, es, provided, b).0 == b
    decreases |es|
  {
    if es != [] && provided != [] {
      ResolveKeepsBindings(solve, es[0], provided[0], b);
      LeftoverBindingsDecide(solve, es[1..], provided[1..], b);
      if forall k | 0 <= k < |es[1..]| && k < |provided[1..]| :: Worth(es[1..][k], b) == provided[1..][k] {
        forall k | 1 <= k < |es| && k < |provided|
          ensures Worth(es[k], b) == provided[k]
        {
          assert Worth(es[1..][k - 1], b) == provided[1..][k - 1];
        }
      } else {
        var k :| 0 <= k < |es[1..]| && k < |provided[1..]| && Worth(es[1..][k], b) != provided[1..][k];
        assert Worth(es[k + 1], b) != provided[k + 1];
      }
    }
  }

  /** The symbols the first `k` inputs mention. */
  function InputSymbols<V>(plan: Plan<V>, k: nat): set<Symbol>
    requires Shaped(plan) && k <= |plan.inputs|
  {
    if k == 0 then {} else InputSymbols(plan, k - 1) + SymbolsInAll(ShapeOfInput(plan, k - 1))
  }

  /** Each dimension of the inputs is a bare symbol, or mentions only symbols bound before or
      mentioned by an earlier dimension. */
  predicate InputsLegible<V>(plan: Plan<V>, known: set<Symbol>, k: nat)
    requires Shaped(plan) && k <= |plan.inputs|
  {
    forall ix | 0 <= ix < k :: Legible(ShapeOfInput(plan, ix), known + InputSymbols(plan, ix))
  }

  lemma LegibleAt<V>(plan: Plan<V>, known: set<Symbol>, ix: nat)
    requires Shaped(plan) && ix < |plan.inputs| && InputsLegible(plan, known, ix + 1)
    ensures Legible(ShapeOfInput(plan, ix), known + InputSymbols(plan, ix)) && InputsLegible(plan, known, ix)
  {
    hide Shaped, Legible, ShapeOfInput;
  }

  /** `x` has the type input `ix` asks for, and the extents its dimensions are worth. */
  ghost predicate Suits<V(!new), S(!new)>(ops: Ops<V, S>, plan: Plan<V>, b: Bindings, ix: nat, x: V)
    requires Shaped(plan) && ix < |plan.inputs|
  {
    ops.typed(ix, x) && Fits(ShapeOfInput(plan, ix), ops.extents(x), b)
  }

  ghost predicate AllSuit<V(!new), S(!new)>(ops: Ops<V, S>, plan: Plan<V>, b: Bindings, xs: seq<V>, k: nat)
    requires Shaped(plan) && k <= |xs| == |plan.inputs|
  {
    forall ix | 0 <= ix < k :: Suits(ops, plan, b, ix, xs[ix])
  }

  lemma FitsMatches(es: seq<TDim>, provided: seq<int>, b: Bindings)
    requires Fits(es, provided, b)
    ensures Matches(es, provided, b)
  {
    forall d | 0 <= d < |es|
      ensures Substituted(es[d], b) == Val(provided[d])
    {
      assert IsWorth(es[d], b, provided[d]);
      SubstitutedIsWorth(es[d], b);
    }
  }

  /** Inputs that got through suit the bindings they leave. */
  lemma {:induction false} SetSuits<V(!new), S(!new)>(ops: Ops<V, S>, plan: Plan<V>, t: TurnState<V, S>, xs: seq<V>, k: nat)
    requires Shaped(plan) && k <= |xs| == |plan.inputs| && (t.values == [] || |t.values| == |plan.nodes|)
    requires InputsLegible(plan, t.bindings.Keys, k) && SetFirst(ops, plan, t, xs, k).1
    ensures var b := SetFirst(ops, plan, t, xs, k).0.bindings;
            b.Keys == t.bindings.Keys + InputSymbols(plan, k) && Extends(b, t.bindings) && AllSuit(ops, plan, b, xs, k)
  {
    hide Shaped, InputsLegible, ShapeOfInput, SetInput, Suits, Extends;
    if k > 0 {
      LegibleAt(plan, t.bindings.Keys, k - 1);
      SetSuits(ops, plan, t, xs, k - 1);
      var before := SetFirst(ops, plan, t, xs, k - 1).0;
      var b := SetFirst(ops, plan, t, xs, k).0.bindings;
      SetOneSuits(ops, plan, before, k - 1, xs[k - 1]);
      ExtendsThrough(t.bindings, before.bindings, b);
      forall ix | 0 <= ix < k - 1
        ensures Suits(ops, plan, b, ix, xs[ix])
      {
        SuitsLater(ops, plan, before.bindings, b, ix, xs[ix]);
      }
    } else {
      ExtendsItself(t.bindings);
    }
  }

  lemma SuitsLater<V(!new), S(!new)>(ops: Ops<V, S>, plan: Plan<V>, b: Bindings, later: Bindings, ix: nat, x: V)
    requires Shaped(plan) && ix < |plan.inputs| && Suits(ops, plan, b, ix, x) && Extends(later, b)
    ensures Suits(ops, plan, later, ix, x)
  {
    hide Shaped, ShapeOfInput;
    FitsLater(ShapeOfInput(plan, ix), ops.extents(x), b, later);
  }

  lemma ExtendsItself(b: Bindings)
    ensures Extends(b, b)
  {}

  lemma ExtendsThrough(a: Bindings, b: Bindings, c: Bindings)
    requires Extends(b, a) && Extends(c, b)
    ensures Extends(c, a)
  {}

  lemma SetOneSuits<V(!new), S(!new)>(ops: Ops<V, S>, plan: Plan<V>, t: TurnState<V, S>, ix: nat, x: V)
    requires Shaped(plan) && ix < |plan.inputs| && (t.values == [] || |t.values| == |plan.nodes|)
    requires Legible(ShapeOfInput(plan, ix), t.bindings.Keys) && SetInput(ops, plan, t, ix, x).1
    ensures var b := SetInput(ops, plan, t, ix, x).0.bindings;
            && b.Keys == t.bindings.Keys + SymbolsInAll(ShapeOfInput(plan, ix)) && Extends(b, t.bindings)
            && Suits(ops, plan, b, ix, x)
  {
    hide Shaped, ResolveAll, Legible, Fits, ShapeOfInput, SetInput, Matches, Extends;
    ShapeSet(ops, plan, t, ix, x);
    LegibleResolves(ops.solve, ShapeOfInput(plan, ix), ops.extents(x), t.bindings);
  }

  lemma FitsLater(es: seq<TDim>, provided: seq<int>, b: Bindings, later: Bindings)
    requires Fits(es, provided, b) && Extends(later, b)
    ensures Fits(es, provided, later)
  {
    forall d | 0 <= d < |es|
      ensures IsWorth(es[d], later, provided[d])
    {
      StillWorth(es[d], b, later, provided[d]);
    }
  }

  /** What setting one input asks, and does to the bindings. */
  lemma ShapeSet<V(!new), S(!new)>(ops: Ops<V, S>, plan: Plan<V>, t: TurnState<V, S>, ix: nat, x: V)
    requires Shaped(plan) && ix < |plan.inputs| && (t.values == [] || |t.values| == |plan.nodes|)
    ensures var (after, ok) := SetInput(ops, plan, t, ix, x);
            var (b, agrees) := ResolveAll(ops.solve, ShapeOfInput(plan, ix), ops.extents(x), t.bindings);
            && after.bindings == b
            && (ok <==> agrees && ops.typed(ix, x) && Matches(ShapeOfInput(plan, ix), ops.extents(x), b))
            && (ok ==> |ShapeOfInput(plan, ix)| == |ops.extents(x)|)
  {}

  lemma SuitedOne<V(!new), S(!new)>(ops: Ops<V, S>, plan: Plan<V>, t: TurnState<V, S>, ix: nat, x: V, later: Bindings)
    requires Shaped(plan) && ix < |plan.inputs| && (t.values == [] || |t.values| == |plan.nodes|)
    requires Legible(ShapeOfInput(plan, ix), t.bindings.Keys) && Extends(later, t.bindings) && Suits(ops, plan, later, ix, x)
    ensures SetInput(ops, plan, t, ix, x).1 && Extends(later, SetInput(ops, plan, t, ix, x).0.bindings)
  {
    hide Shaped, ResolveAll, Legible, IsWorth, ShapeOfInput, Matches, Extends, SetInput;
    var es, provided := ShapeOfInput(plan, ix), ops.extents(x);
    FittingResolves(ops.solve, es, provided, t.bindings, later);
    LegibleResolves(ops.solve, es, provided, t.bindings);
    FitsMatches(es, provided, ResolveAll(ops.solve, es, provided, t.bindings).0);
    ShapeSet(ops, plan, t, ix, x);
  }

  /** And inputs suiting some bindings the state's own can grow to get through. */
  lemma {:induction false} SuitedSet<V(!new), S(!new)>(ops: Ops<V, S>, plan: Plan<V>, t: TurnState<V, S>, xs: seq<V>, k: nat,
                                                       later: Bindings)
    requires Shaped(plan) && k <= |xs| == |plan.inputs| && (t.values == [] || |t.values| == |plan.nodes|)
    requires InputsLegible(plan, t.bindings.Keys, k) && Extends(later, t.bindings) && AllSuit(ops, plan, later, xs, k)
    ensures SetFirst(ops, plan, t, xs, k).1 && Extends(later, SetFirst(ops, plan, t, xs, k).0.bindings)
  {
    hide Shaped, InputsLegible, ShapeOfInput, SetInput, Suits, Extends;
    if k > 0 {
      LegibleAt(plan, t.bindings.Keys, k - 1);
      SuitedSet(ops, plan, t, xs, k - 1, later);
      SetSuits(ops, plan, t, xs, k - 1);
      SuitedOne(ops, plan, SetFirst(ops, plan, t, xs, k - 1).0, k - 1, xs[k - 1], later);
    }
  }

  /** Whatever bindings a failed turn left, however far it got: the next turn's inputs get
      through if and only if the leftover bindings extend to some that every input suits. */
  lemma {:induction false} LeftoverBindingsDecideTurn<V(!new), S(!new)>(ops: Ops<V, S>, plan: Plan<V>, t: TurnState<V, S>,
                                                                        xs: seq<V>, n: nat)
    requires Shaped(plan) && n <= |xs| == |plan.inputs| && (t.values == [] || |t.values| == |plan.nodes|)
    requires InputsLegible(plan, t.bindings.Keys, n)
    ensures SetFirst(ops, plan, t, xs, n).1
            <==> exists b: Bindings :: Extends(b, t.bindings) && AllSuit(ops, plan, b, xs, n)
  {
    hide Shaped, SetFirst, InputsLegible, AllSuit;
    if SetFirst(ops, plan, t, xs, n).1 {
      SetSuits(ops, plan, t, xs, n);
    }
    forall b: Bindings | Extends(b, t.bindings) && AllSuit(ops, plan, b, xs, n)
      ensures SetFirst(ops, plan, t, xs, n).1
    {
      SuitedSet(ops, plan, t, xs, n, b);
    }
  }

  /** So a turn is refused, whatever its ops, as soon as one extent is not what a leftover
      binding makes of it; and so is every turn until one answers. */
  lemma {:induction false} RefusedByLeftovers<V(!new), S(!new)>(ops: Ops<V, S>, plan: Plan<V>, t: TurnState<V, S>,
                                                                xss: seq<seq<V>>, k: nat, ix: nat, d: nat)
    requires Shaped(plan) && |t.states| == |plan.nodes| && (t.values == [] || |t.values| == |plan.nodes|) && k < |xss|
    requires forall j | 0 <= j < k :: AnswerAt(ops, plan, t, xss, j).None?
    requires ix < |plan.inputs| == |xss[k]| && d < |ShapeOfInput(plan, ix)| && d < |ops.extents(xss[k][ix])|
    requires SymbolsIn(ShapeOfInput(plan, ix)[d]) <= t.bindings.Keys
    requires Worth(ShapeOfInput(plan, ix)[d], t.bindings) != ops.extents(xss[k][ix])[d]
    ensures AnswerAt(ops, plan, t, xss, k).None?
  {
    hide Shaped, SetFirst, Steps, Worth, ShapeOfInput, Readied;
    BoundUntilAnswered(ops, plan, t, xss, k);
    var before, xs, e := StateAt(ops, plan, t, xss, k), xss[k], ShapeOfInput(plan, ix)[d];
    if SetFirst(ops, plan, before, xs, |xs|).1 {
      SettingKeepsBindings(ops, plan, before, xs, ix);
      SettingKeepsBindings(ops, plan, before, xs, |xs|);
      InputsAgree(ops, plan, before, xs, |xs|, ix, d);
      WorthKept(e, t.bindings, SetFirst(ops, plan, before, xs, |xs|).0.bindings);
      assert false;
    }
  }

  // ---- Leftover values ----

  /** A step that reads no node and is not one of the model's inputs computes what naive
      evaluation does if and only if its op answers what was left there as it answers
      nothing; and it never misses a precursor. */
  lemma LeftoverValueIsHandedIn<V(!new), S(!new)>(ops: Ops<V, S>, plan: Plan<V>, given: map<nat, V>, t: TurnState<V, S>, k: nat)
    requires WellBuilt(plan) && k < |plan.order| && |t.states| == |plan.nodes| == |t.values|
    requires plan.nodes[plan.order[k]].inputs == [] && plan.order[k] !in given
    ensures var n := plan.order[k];
            var (after, status) := Step(ops, plan, t, k);
            var handed := if t.values[n].Some? then t.values[n].value else [];
            && status != PrecursorMissing
            && (status == EvalFailed <==> ops.eval(n, t.states[n], handed, t.bindings).1.None?)
            && (status == Running ==>
                 (after.values[n] == Naive(ops, plan, given, t.bindings, t.states, k)
                  <==> ops.eval(n, t.states[n], handed, t.bindings).1 == ops.eval(n, t.states[n], [], t.bindings).1))
  {
    hide FlushedAt, NeededUntil, ResolveOutputs;
    assert NaiveArgs(ops, plan, given, t.bindings, t.states, k) == Some([]);
    if plan.order[k] in plan.flushLists[k] {
      DropsOnlyDone(plan, k, plan.order[k]);
    }
  }

  /** A source, a generator without inputs, an op refusing zero, and the generator and the
      op added up. */
  const PLAN: Plan<int> := Plan(
    [PlanNode([], None, [[]]),
     PlanNode([], None, [[]]),
     PlanNode([Outlet(0, 0)], None, [[]]),
     PlanNode([Outlet(1, 0), Outlet(2, 0)], None, [[]])],
    [1, 0, 2, 3],
    [[], [], [0], [1, 2], [3]],
    [Outlet(0, 0)],
    [Outlet(3, 0)],
    {})

  const OPS: Ops<int, int> := Ops(EvalNode, _ => {}, _ => [], (_, _) => true, (_, _, _) => None)

  function EvalNode(n: nat, s: int, xs: seq<int>, b: Bindings): (int, Option<seq<int>>) {
    (s, if n == 0 then if |xs| == 1 then Some(xs) else None
        else if n == 1 then if xs == [] then Some([10]) else Some([xs[0] + 1])
        else if n == 2 then if |xs| == 1 && xs[0] != 0 then Some(xs) else None
        else if |xs| == 2 then Some([xs[0] + xs[1]]) else None)
  }

  function Holding(a: Option<seq<int>>, b: Option<seq<int>>, c: Option<seq<int>>, d: Option<seq<int>>): TurnState<int, int> {
    TurnState([a, b, c, d], map[], [0, 0, 0, 0])
  }

  const FRESH: TurnState<int, int> := TurnState([], map[], [0, 0, 0, 0])

  function Generated(left: Option<seq<int>>): int {
    if left.Some? && |left.value| > 0 then left.value[0] + 1 else 10
  }

  lemma ReadsSingle(values: seq<Option<seq<int>>>, i: Outlet)
    ensures ReadAll(values, [i]) == if ReadOne(values, i).Some? then Some([ReadOne(values, i).value]) else None
  {
    assert [i][1..] == [] && ReadAll(values, []) == Some([]);
    if ReadOne(values, i).Some? {
      assert [ReadOne(values, i).value] + [] == [ReadOne(values, i).value];
    }
  }

  lemma Generates(x: int, left: Option<seq<int>>)
    requires left.Some? ==> |left.value| == 1
    ensures Step(OPS, PLAN, Holding(Some([x]), left, None, None), 0)
            == (Holding(Some([x]), Some([Generated(left)]), None, None), Running)
  {
    assert [0, 0, 0, 0][1 := 0] == [0, 0, 0, 0];
    assert [Some([x]), left, None, None][1 := Some([Generated(left)])] == [Some([x]), Some([Generated(left)]), None, None];
  }

  lemma Sources(x: int, v: int)
    ensures Step(OPS, PLAN, Holding(Some([x]), Some([v]), None, None), 1)
            == (Holding(Some([x]), Some([v]), None, None), Running)
  {
    assert [0, 0, 0, 0][0 := 0] == [0, 0, 0, 0];
    var values := [Some([x]), Some([v]), None, None];
    assert Dropped(values, []) == values && values[0 := Some([x])] == values;
  }

  lemma Refuses(x: int, v: int)
    ensures Step(OPS, PLAN, Holding(Some([x]), Some([v]), None, None), 2)
            == if x == 0 then (Holding(None, Some([v]), None, None), EvalFailed)
               else (Holding(None, Some([v]), Some([x]), None), Running)
  {
    var t := Holding(Some([x]), Some([v]), None, None);
    ReadsSingle(t.values, Outlet(0, 0));
    var kept := [None, Some([v]), None, None];
    assert PLAN.flushLists[2] == [0] && Dropped(t.values, [0]) == kept;
    assert kept[2 := Some([x])] == [None, Some([v]), Some([x]), None];
    assert [0, 0, 0, 0][2 := 0] == [0, 0, 0, 0];
  }

  lemma Sums(x: int, v: int)
    ensures Step(OPS, PLAN, Holding(None, Some([v]), Some([x]), None), 3)
            == (Holding(None, None, None, Some([v + x])), Running)
  {
    var t := Holding(None, Some([v]), Some([x]), None);
    var inputs := [Outlet(1, 0), Outlet(2, 0)];
    assert inputs[1..] == [Outlet(2, 0)];
    ReadsSingle(t.values, Outlet(2, 0));
    assert [v] + [x] == [v, x];
    assert ReadAll(t.values, inputs) == Some([v, x]);
    var kept := [None, None, None, None];
    assert PLAN.flushLists[3] == [1, 2] && Dropped(t.values, [1, 2]) == kept;
    assert kept[3 := Some([v + x])] == [None, None, None, Some([v + x])];
    assert [0, 0, 0, 0][3 := 0] == [0, 0, 0, 0];
  }

  lemma PlanIsShaped()
    ensures Shaped(PLAN)
  {}

  lemma StepsOn(x: int, left: Option<seq<int>>)
    requires left.Some? ==> |left.value| == 1
    ensures Shaped(PLAN)
    ensures Steps(OPS, PLAN, Holding(Some([x]), left, None, None), 4)
            == if x == 0 then (Holding(None, Some([Generated(left)]), None, None), EvalFailed)
               else (Holding(None, None, None, Some([Generated(left) + x])), Running)
  {
    hide Step, Generated, EvalNode;
    PlanIsShaped();
    var t, v := Holding(Some([x]), left, None, None), Generated(left);
    Generates(x, left);
    Sources(x, v);
    Refuses(x, v);
    Sums(x, v);
    assert Steps(OPS, PLAN, t, 0) == (t, Running);
    assert Steps(OPS, PLAN, t, 1) == Step(OPS, PLAN, t, 0);
    assert Steps(OPS, PLAN, t, 2) == (Holding(Some([x]), Some([v]), None, None), Running);
  }

  /** A turn on `x` from a state where the generator's value may have been left. */
  lemma TurnOn(t: TurnState<int, int>, x: int, left: Option<seq<int>>)
    requires left.Some? ==> |left.value| == 1
    requires t == Holding(None, left, None, None) || (t == FRESH && left == None)
    ensures Shaped(PLAN)
    ensures Ran(OPS, PLAN, t, [x]).1 == if x == 0 then None else Some([Generated(left) + x])
    ensures x == 0 ==> Ran(OPS, PLAN, t, [x]).0 == Holding(None, Some([Generated(left)]), None, None)
  {
    hide Steps, Generated, EvalNode;
    StepsOn(x, left);
    assert Readied(PLAN, []) == [None, None, None, None];
    assert SetFirst(OPS, PLAN, t, [x], 0) == (t, true);
    assert Readied(PLAN, t.values)[0 := Some([x])] == [Some([x]), left, None, None];
    assert ResolveAll(OPS.solve, [], OPS.extents(x), map[]) == (map[], true);
    assert SetFirst(OPS, PLAN, t, [x], 1) == (Holding(Some([x]), left, None, None), true);
    var done := Holding(None, None, None, Some([Generated(left) + x]));
    ReadsSingle(done.values, Outlet(3, 0));
  }

  /** A turn on zero fails at the third step, and the generator's value stays: the next
      turn hands it in, and answers otherwise than a fresh one does. */
  lemma FailureShows()
    ensures Shaped(PLAN)
    ensures Ran(OPS, PLAN, FRESH, [5]).1 == Some([15])
    ensures Ran(OPS, PLAN, FRESH, [0]) == (Holding(None, Some([10]), None, None), None)
    ensures Ran(OPS, PLAN, Holding(None, Some([10]), None, None), [5]).1 == Some([16])
  {
    hide Ran;
    TurnOn(FRESH, 5, None);
    TurnOn(FRESH, 0, None);
    TurnOn(Holding(None, Some([10]), None, None), 5, Some([10]));
  }

  // ---- A binding that sticks ----

  /** A source sized by a symbol, and an op refusing three. */
  const SIZED: Plan<int> := Plan(
    [PlanNode([], None, [[Sym(0)]]), PlanNode([Outlet(0, 0)], None, [[]])],
    [0, 1],
    [[], [0], [1]],
    [Outlet(0, 0)],
    [Outlet(1, 0)],
    {0})

  const SIZED_OPS: Ops<int, int> := Ops(EvalSized, _ => {}, x => [x], (_, _) => true, (_, _, _) => None)

  function EvalSized(n: nat, s: int, xs: seq<int>, b: Bindings): (int, Option<seq<int>>) {
    (s, if |xs| == 1 && !(n == 1 && xs[0] == 3) then Some(xs) else None)
  }

  const UNUSED: TurnState<int, int> := TurnState([], map[], [0, 0])

  /** What the failed turn leaves: its symbol bound to three. */
  const STUCK: TurnState<int, int> := TurnState([None, None], map[0 := 3], [0, 0])

  lemma SizedIsShaped()
    ensures Shaped(SIZED)
  {}

  /** Set: the symbol bound, unless it is bound to something else. */
  lemma SizedSets(t: TurnState<int, int>, x: int)
    requires t == UNUSED || t == STUCK
    ensures Shaped(SIZED)
    ensures SetFirst(SIZED_OPS, SIZED, t, [x], 1)
            == if t == STUCK && x != 3 then (STUCK, false) else (TurnState([Some([x]), None], map[0 := x], [0, 0]), true)
  {
    SizedIsShaped();
    var facts := SIZED.nodes[0].facts[0];
    assert facts == [Sym(0)] && facts[1..] == [] && [x][1..] == [];
    assert Resolve(SIZED_OPS.solve, Sym(0), x, t.bindings)
           == if t == STUCK && x != 3 then (t.bindings, false) else (map[0 := x], true);
    assert SIZED_OPS.extents(x) == [x];
    assert ResolveAll(SIZED_OPS.solve, [], [], map[0 := x]) == (map[0 := x], true);
    assert Readied(SIZED, []) == [None, None];
    assert [None, None][0 := Some([x])] == [Some([x]), None];
    assert SetFirst(SIZED_OPS, SIZED, t, [x], 0) == (t, true);
  }

  lemma SizedSteps(x: int)
    ensures Shaped(SIZED)
    ensures Steps(SIZED_OPS, SIZED, TurnState([Some([x]), None], map[0 := x], [0, 0]), 2)
            == if x == 3 then (TurnState([None, None], map[0 := x], [0, 0]), EvalFailed)
               else (TurnState([None, Some([x])], map[0 := x], [0, 0]), Running)
  {
    SizedIsShaped();
    var t := TurnState([Some([x]), None], map[0 := x], [0, 0]);
    assert Dropped(t.values, []) == t.values && t.values[0 := Some([x])] == t.values && [0, 0][0 := 0] == [0, 0];
    assert SIZED.symbols <= t.bindings.Keys;
    assert Step(SIZED_OPS, SIZED, t, 0) == (t, Running);
    ReadsSingle(t.values, Outlet(0, 0));
    assert SIZED.flushLists[1] == [0] && Dropped(t.values, [0]) == [None, None];
    assert [None, None][1 := Some([x])] == [None, Some([x])] && [0, 0][1 := 0] == [0, 0];
    assert Steps(SIZED_OPS, SIZED, t, 0) == (t, Running);
    assert Steps(SIZED_OPS, SIZED, t, 1) == (t, Running);
  }

  lemma SizedTurn(t: TurnState<int, int>, x: int)
    requires t == UNUSED || t == STUCK
    ensures Shaped(SIZED)
    ensures Ran(SIZED_OPS, SIZED, t, [x]).1 == if t == STUCK || x == 3 then None else Some([x])
    ensures t == STUCK || x == 3 ==> Ran(SIZED_OPS, SIZED, t, [x]).0 == STUCK
  {
    hide Steps, SetFirst;
    SizedSets(t, x);
    SizedSteps(x);
    ReadsSingle([None, Some([x])], Outlet(1, 0));
  }

  /** A fresh state answers five. After a turn on three fails in its op, five is refused,
      and so is everything else, turn after turn, for good: the binding outlives the turn
      and no turn is left that could reset it. */
  lemma {:induction false} BindingSticks(xss: seq<seq<int>>, k: nat)
    requires k < |xss|
    ensures Shaped(SIZED)
    ensures Ran(SIZED_OPS, SIZED, UNUSED, [5]).1 == Some([5])
    ensures Ran(SIZED_OPS, SIZED, UNUSED, [3]) == (STUCK, None)
    ensures Ran(SIZED_OPS, SIZED, STUCK, [5]).1 == None
    ensures StateAt(SIZED_OPS, SIZED, STUCK, xss, k) == STUCK && AnswerAt(SIZED_OPS, SIZED, STUCK, xss, k) == None
  {
    hide Ran;
    SizedTurn(UNUSED, 5);
    SizedTurn(UNUSED, 3);
    SizedTurn(STUCK, 5);
    SizedTurn(STUCK, 5);
    if k > 0 {
      BindingSticks(xss, k - 1);
      StuckStays(xss[k - 1]);
    }
    StuckStays(xss[k]);
  }

  lemma StuckStays(xs: seq<int>)
    ensures Shaped(SIZED) && Ran(SIZED_OPS, SIZED, STUCK, xs) == (STUCK, None)
  {
    SizedIsShaped();
    if |xs| == 1 {
      assert xs == [xs[0]];
      SizedTurn(STUCK, xs[0]);
    }
  }
}
