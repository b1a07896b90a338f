/** A failed turn whose leftover symbol the next turn answers with. */
module StaleSymbols {
  import opened Outcomes
  import opened Outlets
  import opened Symbols
  import opened FlushLists
  import opened PlanTurns
  import opened PlanHistories
  import opened SymbolReads
  import opened LeftoverSymbols

  datatype Piece = Piece(shape: seq<int>, content: int)

  /** A source without axes, an op making as long a vector as the source says, whose length
      is symbol 0, and an op reading that symbol, and refusing what was made of three. */
  const MINTING: Plan<Piece> := Plan(
    [PlanNode([], None, [[]]),
     PlanNode([Outlet(0, 0)], None, [[Sym(0)]]),
     PlanNode([Outlet(1, 0)], None, [[]])],
    [0, 1, 2],
    [[], [0], [1], [2]],
    [Outlet(0, 0)],
    [Outlet(2, 0)],
    {0})

  const MINTING_OPS: Ops<Piece, int> := Ops(EvalPiece, NeedsOf, (p: Piece) => p.shape, (_, _) => true, (_, _, _) => None)

  function NeedsOf(n: nat): set<Symbol> {
    if n == 2 then {0} else {}
  }

  function EvalPiece(n: nat, s: int, xs: seq<Piece>, b: Bindings): (int, Option<seq<Piece>>) {
    (s, if |xs| != 1 then None
        else if n == 0 then if xs[0].shape == [] then Some(xs) else None
        else if n == 1 then Some([Piece([xs[0].content], xs[0].content)])
        else if n == 2 && xs[0].content != 3 && 0 in b then Some([Piece([], b[0])])
        else None)
  }

  function At(a: Option<seq<Piece>>, v: Option<seq<Piece>>, c: Option<seq<Piece>>, b: Bindings): TurnState<Piece, int> {
    TurnState([a, v, c], b, [0, 0, 0])
  }

  const NEVER_RUN: TurnState<Piece, int> := TurnState([], map[], [0, 0, 0])

  /** What the failed turn leaves. */
  const LEFT_AT_THREE: TurnState<Piece, int> := TurnState([None, None, None], map[0 := 3], [0, 0, 0])

  /** What symbol 0 is bound to by a turn on `x`. */
  function Bound(b: Bindings, x: int): Bindings {
    if 0 in b then b else b[0 := x]
  }

  // ---- Inside every condition but the last ----

  /** Three nodes, each reading the one before. */
  ghost predicate Chained<V>(plan: Plan<V>) {
    && |plan.nodes| == 3 && plan.order == [0, 1, 2] && plan.inputs == [Outlet(0, 0)] && plan.outputs == [Outlet(2, 0)]
    && plan.flushLists == [[], [0], [1], [2]]
    && (forall n | 0 <= n < 3 :: plan.nodes[n].konst.None? && |plan.nodes[n].facts| == 1)
    && (forall n | 0 <= n < 3 :: plan.nodes[n].inputs == if n == 0 then [] else [Outlet(n - 1, 0)])
  }

  lemma ChainSteps(order: seq<nat>)
    requires order == [0, 1, 2]
    ensures StepOf(order, 0) == 0 && StepOf(order, 1) == 1 && StepOf(order, 2) == 2
  {
    assert order[1..] == [1, 2] && [1, 2][1..] == [2];
  }

  lemma ChainReads<V>(plan: Plan<V>, k: nat, n: nat)
    requires Chained(plan) && k < 3
    ensures ReadsNode(plan.nodes[k], n) <==> n + 1 == k
  {
    if n + 1 == k {
      assert plan.nodes[k].inputs[0].node == n;
    }
  }

  lemma ChainNeeds<V>(plan: Plan<V>, n: nat)
    requires Chained(plan) && n < 3
    ensures forall s | 0 <= s < |plan.order| :: plan.order[s] < |plan.nodes|
    ensures NeededUntil(plan.nodes, plan.order, plan.outputs, n) == n + 1
  {
    if n == 2 {
      assert plan.outputs[0].node == n;
    } else {
      var last := LastUse(plan.nodes, plan.order, n, 3);
      assert plan.order[n + 1] == n + 1;
      ChainReads(plan, n + 1, n);
      if last != 0 {
        assert plan.order[last] == last;
        ChainReads(plan, last, n);
      }
    }
  }

  lemma ChainFlushes<V>(plan: Plan<V>, s: nat)
    requires Chained(plan) && s <= 3
    ensures forall j | 0 <= j < |plan.order| :: plan.order[j] < |plan.nodes|
    ensures plan.flushLists[s] == FlushedAt(plan.nodes, plan.order, plan.outputs, s, 3)
  {
    hide NeededUntil;
    ChainNeeds(plan, 0);
    ChainNeeds(plan, 1);
    ChainNeeds(plan, 2);
    assert FlushedAt(plan.nodes, plan.order, plan.outputs, s, 0) == [];
    assert FlushedAt(plan.nodes, plan.order, plan.outputs, s, 1) == if s == 1 then [0] else [];
    assert FlushedAt(plan.nodes, plan.order, plan.outputs, s, 2) == if s == 1 then [0] else if s == 2 then [1] else [];
  }

  lemma ChainIsShaped<V>(plan: Plan<V>)
    requires Chained(plan)
    ensures Shaped(plan)
  {
    forall s | 0 <= s < |plan.order|
      ensures plan.order[s] == s
    {}
  }

  lemma ChainIsBuilt<V>(plan: Plan<V>)
    requires Chained(plan)
    ensures WellBuilt(plan)
  {
    hide FlushedAt, Shaped;
    ChainIsShaped(plan);
    ChainSteps(plan.order);
    forall s | 0 <= s <= 3
      ensures plan.flushLists[s] == FlushedAt(plan.nodes, plan.order, plan.outputs, s, 3)
    {
      ChainFlushes(plan, s);
    }
    forall s | 0 <= s < |plan.order|
      ensures plan.order[s] == s
    {}
  }

  lemma MintingIsChained()
    ensures Chained(MINTING)
  {}

  lemma MintingProvides()
    ensures Shaped(MINTING) && Provided(MINTING_OPS, MINTING)
  {
    hide Shaped;
    MintingIsChained();
    ChainIsShaped(MINTING);
    assert OfferedBy(MINTING.nodes[1], 0) by {
      assert MINTING.nodes[1].facts[0][0] == Sym(0);
      assert Offers(MINTING.nodes[1].facts[0], 0);
    }
    forall k: nat, sym: Symbol | k < |MINTING.order| && sym in MINTING_OPS.needs(MINTING.order[k])
      ensures exists j :: 0 <= j < k && OfferedBy(MINTING.nodes[MINTING.order[j]], sym)
    {
      assert k == 2 && sym == 0 && MINTING.order[1] == 1;
    }
  }

  /** The plan and its ops meet every condition of `LeftoverSymbolsDecide`, and no value can
      be left where an op looks. */
  lemma MintingIsLawful()
    ensures WellBuilt(MINTING) && Named(MINTING) && Shaped(MINTING) && PlanLegible(MINTING)
    ensures Arity(MINTING_OPS, MINTING) && Ranked(MINTING_OPS, MINTING) && ReadsOnly(MINTING_OPS) && Sealed(MINTING_OPS, MINTING)
    ensures Provided(MINTING_OPS, MINTING)
  {
    hide WellBuilt, Shaped;
    MintingIsChained();
    ChainIsShaped(MINTING);
    ChainIsBuilt(MINTING);
    assert Named(MINTING) by {
      assert [[Sym(0)]][1..] == [] && [Sym(0)][1..] == [];
      assert FactSymbols([[Sym(0)]]) == {0};
    }
    assert Sealed(MINTING_OPS, MINTING) by {
      assert MINTING.inputs[0].node == 0;
    }
    MintingProvides();
  }

  // ---- Its turns ----

  lemma MintingShape()
    ensures Shaped(MINTING)
  {
    MintingIsChained();
    ChainIsShaped(MINTING);
  }

  lemma Sets(t: TurnState<Piece, int>, x: int)
    requires t == NEVER_RUN || t == LEFT_AT_THREE
    ensures Shaped(MINTING) && SetFirst(MINTING_OPS, MINTING, t, [Piece([], x)], 1).1
    ensures Started(MINTING_OPS, MINTING, t, [Piece([], x)]) == At(Some([Piece([], x)]), None, None, t.bindings)
  {
    hide Shaped;
    MintingShape();
    assert MINTING.nodes[0].facts[0] == [];
    assert ResolveAll(MINTING_OPS.solve, [], [], t.bindings) == (t.bindings, true);
    assert Readied(MINTING, t.values) == [None, None, None];
    assert [None, None, None][0 := Some([Piece([], x)])] == [Some([Piece([], x)]), None, None];
    assert SetFirst(MINTING_OPS, MINTING, t, [Piece([], x)], 0) == (t, true);
  }

  lemma ReadsPiece(values: seq<Option<seq<Piece>>>, i: Outlet)
    ensures ReadAll(values, [i]) == if ReadOne(values, i).Some? then Some([ReadOne(values, i).value]) else None
  {
    assert [i][1..] == [] && ReadAll(values, []) == Some([]);
    if ReadOne(values, i).Some? {
      assert [ReadOne(values, i).value] + [] == [ReadOne(values, i).value];
    }
  }

  /** The source hands on what it is given. */
  lemma StepOne(b: Bindings, x: int)
    ensures var t := At(Some([Piece([], x)]), None, None, b);
            Step(MINTING_OPS, MINTING, t, 0) == (t, Running)
  {
    var t := At(Some([Piece([], x)]), None, None, b);
    assert ReadAll(t.values, []) == Some([]) && Dropped(t.values, []) == t.values;
    assert [0, 0, 0][0 := 0] == [0, 0, 0] && t.values[0 := Some([Piece([], x)])] == t.values;
    assert MINTING.nodes[0].facts == [[]] && MINTING.nodes[0].facts[1..] == [] && [Piece([], x)][1..] == [];
    assert ResolveAll(MINTING_OPS.solve, [], [], b) == (b, true);
    assert ResolveOutputs(MINTING_OPS, [], [], b) == (b, true);
  }

  /** The vector is made, and its length bound if nothing was. */
  lemma StepTwo(b: Bindings, x: int)
    ensures Step(MINTING_OPS, MINTING, At(Some([Piece([], x)]), None, None, b), 1)
            == (At(None, Some([Piece([x], x)]), None, Bound(b, x)), Running)
  {
    var t := At(Some([Piece([], x)]), None, None, b);
    ReadsPiece(t.values, Outlet(0, 0));
    assert MINTING.flushLists[1] == [0] && Dropped(t.values, [0]) == [None, None, None];
    assert [0, 0, 0][1 := 0] == [0, 0, 0];
    assert [None, None, None][1 := Some([Piece([x], x)])] == [None, Some([Piece([x], x)]), None];
    assert MINTING.nodes[1].facts == [[Sym(0)]] && [[Sym(0)]][1..] == [] && [Piece([x], x)][1..] == [];
    assert [Sym(0)][1..] == [] && [x][1..] == [];
    assert ResolveAll(MINTING_OPS.solve, [], [], Bound(b, x)) == (Bound(b, x), true);
    assert ResolveOutputs(MINTING_OPS, [], [], Bound(b, x)) == (Bound(b, x), true);
  }

  /** The symbol is read, whatever the length was. */
  lemma StepThree(b: Bindings, x: int)
    requires 0 in b
    ensures Step(MINTING_OPS, MINTING, At(None, Some([Piece([x], x)]), None, b), 2)
            == if x == 3 then (At(None, None, None, b), EvalFailed)
               else (At(None, None, Some([Piece([], b[0])]), b), Running)
  {
    var t := At(None, Some([Piece([x], x)]), None, b);
    ReadsPiece(t.values, Outlet(1, 0));
    assert MINTING.flushLists[2] == [1] && Dropped(t.values, [1]) == [None, None, None];
    assert [0, 0, 0][2 := 0] == [0, 0, 0];
    assert [None, None, None][2 := Some([Piece([], b[0])])] == [None, None, Some([Piece([], b[0])])];
    assert MINTING.symbols <= b.Keys;
  }

  lemma StepsOnPieces(b: Bindings, x: int)
    ensures Shaped(MINTING)
    ensures Steps(MINTING_OPS, MINTING, At(Some([Piece([], x)]), None, None, b), 3)
            == if x == 3 then (At(None, None, None, Bound(b, x)), EvalFailed)
               else (At(None, None, Some([Piece([], Bound(b, x)[0])]), Bound(b, x)), Running)
  {
    hide Step, Shaped;
    MintingShape();
    var t := At(Some([Piece([], x)]), None, None, b);
    StepOne(b, x);
    StepTwo(b, x);
    StepThree(Bound(b, x), x);
    assert Steps(MINTING_OPS, MINTING, t, 0) == (t, Running);
    assert Steps(MINTING_OPS, MINTING, t, 1) == (t, Running);
    assert Steps(MINTING_OPS, MINTING, t, 2) == (At(None, Some([Piece([x], x)]), None, Bound(b, x)), Running);
  }

  lemma MintingTurn(t: TurnState<Piece, int>, x: int)
    requires t == NEVER_RUN || t == LEFT_AT_THREE
    ensures Shaped(MINTING)
    ensures var ran := Ran(MINTING_OPS, MINTING, t, [Piece([], x)]);
            && ran.1 == (if x == 3 then None else Some([Piece([], Bound(t.bindings, x)[0])]))
            && (x == 3 ==> ran.0 == LEFT_AT_THREE)
    ensures Ended(MINTING_OPS, MINTING, t, [Piece([], x)]).bindings == Bound(t.bindings, x)
  {
    hide Steps, SetFirst, Shaped, Readied;
    MintingShape();
    Sets(t, x);
    StepsOnPieces(t.bindings, x);
    var start := At(Some([Piece([], x)]), None, None, t.bindings);
    assert |MINTING.order| == 3 && |MINTING.inputs| == 1 && Bound(map[], 3) == Bound(map[0 := 3], x) == map[0 := 3];
    assert Ended(MINTING_OPS, MINTING, t, [Piece([], x)]) == Steps(MINTING_OPS, MINTING, start, 3).0;
    ReadsPiece([None, None, Some([Piece([], Bound(t.bindings, x)[0])])], Outlet(2, 0));
  }

  /** Well built, sealed, its dimensions bare: a turn on 3 binds the symbol, fails, and
      leaves it bound. The next turn, whatever its input, answers 3 where a fresh state
      answers the length it made: its vector is as long as it should be, but nobody looks at
      the length, since no symbol is left to bind. */
  lemma FailureMisreads(x: int)
    requires x != 3
    ensures WellBuilt(MINTING) && Shaped(MINTING) && Sealed(MINTING_OPS, MINTING) && Provided(MINTING_OPS, MINTING)
    ensures Ran(MINTING_OPS, MINTING, NEVER_RUN, [Piece([], 3)]) == (LEFT_AT_THREE, None)
    ensures Ran(MINTING_OPS, MINTING, NEVER_RUN, [Piece([], x)]).1 == Some([Piece([], x)])
    ensures Ran(MINTING_OPS, MINTING, LEFT_AT_THREE, [Piece([], x)]).1 == Some([Piece([], 3)])
    ensures !NeededAgree(MINTING_OPS, MINTING, LEFT_AT_THREE.bindings,
                         Ended(MINTING_OPS, MINTING, NEVER_RUN, [Piece([], x)]).bindings)
  {
    hide Ran, Ended, WellBuilt, Shaped, Sealed, Provided, Named, PlanLegible, Arity, Ranked, ReadsOnly;
    MintingIsLawful();
    MintingTurn(NEVER_RUN, 3);
    MintingTurn(NEVER_RUN, x);
    MintingTurn(LEFT_AT_THREE, x);
    assert MINTING.order[2] == 2 && 0 in NeedsOf(2);
  }
}
