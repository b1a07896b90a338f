/** Symbolic dimensions, and how the extents tensors arrive with bind their symbols. */
module Symbols {
  import opened Outcomes

  type Symbol = nat
  type Bindings = map<Symbol, int>

  /** An expression over symbols: any operator folds once its operands are values. */
  datatype TDim = Val(value: int) | Sym(sym: Symbol) | Apply(fold: seq<int> -> int, args: seq<TDim>)

  function SymbolsIn(e: TDim): set<Symbol> {
    match e
    case Val(_) => {}
    case Sym(sym) => {sym}
    case Apply(_, args) => SymbolsInAll(args)
  }

  function SymbolsInAll(es: seq<TDim>): set<Symbol> {
    if es == [] then {} else SymbolsIn(es[0]) + SymbolsInAll(es[1..])
  }

  /** Some symbol of the expression, if it has any. */
  function FirstSymbol(e: TDim): (r: Option<Symbol>)
    ensures r.None? ==> SymbolsIn(e) == {}
    ensures r.Some? ==> r.value in SymbolsIn(e)
  {
    match e
    case Val(_) => None
    case Sym(sym) => Some(sym)
    case Apply(_, args) => FirstOfAll(args)
  }

  function FirstOfAll(es: seq<TDim>): (r: Option<Symbol>)
    ensures r.None? ==> SymbolsInAll(es) == {}
    ensures r.Some? ==> r.value in SymbolsInAll(es)
  {
    if es == [] then None
    else var first := FirstSymbol(es[0]); if first.Some? then first else FirstOfAll(es[1..])
  }

  function ValuesOf(es: seq<TDim>): Option<seq<int>> {
    if es == [] then Some([])
    else
      match (es[0], ValuesOf(es[1..]))
      case (Val(v), Some(rest)) => Some([v] + rest)
      case _ => None
  }

  /** `TDim::eval`: the bound symbols replaced, and what can be folded, folded. */
  function Substituted(e: TDim, b: Bindings): TDim {
    match e
    case Val(_) => e
    case Sym(sym) => if sym in b then Val(b[sym]) else e
    case Apply(fold, args) =>
      var done := AllSubstituted(args, b);
      match ValuesOf(done) case Some(vs) => Val(fold(vs)) case None => Apply(fold, done)
  }

  function AllSubstituted(es: seq<TDim>, b: Bindings): seq<TDim> {
    if es == [] then [] else [Substituted(es[0], b)] + AllSubstituted(es[1..], b)
  }

  /** What a dimension is worth once its symbols are bound. */
  function Worth(e: TDim, b: Bindings): int
    requires SymbolsIn(e) <= b.Keys
  {
    match e
    case Val(v) => v
    case Sym(sym) => b[sym]
    case Apply(fold, args) => fold(AllWorth(args, b))
  }

  function AllWorth(es: seq<TDim>, b: Bindings): seq<int>
    requires SymbolsInAll(es) <= b.Keys
  {
    if es == [] then [] else [Worth(es[0], b)] + AllWorth(es[1..], b)
  }

  lemma {:induction false} SubstitutedIsWorth(e: TDim, b: Bindings)
    requires SymbolsIn(e) <= b.Keys
    ensures Substituted(e, b) == Val(Worth(e, b))
  {
    if e.Apply? {
      AllSubstitutedAreWorth(e.args, b);
    }
  }

  lemma {:induction false} AllSubstitutedAreWorth(es: seq<TDim>, b: Bindings)
    requires SymbolsInAll(es) <= b.Keys
    ensures ValuesOf(AllSubstituted(es, b)) == Some(AllWorth(es, b))
  {
    if es != [] {
      SubstitutedIsWorth(es[0], b);
      AllSubstitutedAreWorth(es[1..], b);
    }
  }

  /** Exactly the unbound symbols are left. */
  lemma {:induction false} SubstitutedSymbols(e: TDim, b: Bindings)
    ensures SymbolsIn(Substituted(e, b)) == SymbolsIn(e) - b.Keys
    ensures Substituted(e, b).Val? <==> SymbolsIn(e) <= b.Keys
  {
    if e.Apply? {
      AllSubstitutedSymbols(e.args, b);
    }
  }

  lemma {:induction false} AllSubstitutedSymbols(es: seq<TDim>, b: Bindings)
    ensures SymbolsInAll(AllSubstituted(es, b)) == SymbolsInAll(es) - b.Keys
    ensures ValuesOf(AllSubstituted(es, b)).Some? <==> SymbolsInAll(es) <= b.Keys
  {
    if es != [] {
      SubstitutedSymbols(es[0], b);
      AllSubstitutedSymbols(es[1..], b);
      assert AllSubstituted(es, b)[1..] == AllSubstituted(es[1..], b);
    }
  }

  /** And what is left is worth what the expression is, whatever else is bound later. */
  lemma {:induction false} SubstitutedMeansSame(e: TDim, b: Bindings, later: Bindings)
    requires Extends(later, b) && SymbolsIn(e) <= later.Keys
    ensures SymbolsIn(Substituted(e, b)) <= later.Keys && Worth(Substituted(e, b), later) == Worth(e, later)
  {
    SubstitutedSymbols(e, b);
    if e.Apply? {
      AllSubstitutedMeanSame(e.args, b, later);
      if SymbolsIn(e) <= b.Keys {
        AllSubstitutedAreWorth(e.args, b);
        AllWorthKept(e.args, b, later);
      } else {
        AllSubstitutedSymbols(e.args, b);
      }
    }
  }

  lemma {:induction false} AllSubstitutedMeanSame(es: seq<TDim>, b: Bindings, later: Bindings)
    requires Extends(later, b) && SymbolsInAll(es) <= later.Keys
    ensures SymbolsInAll(AllSubstituted(es, b)) <= later.Keys && AllWorth(AllSubstituted(es, b), later) == AllWorth(es, later)
  {
    AllSubstitutedSymbols(es, b);
    if es != [] {
      SubstitutedMeansSame(es[0], b, later);
      AllSubstitutedMeanSame(es[1..], b, later);
      assert AllSubstituted(es, b)[1..] == AllSubstituted(es[1..], b);
    }
  }

  /** `solve_for`: a symbol's value making the expression worth the extent, if found. */
  type Solver = (Symbol, TDim, int) -> Option<int>

  /** One dimension against one extent: the bindings after, and whether they agree. */
  function Resolve(solve: Solver, e: TDim, provided: int, b: Bindings): (Bindings, bool) {
    if e.Sym? && e.sym !in b then (b[e.sym := provided], true)
    else
      var expected := Substituted(e, b);
      if expected.Val? && expected.value != provided then (b, false)
      else if |SymbolsIn(expected)| == 1 then
        var sym := FirstSymbol(expected).value;
        var v := solve(sym, expected, provided);
        (if v.Some? then b[sym := v.value] else b, true)
      else (b, true)
  }

  /** A tensor's dimensions, in order, up to the first that disagrees. */
  function ResolveAll(solve: Solver, es: seq<TDim>, provided: seq<int>, b: Bindings): (Bindings, bool)
    decreases |es|
  {
    if es == [] || provided == [] then (b, true)
    else
      var (b', ok) := Resolve(solve, es[0], provided[0], b);
      if ok then ResolveAll(solve, es[1..], provided[1..], b') else (b', false)
  }

  ghost predicate Extends(later: Bindings, earlier: Bindings) {
    forall sym | sym in earlier :: sym in later && later[sym] == earlier[sym]
  }

  /** A bound symbol keeps its value, and a dimension whose symbols are all bound is
      let through exactly when it is worth the extent. */
  lemma ResolveKeepsBindings(solve: Solver, e: TDim, provided: int, b: Bindings)
    ensures Extends(Resolve(solve, e, provided, b).0, b)
    ensures SymbolsIn(e) <= b.Keys ==> Resolve(solve, e, provided, b) == (b, Worth(e, b) == provided)
  {
    SubstitutedSymbols(e, b);
    if SymbolsIn(e) <= b.Keys {
      SubstitutedIsWorth(e, b);
    }
  }

  /** `resolve`, case by case: a bare unbound symbol takes the extent; a dimension whose
      symbols are all bound is let through if it is worth the extent; where one symbol is left
      it takes the value the solver finds, if any; and where more are, nothing is said. */
  lemma ResolveExactly(solve: Solver, e: TDim, provided: int, b: Bindings)
    ensures var (r, left) := (Resolve(solve, e, provided, b), SymbolsIn(e) - b.Keys);
            && (e.Sym? && left != {} ==> r == (b[e.sym := provided], true))
            && (SymbolsIn(e) <= b.Keys ==> r == (b, Worth(e, b) == provided))
            && (forall sym | left == {sym} && !e.Sym? ::
                  var v := solve(sym, Substituted(e, b), provided);
                  r == (if v.Some? then b[sym := v.value] else b, true))
            && ((forall sym: Symbol :: left != {sym}) && left != {} ==> r == (b, true))
  {
    SubstitutedSymbols(e, b);
    var left := SymbolsIn(e) - b.Keys;
    if SymbolsIn(e) <= b.Keys {
      SubstitutedIsWorth(e, b);
      assert left == {};
    } else if e.Sym? {
    } else if |left| == 1 {
      var sym := FirstSymbol(Substituted(e, b)).value;
      OnlyOne(left, sym);
    } else {
      forall sym: Symbol
        ensures left != {sym}
      {
        assert |{sym}| == 1;
      }
    }
  }

  lemma OnlyOne(s: set<Symbol>, x: Symbol)
    requires |s| == 1 && x in s
    ensures s == {x}
  {
    assert |s - {x}| == 0;
  }

  lemma {:induction false} ResolveAllKeepsBindings(solve: Solver, es: seq<TDim>, provided: seq<int>, b: Bindings)
    ensures Extends(ResolveAll(solve, es, provided, b).0, b)
    decreases |es|
  {
    if es != [] && provided != [] {
      ResolveKeepsBindings(solve, es[0], provided[0], b);
      ResolveAllKeepsBindings(solve, es[1..], provided[1..], Resolve(solve, es[0], provided[0], b).0);
    }
  }

  /** Once a tensor went through, each of its dimensions whose symbols were bound before
      is worth the extent it came with. */
  lemma {:induction false} ResolvedAgrees(solve: Solver, es: seq<TDim>, provided: seq<int>, b: Bindings, k: nat)
    requires k < |es| && k < |provided| && SymbolsIn(es[k]) <= b.Keys
    requires ResolveAll(solve, es, provided, b).1
    ensures Worth(es[k], b) == provided[k]
    decreases |es|
  {
    ResolveKeepsBindings(solve, es[0], provided[0], b);
    if k > 0 {
      var b' := Resolve(solve, es[0], provided[0], b).0;
      ResolvedAgrees(solve, es[1..], provided[1..], b', k - 1);
      WorthKept(es[k], b, b');
    }
  }

  /** It is then worth that extent under the bindings the tensor leaves, which also bind
      every bare symbol among its dimensions to its extent. */
  lemma {:induction false} ResolvedBinds(solve: Solver, es: seq<TDim>, provided: seq<int>, b: Bindings, k: nat)
    requires k < |es| && k < |provided| && (es[k].Sym? || SymbolsIn(es[k]) <= b.Keys)
    requires ResolveAll(solve, es, provided, b).1
    ensures var after := ResolveAll(solve, es, provided, b).0;
            SymbolsIn(es[k]) <= after.Keys && Worth(es[k], after) == provided[k]
    decreases |es|
  {
    var b' := Resolve(solve, es[0], provided[0], b).0;
    ResolveKeepsBindings(solve, es[0], provided[0], b);
    if k == 0 {
      ResolveAllKeepsBindings(solve, es[1..], provided[1..], b');
      WorthKept(es[0], b', ResolveAll(solve, es[1..], provided[1..], b').0);
    } else {
      ResolvedBinds(solve, es[1..], provided[1..], b', k - 1);
    }
  }

  lemma {:induction false} WorthKept(e: TDim, b: Bindings, later: Bindings)
    requires SymbolsIn(e) <= b.Keys && Extends(later, b)
    ensures SymbolsIn(e) <= later.Keys && Worth(e, later) == Worth(e, b)
  {
    if e.Apply? {
      AllWorthKept(e.args, b, later);
    }
  }

  lemma {:induction false} AllWorthKept(es: seq<TDim>, b: Bindings, later: Bindings)
    requires SymbolsInAll(es) <= b.Keys && Extends(later, b)
    ensures SymbolsInAll(es) <= later.Keys && AllWorth(es, later) == AllWorth(es, b)
  {
    if es != [] {
      WorthKept(es[0], b, later);
      AllWorthKept(es[1..], b, later);
    }
  }

  ghost predicate IsWorth(e: TDim, b: Bindings, extent: int) {
    SymbolsIn(e) <= b.Keys && Worth(e, b) == extent
  }

  lemma StillWorth(e: TDim, b: Bindings, later: Bindings, extent: int)
    requires IsWorth(e, b, extent) && Extends(later, b)
    ensures IsWorth(e, later, extent)
  {
    WorthKept(e, b, later);
  }

  // ---- Dimensions that leave nothing to solve ----

  /** The tensor has the extents its dimensions are worth. */
  ghost predicate Fits(es: seq<TDim>, provided: seq<int>, b: Bindings) {
    |es| == |provided| && forall d | 0 <= d < |es| :: IsWorth(es[d], b, provided[d])
  }

  /** Each dimension is a bare symbol, or mentions only symbols known or mentioned before. */
  predicate Legible(es: seq<TDim>, known: set<Symbol>)
    decreases |es|
  {
    es == [] || ((es[0].Sym? || SymbolsIn(es[0]) <= known) && Legible(es[1..], known + SymbolsIn(es[0])))
  }

  lemma {:induction false} LegibleWiden(es: seq<TDim>, known: set<Symbol>, more: set<Symbol>)
    requires Legible(es, known) && known <= more
    ensures Legible(es, more)
    decreases |es|
  {
    if es != [] {
      LegibleWiden(es[1..], known + SymbolsIn(es[0]), more + SymbolsIn(es[0]));
    }
  }

  lemma ResolveLegible(solve: Solver, e: TDim, provided: int, b: Bindings)
    requires (e.Sym? || SymbolsIn(e) <= b.Keys) && Resolve(solve, e, provided, b).1
    ensures var after := Resolve(solve, e, provided, b).0;
            after.Keys == b.Keys + SymbolsIn(e) && IsWorth(e, after, provided) && Extends(after, b)
  {
    ResolveKeepsBindings(solve, e, provided, b);
  }

  /** Let through, such a tensor leaves just its symbols bound, and fits. */
  lemma {:induction false} LegibleResolves(solve: Solver, es: seq<TDim>, provided: seq<int>, b: Bindings)
    requires |es| == |provided| && Legible(es, b.Keys) && ResolveAll(solve, es, provided, b).1
    ensures var after := ResolveAll(solve, es, provided, b).0;
            after.Keys == b.Keys + SymbolsInAll(es) && Fits(es, provided, after) && Extends(after, b)
    decreases |es|
  {
    hide Resolve, IsWorth;
    if es != [] {
      var b' := Resolve(solve, es[0], provided[0], b).0;
      ResolveLegible(solve, es[0], provided[0], b);
      LegibleResolves(solve, es[1..], provided[1..], b');
      var after := ResolveAll(solve, es, provided, b).0;
      StillWorth(es[0], b', after, provided[0]);
      forall d | 0 <= d < |es|
        ensures IsWorth(es[d], after, provided[d])
      {
        assert d > 0 ==> es[d] == es[1..][d - 1] && provided[d] == provided[1..][d - 1];
      }
    }
  }

  lemma ResolveFitting(solve: Solver, e: TDim, provided: int, b: Bindings, later: Bindings)
    requires (e.Sym? || SymbolsIn(e) <= b.Keys) && Extends(later, b) && IsWorth(e, later, provided)
    ensures Resolve(solve, e, provided, b).1 && Extends(later, Resolve(solve, e, provided, b).0)
  {
    ResolveKeepsBindings(solve, e, provided, b);
    if SymbolsIn(e) <= b.Keys {
      WorthKept(e, b, later);
    }
  }

  /** And it is let through if some later bindings fit it. */
  lemma {:induction false} FittingResolves(solve: Solver, es: seq<TDim>, provided: seq<int>, b: Bindings, later: Bindings)
    requires Legible(es, b.Keys) && Extends(later, b) && Fits(es, provided, later)
    ensures ResolveAll(solve, es, provided, b).1 && Extends(later, ResolveAll(solve, es, provided, b).0)
    decreases |es|
  {
    hide Resolve, IsWorth, Extends;
    if es != [] {
      var b' := Resolve(solve, es[0], provided[0], b).0;
      ResolveFitting(solve, es[0], provided[0], b, later);
      ResolveLegible(solve, es[0], provided[0], b);
      forall d | 0 <= d < |es[1..]|
        ensures IsWorth(es[1..][d], later, provided[1..][d])
      {
        assert es[1..][d] == es[d + 1] && provided[1..][d] == provided[d + 1];
      }
      FittingResolves(solve, es[1..], provided[1..], b', later);
    }
  }

  // ---- With leftover bindings beside ----

  ghost predicate Compatible(a: Bindings, b: Bindings) {
    forall sym | sym in a && sym in b :: a[sym] == b[sym]
  }

  lemma ResolvedBeside(solve: Solver, e: TDim, provided: int, b: Bindings, left: Bindings)
    requires (e.Sym? || SymbolsIn(e) <= b.Keys) && Resolve(solve, e, provided, b).1
    ensures var (after, (beside, ok)) := (Resolve(solve, e, provided, b).0, Resolve(solve, e, provided, b + left));
            && (ok ==> beside == after + left)
            && (Compatible(after, left) ==> ok)
  {
    ResolveLegible(solve, e, provided, b);
    ResolveKeepsBindings(solve, e, provided, b);
    ResolveKeepsBindings(solve, e, provided, b + left);
    var after := Resolve(solve, e, provided, b).0;
    if SymbolsIn(e) <= b.Keys && Compatible(after, left) {
      assert Extends(b + left, b);
      WorthKept(e, b, b + left);
    }
  }

  /** A tensor let through fresh: with other bindings beside, it is let through where they
      agree on its symbols, and if it is, leaves what it does fresh, and those beside. */
  lemma {:induction false} AllResolvedBeside(solve: Solver, es: seq<TDim>, provided: seq<int>, b: Bindings, left: Bindings)
    requires |es| == |provided| && Legible(es, b.Keys) && ResolveAll(solve, es, provided, b).1
    ensures var (after, (beside, ok)) := (ResolveAll(solve, es, provided, b).0, ResolveAll(solve, es, provided, b + left));
            && (ok ==> beside == after + left)
            && (Compatible(after, left) ==> ok)
    decreases |es|
  {
    hide Resolve;
    if es != [] {
      var b' := Resolve(solve, es[0], provided[0], b).0;
      ResolveLegible(solve, es[0], provided[0], b);
      ResolvedBeside(solve, es[0], provided[0], b, left);
      AllResolvedBeside(solve, es[1..], provided[1..], b', left);
      LegibleResolves(solve, es[1..], provided[1..], b');
    }
  }
}
