/** The orderings a plan derives from symbols: a node mentioning a symbol comes after the
    node that mints it. */
module SymbolDeps {
  import opened Outcomes
  import opened Outlets
  import opened Symbols

  /** The nodes a node reads, the symbols of its output shapes, whether its op mints
      symbols as it runs, and the symbols it mentions, in their order. */
  datatype DepNode = DepNode(inputs: seq<nat>, shape: set<Symbol>, mints: bool, mentions: seq<Symbol>)

  predicate Closed(nodes: seq<DepNode>) {
    forall n | 0 <= n < |nodes| :: InRange(nodes[n].inputs, |nodes|)
  }

  // ---- Paths along tensor edges, and one more edge ----

  /** `to` comes directly before `from`: it is an input, or the extra edge says so. */
  predicate Edges(nodes: seq<DepNode>, extra: set<Edge>, from: nat, to: nat) {
    from < |nodes| && (to in nodes[from].inputs || (from, to) in extra)
  }

  predicate IsPath(nodes: seq<DepNode>, extra: set<Edge>, p: seq<nat>) {
    |p| >= 2 && forall k | 0 <= k < |p| - 1 :: Edges(nodes, extra, p[k], p[k + 1])
  }

  ghost predicate PathFrom(nodes: seq<DepNode>, extra: set<Edge>, p: seq<nat>, from: nat, to: nat) {
    IsPath(nodes, extra, p) && p[0] == from && p[|p| - 1] == to
  }

  /** `to` is computed before `from` can be, through one edge or more. */
  ghost predicate Before(nodes: seq<DepNode>, extra: set<Edge>, from: nat, to: nat) {
    exists p :: PathFrom(nodes, extra, p, from, to)
  }

  lemma BeforeDirectly(nodes: seq<DepNode>, extra: set<Edge>, from: nat, to: nat)
    requires Edges(nodes, extra, from, to)
    ensures Before(nodes, extra, from, to)
  {
    assert PathFrom(nodes, extra, [from, to], from, to);
  }

  lemma BeforeThrough(nodes: seq<DepNode>, extra: set<Edge>, from: nat, mid: nat, to: nat)
    requires Before(nodes, extra, from, mid) && Before(nodes, extra, mid, to)
    ensures Before(nodes, extra, from, to)
  {
    var p :| PathFrom(nodes, extra, p, from, mid);
    var q :| PathFrom(nodes, extra, q, mid, to);
    var r := p + q[1..];
    forall k | 0 <= k < |r| - 1
      ensures Edges(nodes, extra, r[k], r[k + 1])
    {
      if k < |p| - 1 {
        assert r[k] == p[k] && r[k + 1] == p[k + 1];
      } else {
        assert r[k] == q[k - (|p| - 1)] && r[k + 1] == q[k + 1 - (|p| - 1)];
      }
    }
    assert PathFrom(nodes, extra, r, from, to);
  }

  /** A set closed under inputs holds everything before what it holds. */
  lemma {:induction false} ClosedHolds(nodes: seq<DepNode>, held: set<nat>, p: seq<nat>)
    requires IsPath(nodes, {}, p) && p[0] < |nodes|
    requires forall i | i in nodes[p[0]].inputs :: i in held
    requires forall n | n in held && n < |nodes| :: forall i | i in nodes[n].inputs :: i in held
    ensures p[|p| - 1] in held
    decreases |p|
  {
    assert Edges(nodes, {}, p[0], p[0 + 1]);
    if |p| > 2 {
      var rest := p[1..];
      forall k | 0 <= k < |rest| - 1
        ensures Edges(nodes, {}, rest[k], rest[k + 1])
      {
        assert Edges(nodes, {}, p[k + 1], p[k + 1 + 1]);
      }
      assert Edges(nodes, {}, p[1], p[1 + 1]);
      ClosedHolds(nodes, held, rest);
    }
  }

  /** The worklist over a definer's inputs finds everything before it, and stops. */
  method Ancestors(nodes: seq<DepNode>, d: nat) returns (found: set<nat>)
    requires Closed(nodes) && d < |nodes|
    ensures forall n: nat :: n in found <==> Before(nodes, {}, d, n)
  {
    var stack := nodes[d].inputs;
    found := {};
    ghost var all := Below(|nodes|);
    forall i: nat | i in stack
      ensures Before(nodes, {}, d, i)
    {
      BeforeDirectly(nodes, {}, d, i);
    }
    while stack != []
      invariant forall n: nat | n in stack :: n < |nodes| && Before(nodes, {}, d, n)
      invariant found <= all && forall n: nat | n in found :: Before(nodes, {}, d, n)
      invariant forall i | i in nodes[d].inputs :: i in found || i in stack
      invariant forall n | n in found :: forall i | i in nodes[n].inputs :: i in found || i in stack
      decreases all - found, |stack|
    {
      var n := stack[|stack| - 1];
      ghost var was := stack;
      stack := stack[..|stack| - 1];
      assert forall i | i in was :: i == n || i in stack;
      if n !in found {
        forall i: nat | i in nodes[n].inputs
          ensures Before(nodes, {}, d, i)
        {
          BeforeDirectly(nodes, {}, n, i);
          BeforeThrough(nodes, {}, d, n, i);
        }
        assert n in all - found;
        found := found + {n};
        stack := stack + nodes[n].inputs;
      }
    }
    forall n: nat | Before(nodes, {}, d, n)
      ensures n in found
    {
      var p :| PathFrom(nodes, {}, p, d, n);
      ClosedHolds(nodes, found, p);
    }
  }

  // ---- Which node defines a symbol ----

  /** Node `ids[k]` has the symbol in a shape, and mints it if it must. */
  predicate Has(nodes: seq<DepNode>, ids: seq<nat>, mintsOnly: bool, sym: Symbol, k: nat) {
    k < |ids| && ids[k] < |nodes| && sym in nodes[ids[k]].shape && (mintsOnly ==> nodes[ids[k]].mints)
  }

  /** It is the first of them. */
  predicate FirstToHave(nodes: seq<DepNode>, ids: seq<nat>, mintsOnly: bool, sym: Symbol, k: nat) {
    Has(nodes, ids, mintsOnly, sym, k) && forall j | 0 <= j < k :: !Has(nodes, ids, mintsOnly, sym, j)
  }

  /** `d` defines the symbol: the first model input with it in its shape; and if there is none
      the first node, in dataflow order, that mints it. */
  ghost predicate Defines(nodes: seq<DepNode>, inputs: seq<nat>, order: seq<nat>, sym: Symbol, d: nat) {
    || (exists k: nat :: FirstToHave(nodes, inputs, false, sym, k) && inputs[k] == d)
    || ((forall k: nat :: !Has(nodes, inputs, false, sym, k))
        && exists k: nat :: FirstToHave(nodes, order, true, sym, k) && order[k] == d)
  }

  /** No model input has it, and no node of the order mints it. */
  ghost predicate Unclaimed(nodes: seq<DepNode>, inputs: seq<nat>, order: seq<nat>, sym: Symbol) {
    (forall k: nat :: !Has(nodes, inputs, false, sym, k)) && forall k: nat :: !Has(nodes, order, true, sym, k)
  }

  /** The first of the nodes, in their order, to have the symbol in a shape. */
  function FirstWith(nodes: seq<DepNode>, ids: seq<nat>, mintsOnly: bool, sym: Symbol): Option<nat>
    requires InRange(ids, |nodes|)
  {
    if ids == [] then None
    else
      var before := FirstWith(nodes, ids[..|ids| - 1], mintsOnly, sym);
      var id := ids[|ids| - 1];
      if before.Some? then before
      else if (mintsOnly ==> nodes[id].mints) && sym in nodes[id].shape then Some(id) else None
  }

  /** Model inputs claim their symbols first; then the ops that mint, in dataflow order. */
  function Definer(nodes: seq<DepNode>, inputs: seq<nat>, order: seq<nat>, sym: Symbol): Option<nat>
    requires InRange(inputs, |nodes|) && InRange(order, |nodes|)
  {
    var given := FirstWith(nodes, inputs, false, sym);
    if given.Some? then given else FirstWith(nodes, order, true, sym)
  }

  lemma {:induction false} FirstWithIs(nodes: seq<DepNode>, ids: seq<nat>, mintsOnly: bool, sym: Symbol)
    requires InRange(ids, |nodes|)
    ensures var r := FirstWith(nodes, ids, mintsOnly, sym);
            if r.Some? then exists k: nat :: FirstToHave(nodes, ids, mintsOnly, sym, k) && ids[k] == r.value
            else forall k: nat :: !Has(nodes, ids, mintsOnly, sym, k)
  {
    if ids != [] {
      var last := |ids| - 1;
      FirstWithIs(nodes, ids[..last], mintsOnly, sym);
      var before := FirstWith(nodes, ids[..last], mintsOnly, sym);
      forall k: nat
        ensures Has(nodes, ids, mintsOnly, sym, k) <==> (if k == last then Has(nodes, ids, mintsOnly, sym, last)
                                                         else Has(nodes, ids[..last], mintsOnly, sym, k))
      {}
      if before.Some? {
        var k: nat :| FirstToHave(nodes, ids[..last], mintsOnly, sym, k) && ids[..last][k] == before.value;
        assert FirstToHave(nodes, ids, mintsOnly, sym, k);
      } else if Has(nodes, ids, mintsOnly, sym, last) {
        assert FirstToHave(nodes, ids, mintsOnly, sym, last);
      }
    }
  }

  lemma OneIsFirst(nodes: seq<DepNode>, ids: seq<nat>, mintsOnly: bool, sym: Symbol, j: nat, k: nat)
    requires FirstToHave(nodes, ids, mintsOnly, sym, j) && FirstToHave(nodes, ids, mintsOnly, sym, k)
    ensures j == k
  {}

  lemma DefinerIs(nodes: seq<DepNode>, inputs: seq<nat>, order: seq<nat>, sym: Symbol)
    requires InRange(inputs, |nodes|) && InRange(order, |nodes|)
    ensures forall d: nat :: Definer(nodes, inputs, order, sym) == Some(d) <==> Defines(nodes, inputs, order, sym, d)
    ensures Definer(nodes, inputs, order, sym).None? <==> Unclaimed(nodes, inputs, order, sym)
  {
    hide Has;
    FirstWithIs(nodes, inputs, false, sym);
    FirstWithIs(nodes, order, true, sym);
    forall j: nat, k: nat | FirstToHave(nodes, inputs, false, sym, j) && FirstToHave(nodes, inputs, false, sym, k)
      ensures j == k
    {
      OneIsFirst(nodes, inputs, false, sym, j, k);
    }
    forall j: nat, k: nat | FirstToHave(nodes, order, true, sym, j) && FirstToHave(nodes, order, true, sym, k)
      ensures j == k
    {
      OneIsFirst(nodes, order, true, sym, j, k);
    }
  }

  method DefinerMap(nodes: seq<DepNode>, inputs: seq<nat>, order: seq<nat>) returns (definer: map<Symbol, nat>)
    requires InRange(inputs, |nodes|) && InRange(order, |nodes|)
    ensures forall sym: Symbol, d: nat :: sym in definer && definer[sym] == d <==> Defines(nodes, inputs, order, sym, d)
    ensures forall sym: Symbol :: sym !in definer <==> Unclaimed(nodes, inputs, order, sym)
  {
    definer := map[];
    var k := 0;
    while k < |inputs|
      invariant 0 <= k <= |inputs|
      invariant forall sym: Symbol ::
        (if sym in definer then Some(definer[sym]) else None) == FirstWith(nodes, inputs[..k], false, sym)
    {
      assert inputs[..k + 1][..k] == inputs[..k];
      definer := Claim(definer, nodes[inputs[k]].shape, inputs[k]);
      k := k + 1;
    }
    assert inputs[..k] == inputs;
    k := 0;
    while k < |order|
      invariant 0 <= k <= |order|
      invariant forall sym: Symbol :: (if sym in definer then Some(definer[sym]) else None) == Definer(nodes, inputs, order[..k], sym)
    {
      assert order[..k + 1][..k] == order[..k];
      if nodes[order[k]].mints {
        definer := Claim(definer, nodes[order[k]].shape, order[k]);
      }
      k := k + 1;
    }
    assert order[..k] == order;
    forall sym: Symbol
      ensures forall d: nat :: sym in definer && definer[sym] == d <==> Defines(nodes, inputs, order, sym, d)
      ensures sym !in definer <==> Unclaimed(nodes, inputs, order, sym)
    {
      DefinerIs(nodes, inputs, order, sym);
    }
  }

  /** `entry(sym).or_insert(id)` for each symbol. */
  function Claim(definer: map<Symbol, nat>, syms: set<Symbol>, id: nat): map<Symbol, nat> {
    (map sym | sym in syms :: id) + definer
  }

  // ---- The derived pairs ----

  /** Some mentioned symbol of `id` is defined by `d`, another node, not a model input. */
  ghost predicate Waits(nodes: seq<DepNode>, inputs: seq<nat>, order: seq<nat>, id: nat, d: nat)
    requires InRange(inputs, |nodes|) && InRange(order, |nodes|)
  {
    && id in order && d != id && d !in inputs
    && exists sym: Symbol :: sym in nodes[id].mentions && Defines(nodes, inputs, order, sym, d)
  }

  /** The pair is to be derived: nothing orders it yet, and the definer does not itself
      wait for the consumer along tensor edges. */
  ghost predicate Derivable(nodes: seq<DepNode>, inputs: seq<nat>, order: seq<nat>, deps: set<Edge>, id: nat, d: nat)
    requires InRange(inputs, |nodes|) && InRange(order, |nodes|)
  {
    && Waits(nodes, inputs, order, id, d) && Open(nodes, deps, id, d)
  }

  ghost predicate Open(nodes: seq<DepNode>, deps: set<Edge>, id: nat, d: nat)
    requires id < |nodes|
  {
    (id, d) !in deps && d !in nodes[id].inputs && !Before(nodes, {}, d, id)
  }

  /** The pairs the first `j` mentions of `id` ask about. */
  function AskedBy(definer: map<Symbol, nat>, inputs: seq<nat>, id: nat, mentions: seq<Symbol>, j: nat): set<Edge>
    requires j <= |mentions|
  {
    if j == 0 then {}
    else
      var sym := mentions[j - 1];
      AskedBy(definer, inputs, id, mentions, j - 1)
      + if sym in definer && definer[sym] != id && definer[sym] !in inputs then {(id, definer[sym])} else {}
  }

  function Asked(definer: map<Symbol, nat>, nodes: seq<DepNode>, inputs: seq<nat>, order: seq<nat>, k: nat): set<Edge>
    requires k <= |order| && InRange(order, |nodes|)
  {
    if k == 0 then {}
    else
      assert order[k - 1] in order;
      Asked(definer, nodes, inputs, order, k - 1)
      + AskedBy(definer, inputs, order[k - 1], nodes[order[k - 1]].mentions, |nodes[order[k - 1]].mentions|)
  }

  ghost predicate Known(nodes: seq<DepNode>, ancestors: map<nat, set<nat>>) {
    forall d: nat, n: nat | d in ancestors :: n in ancestors[d] <==> Before(nodes, {}, d, n)
  }

  /** What has been derived: the open pairs asked about, and nothing else. */
  ghost predicate DerivedSo(nodes: seq<DepNode>, deps: set<Edge>, asked: set<Edge>, seen: set<Edge>, derived: seq<Edge>) {
    && deps <= seen && seen <= deps + asked && asked <= seen
    && (forall e | e in asked :: e.0 < |nodes| && (e in derived <==> Open(nodes, deps, e.0, e.1)))
    && (forall e | e in derived :: e in asked)
    && forall x, y | 0 <= x < y < |derived| :: derived[x] != derived[y]
  }

  /** One pair a mention asks about. */
  method Consider(nodes: seq<DepNode>, seen0: set<Edge>, ancestors0: map<nat, set<nat>>, derived0: seq<Edge>, id: nat, d: nat,
                  ghost deps: set<Edge>, ghost asked: set<Edge>)
    returns (seen: set<Edge>, ancestors: map<nat, set<nat>>, derived: seq<Edge>)
    requires Closed(nodes) && id < |nodes| && d < |nodes| && Known(nodes, ancestors0)
    requires DerivedSo(nodes, deps, asked, seen0, derived0)
    ensures Known(nodes, ancestors) && DerivedSo(nodes, deps, asked + {(id, d)}, seen, derived)
  {
    seen, ancestors, derived := seen0, ancestors0, derived0;
    if (id, d) in seen {
      return;
    }
    seen := seen + {(id, d)};
    if d in nodes[id].inputs {
      return;
    }
    if d !in ancestors {
      var found := Ancestors(nodes, d);
      ancestors := ancestors[d := found];
    }
    if id !in ancestors[d] {
      derived := derived + [(id, d)];
    }
  }

  /** Every mention of one node. */
  method DeriveFor(nodes: seq<DepNode>, inputs: seq<nat>, definer: map<Symbol, nat>, seen0: set<Edge>,
                   ancestors0: map<nat, set<nat>>, derived0: seq<Edge>, id: nat, ghost deps: set<Edge>, ghost asked: set<Edge>)
    returns (seen: set<Edge>, ancestors: map<nat, set<nat>>, derived: seq<Edge>)
    requires Closed(nodes) && id < |nodes| && Known(nodes, ancestors0) && forall sym | sym in definer :: definer[sym] < |nodes|
    requires DerivedSo(nodes, deps, asked, seen0, derived0)
    ensures Known(nodes, ancestors)
    ensures var mentions := nodes[id].mentions;
            DerivedSo(nodes, deps, asked + AskedBy(definer, inputs, id, mentions, |mentions|), seen, derived)
  {
    hide DerivedSo, Known;
    seen, ancestors, derived := seen0, ancestors0, derived0;
    var mentions := nodes[id].mentions;
    var j := 0;
    assert asked + AskedBy(definer, inputs, id, mentions, 0) == asked;
    while j < |mentions|
      invariant 0 <= j <= |mentions| && Known(nodes, ancestors)
      invariant DerivedSo(nodes, deps, asked + AskedBy(definer, inputs, id, mentions, j), seen, derived)
    {
      var sym := mentions[j];
      ghost var was := asked + AskedBy(definer, inputs, id, mentions, j);
      ghost var now := asked + AskedBy(definer, inputs, id, mentions, j + 1);
      if sym in definer && definer[sym] != id && definer[sym] !in inputs {
        seen, ancestors, derived := Consider(nodes, seen, ancestors, derived, id, definer[sym], deps, was);
        assert now == was + {(id, definer[sym])};
      } else {
        assert now == was;
      }
      j := j + 1;
    }
  }

  /** `symbol_deps`: exactly the derivable pairs, each once. */
  method SymbolDeps(nodes: seq<DepNode>, inputs: seq<nat>, order: seq<nat>, deps: seq<Edge>) returns (derived: seq<Edge>)
    requires Closed(nodes) && InRange(inputs, |nodes|) && InRange(order, |nodes|)
    ensures forall id: nat, d: nat :: (id, d) in derived <==>
      Derivable(nodes, inputs, order, (set e: Edge | e in deps), id, d)
    ensures forall x, y | 0 <= x < y < |derived| :: derived[x] != derived[y]
  {
    var definer := DefinerMap(nodes, inputs, order);
    DefinersAreNodes(nodes, inputs, order, definer);
    var given := set e: Edge | e in deps;
    var seen, ancestors: map<nat, set<nat>> := given, map[];
    derived := [];
    var k := 0;
    while k < |order|
      invariant 0 <= k <= |order| && Known(nodes, ancestors)
      invariant DerivedSo(nodes, given, Asked(definer, nodes, inputs, order, k), seen, derived)
    {
      seen, ancestors, derived := DeriveFor(nodes, inputs, definer, seen, ancestors, derived, order[k], given,
                                            Asked(definer, nodes, inputs, order, k));
      k := k + 1;
    }
    DerivedExactly(nodes, inputs, order, definer, given, seen, derived);
  }

  lemma DerivedExactly(nodes: seq<DepNode>, inputs: seq<nat>, order: seq<nat>, definer: map<Symbol, nat>, given: set<Edge>,
                       seen: set<Edge>, derived: seq<Edge>)
    requires InRange(inputs, |nodes|) && InRange(order, |nodes|)
    requires forall sym: Symbol, d: nat :: sym in definer && definer[sym] == d <==> Defines(nodes, inputs, order, sym, d)
    requires DerivedSo(nodes, given, Asked(definer, nodes, inputs, order, |order|), seen, derived)
    ensures forall id: nat, d: nat :: (id, d) in derived <==> Derivable(nodes, inputs, order, given, id, d)
  {
    hide Waits, Open, Asked;
    AskedIsWaiting(definer, nodes, inputs, order);
    var asked := Asked(definer, nodes, inputs, order, |order|);
    forall id: nat, d: nat
      ensures (id, d) in derived <==> Derivable(nodes, inputs, order, given, id, d)
    {
      assert (id, d) in asked <==> Waits(nodes, inputs, order, id, d);
      if (id, d) in asked {
        assert (id, d).0 < |nodes|;
      }
    }
  }

  lemma DefinersAreNodes(nodes: seq<DepNode>, inputs: seq<nat>, order: seq<nat>, definer: map<Symbol, nat>)
    requires InRange(inputs, |nodes|) && InRange(order, |nodes|)
    requires forall sym: Symbol, d: nat :: sym in definer && definer[sym] == d <==> Defines(nodes, inputs, order, sym, d)
    ensures forall sym | sym in definer :: definer[sym] < |nodes|
  {
    forall sym | sym in definer
      ensures definer[sym] < |nodes|
    {
      assert Defines(nodes, inputs, order, sym, definer[sym]);
    }
  }

  lemma {:induction false} AskedByExactly(definer: map<Symbol, nat>, inputs: seq<nat>, id: nat, mentions: seq<Symbol>,
                                          j: nat, e: Edge)
    requires j <= |mentions|
    ensures e in AskedBy(definer, inputs, id, mentions, j) <==>
      e.0 == id && e.1 != id && e.1 !in inputs
      && exists x :: 0 <= x < j && mentions[x] in definer && definer[mentions[x]] == e.1
  {
    if j > 0 {
      AskedByExactly(definer, inputs, id, mentions, j - 1, e);
    }
  }

  lemma {:induction false} AskedExactly(definer: map<Symbol, nat>, nodes: seq<DepNode>, inputs: seq<nat>, order: seq<nat>,
                                        k: nat, e: Edge)
    requires k <= |order| && InRange(order, |nodes|)
    ensures e in Asked(definer, nodes, inputs, order, k) <==>
      e.0 in order[..k] && e.1 != e.0 && e.1 !in inputs
      && exists x :: 0 <= x < |nodes[e.0].mentions| && nodes[e.0].mentions[x] in definer
                  && definer[nodes[e.0].mentions[x]] == e.1
  {
    if k > 0 {
      AskedExactly(definer, nodes, inputs, order, k - 1, e);
      var id := order[k - 1];
      assert id in order && order[..k] == order[..k - 1] + [id];
      AskedByExactly(definer, inputs, id, nodes[id].mentions, |nodes[id].mentions|, e);
    }
  }

  lemma AskedIsWaiting(definer: map<Symbol, nat>, nodes: seq<DepNode>, inputs: seq<nat>, order: seq<nat>)
    requires InRange(inputs, |nodes|) && InRange(order, |nodes|)
    requires forall sym: Symbol, d: nat :: sym in definer && definer[sym] == d <==> Defines(nodes, inputs, order, sym, d)
    ensures forall id: nat, d: nat :: (id, d) in Asked(definer, nodes, inputs, order, |order|) <==> Waits(nodes, inputs, order, id, d)
  {
    hide Defines;
    assert order[..|order|] == order;
    forall id: nat, d: nat
      ensures (id, d) in Asked(definer, nodes, inputs, order, |order|) <==> Waits(nodes, inputs, order, id, d)
    {
      AskedExactly(definer, nodes, inputs, order, |order|, (id, d));
      if (id, d) in Asked(definer, nodes, inputs, order, |order|) {
        var x :| 0 <= x < |nodes[id].mentions| && nodes[id].mentions[x] in definer && definer[nodes[id].mentions[x]] == d;
        assert Defines(nodes, inputs, order, nodes[id].mentions[x], d);
      }
      if Waits(nodes, inputs, order, id, d) {
        var sym :| sym in nodes[id].mentions && Defines(nodes, inputs, order, sym, d);
        var x :| 0 <= x < |nodes[id].mentions| && nodes[id].mentions[x] == sym;
        assert sym in definer && definer[sym] == d;
      }
    }
  }

  // ---- No derived pair closes a cycle ----

  /** With one more edge, whatever comes before was before, or comes through the edge. */
  lemma {:induction false} ThroughTheEdge(nodes: seq<DepNode>, id: nat, d: nat, p: seq<nat>)
    requires IsPath(nodes, {(id, d)}, p)
    ensures var (from, to) := (p[0], p[|p| - 1]);
            || Before(nodes, {}, from, to)
            || ((from == id || Before(nodes, {}, from, id)) && (to == d || Before(nodes, {}, d, to)))
    decreases |p|
  {
    var from, next, to := p[0], p[1], p[|p| - 1];
    assert Edges(nodes, {(id, d)}, p[0], p[0 + 1]);
    if next in nodes[from].inputs {
      BeforeDirectly(nodes, {}, from, next);
    }
    if |p| > 2 {
      var rest := p[1..];
      forall k | 0 <= k < |rest| - 1
        ensures Edges(nodes, {(id, d)}, rest[k], rest[k + 1])
      {
        assert Edges(nodes, {(id, d)}, p[k + 1], p[k + 1 + 1]);
      }
      ThroughTheEdge(nodes, id, d, rest);
      if next in nodes[from].inputs {
        if Before(nodes, {}, next, to) {
          BeforeThrough(nodes, {}, from, next, to);
        } else if next != id {
          BeforeThrough(nodes, {}, from, next, id);
        }
      }
    }
  }

  /** A derived pair added to the tensor edges leaves them acyclic. */
  lemma NoCycle(nodes: seq<DepNode>, inputs: seq<nat>, order: seq<nat>, deps: set<Edge>, id: nat, d: nat)
    requires InRange(inputs, |nodes|) && InRange(order, |nodes|)
    requires forall n: nat :: !Before(nodes, {}, n, n)
    requires Derivable(nodes, inputs, order, deps, id, d)
    ensures forall n: nat :: !Before(nodes, {(id, d)}, n, n)
  {
    forall n: nat
      ensures !Before(nodes, {(id, d)}, n, n)
    {
      if Before(nodes, {(id, d)}, n, n) {
        var p :| PathFrom(nodes, {(id, d)}, p, n, n);
        ThroughTheEdge(nodes, id, d, p);
        if n != d && n != id {
          BeforeThrough(nodes, {}, d, n, id);
        }
        assert false;
      }
    }
  }

  /** And a pair the definer's own inputs wait for would close one: the check leaves out
      no pair it could keep. */
  lemma AncestorClosesCycle(nodes: seq<DepNode>, id: nat, d: nat)
    requires id < |nodes| && Before(nodes, {}, d, id)
    ensures Before(nodes, {(id, d)}, id, id)
  {
    var p :| PathFrom(nodes, {}, p, d, id);
    forall k | 0 <= k < |p| - 1
      ensures Edges(nodes, {(id, d)}, p[k], p[k + 1])
    {
      assert Edges(nodes, {}, p[k], p[k + 1]);
    }
    assert PathFrom(nodes, {(id, d)}, p, d, id);
    BeforeDirectly(nodes, {(id, d)}, id, d);
    BeforeThrough(nodes, {(id, d)}, id, d, id);
  }
}
