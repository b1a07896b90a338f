/** The evaluation order: depth first from the outputs, on an explicit stack. */
module EvalOrders {
  import opened Outcomes
  import opened Outlets

  /** A node by the nodes it reads. */
  type Wiring = seq<seq<nat>>

  // ---- What must come before a node ----

  /** Those of `ids` that read something themselves, or those that do not. */
  function Reading(nodes: Wiring, ids: seq<nat>, reading: bool): seq<nat> {
    if ids == [] then []
    else (if ids[0] < |nodes| && (nodes[ids[0]] != []) == reading then [ids[0]] else []) + Reading(nodes, ids[1..], reading)
  }

  function Extra(more: seq<Edge>, n: nat): seq<nat> {
    if more == [] then [] else (if more[0].0 == n then [more[0].1] else []) + Extra(more[1..], n)
  }

  /** In the order they are visited: the inputs that read something, the extra
      dependencies, and the inputs that do not. */
  function Deps(nodes: Wiring, more: seq<Edge>, n: nat): seq<nat>
    requires n < |nodes|
  {
    Reading(nodes, nodes[n], true) + Extra(more, n) + Reading(nodes, nodes[n], false)
  }

  predicate Closed(nodes: Wiring, more: seq<Edge>) {
    (forall n | 0 <= n < |nodes| :: InRange(nodes[n], |nodes|)) && forall k | 0 <= k < |more| :: more[k].1 < |nodes|
  }

  lemma {:induction false} ReadingExactly(nodes: Wiring, ids: seq<nat>, reading: bool, d: nat)
    requires InRange(ids, |nodes|)
    ensures d in Reading(nodes, ids, reading) <==> d in ids && (nodes[d] != []) == reading
  {
    if ids != [] {
      ReadingExactly(nodes, ids[1..], reading, d);
      assert d in ids <==> d == ids[0] || d in ids[1..];
    }
  }

  lemma {:induction false} ExtraExactly(more: seq<Edge>, n: nat, d: nat)
    ensures d in Extra(more, n) <==> (n, d) in more
  {
    if more != [] {
      ExtraExactly(more[1..], n, d);
      assert (n, d) in more <==> (n, d) == more[0] || (n, d) in more[1..];
    }
  }

  /** A node's dependencies are its inputs and what the extra pairs ask. */
  lemma DepsExactly(nodes: Wiring, more: seq<Edge>, n: nat, d: nat)
    requires Closed(nodes, more) && n < |nodes|
    ensures d in Deps(nodes, more, n) <==> d in nodes[n] || (n, d) in more
    ensures d in Deps(nodes, more, n) ==> d < |nodes|
  {
    ReadingExactly(nodes, nodes[n], true, d);
    ReadingExactly(nodes, nodes[n], false, d);
    ExtraExactly(more, n, d);
  }

  // ---- What an order promises ----

  /** Each node once, a model input or after everything it depends on. */
  ghost predicate Topological(nodes: Wiring, inputs: seq<nat>, more: seq<Edge>, order: seq<nat>) {
    && InRange(order, |nodes|)
    && (forall i, j | 0 <= i < j < |order| :: order[i] != order[j])
    && forall k | 0 <= k < |order| :: order[k] in inputs || AllIn(Deps(nodes, more, order[k]), order[..k])
  }

  predicate AllIn(ids: seq<nat>, order: seq<nat>) {
    forall k | 0 <= k < |ids| :: ids[k] in order
  }

  // ---- Walks along dependencies ----

  predicate Needs(nodes: Wiring, inputs: seq<nat>, more: seq<Edge>, from: nat, to: nat) {
    from < |nodes| && from !in inputs && to in Deps(nodes, more, from)
  }

  predicate Walk(nodes: Wiring, inputs: seq<nat>, more: seq<Edge>, p: seq<nat>) {
    |p| > 0 && forall k | 0 <= k < |p| - 1 :: Needs(nodes, inputs, more, p[k], p[k + 1])
  }

  predicate Repeats(p: seq<nat>) {
    |p| > 0 && p[|p| - 1] in p[..|p| - 1]
  }

  /** Some walk from an output comes back to a node it went through. */
  ghost predicate Loops(nodes: Wiring, inputs: seq<nat>, more: seq<Edge>, outputs: seq<nat>) {
    exists p :: Walk(nodes, inputs, more, p) && p[0] in outputs && Repeats(p)
  }

  /** Some walk from an output comes to the node. */
  ghost predicate Wanted(nodes: Wiring, inputs: seq<nat>, more: seq<Edge>, outputs: seq<nat>, n: nat) {
    exists p :: Walk(nodes, inputs, more, p) && p[0] in outputs && p[|p| - 1] == n
  }

  // ---- The visit of one output ----

  type Stack = seq<(nat, nat)>

  /** The entry waits on its current dependency, the node above it. */
  predicate Leads(nodes: Wiring, inputs: seq<nat>, more: seq<Edge>, entry: (nat, nat), above: nat) {
    && entry.0 < |nodes| && entry.0 !in inputs && entry.1 < |Deps(nodes, more, entry.0)|
    && Deps(nodes, more, entry.0)[entry.1] == above
  }

  predicate Framed(nodes: Wiring, inputs: seq<nat>, more: seq<Edge>, target: nat, stack: Stack) {
    && (stack != [] ==> stack[0].0 == target)
    && forall i | 0 <= i < |stack| - 1 :: Leads(nodes, inputs, more, stack[i], stack[i + 1].0)
  }

  /** The entry is not done, and what it is past is. */
  predicate IsPast(nodes: Wiring, more: seq<Edge>, entry: (nat, nat), order: seq<nat>) {
    && entry.0 < |nodes| && entry.0 !in order && entry.1 <= |Deps(nodes, more, entry.0)|
    && AllIn(Deps(nodes, more, entry.0)[..entry.1], order)
  }

  ghost predicate AllPast(nodes: Wiring, more: seq<Edge>, stack: Stack, order: seq<nat>) {
    forall i | 0 <= i < |stack| :: IsPast(nodes, more, stack[i], order)
  }

  /** No node but the target is on the stack twice, and the target again only on top, no
      further than it is below. */
  predicate OnceEach(target: nat, stack: Stack) {
    && (forall i, j | 1 <= i < j < |stack| :: stack[i].0 != stack[j].0)
    && forall i | 1 <= i < |stack| && stack[i].0 == target :: i == |stack| - 1 && stack[i].1 <= stack[0].1
  }

  predicate IsPending(stack: Stack, pending: set<nat>) {
    && (forall i | 1 <= i < |stack| :: stack[i].0 in pending)
    && forall n | n in pending :: exists i :: 1 <= i < |stack| && stack[i].0 == n
  }

  ghost predicate Midvisit(nodes: Wiring, inputs: seq<nat>, more: seq<Edge>, target: nat, stack: Stack, pending: set<nat>,
                           order: seq<nat>)
  {
    && Framed(nodes, inputs, more, target, stack) && AllPast(nodes, more, stack, order) && OnceEach(target, stack)
    && IsPending(stack, pending) && Topological(nodes, inputs, more, order)
    && (stack == [] ==> target in order)
  }

  function Elements(s: seq<nat>): (r: set<nat>)
    ensures forall n :: n in r <==> n in s
  {
    set n | n in s
  }

  lemma FramedButTop(nodes: Wiring, inputs: seq<nat>, more: seq<Edge>, target: nat, stack: Stack, top: (nat, nat))
    requires stack != [] && Framed(nodes, inputs, more, target, stack) && top.0 == stack[|stack| - 1].0
    ensures Framed(nodes, inputs, more, target, stack[..|stack| - 1])
    ensures Framed(nodes, inputs, more, target, stack[..|stack| - 1] + [top])
  {
    hide Leads;
    var rest := stack[..|stack| - 1];
    var after := rest + [top];
    forall i | 0 <= i < |rest| - 1
      ensures Leads(nodes, inputs, more, rest[i], rest[i + 1].0)
    {
      assert Leads(nodes, inputs, more, stack[i], stack[i + 1].0);
    }
    forall i | 0 <= i < |after| - 1
      ensures Leads(nodes, inputs, more, after[i], after[i + 1].0)
    {
      assert Leads(nodes, inputs, more, stack[i], stack[i + 1].0);
    }
  }

  lemma OneMoreDone(nodes: Wiring, more: seq<Edge>, entry: (nat, nat), order: seq<nat>, n: nat)
    requires IsPast(nodes, more, entry, order) && entry.0 != n
    ensures IsPast(nodes, more, entry, order + [n])
  {
    hide Deps;
  }

  lemma OrderGrows(nodes: Wiring, inputs: seq<nat>, more: seq<Edge>, order: seq<nat>, n: nat)
    requires Topological(nodes, inputs, more, order) && n < |nodes| && n !in order
    requires n in inputs || AllIn(Deps(nodes, more, n), order)
    ensures Topological(nodes, inputs, more, order + [n])
  {
    hide Deps, AllIn;
    var after := order + [n];
    forall x | 0 <= x < |after|
      ensures after[x] in inputs || AllIn(Deps(nodes, more, after[x]), after[..x])
    {
      assert after[..x] == if x < |order| then order[..x] else order;
    }
  }

  /** The one entry that can go is not on the stack below. */
  lemma TopIsOnce(nodes: Wiring, inputs: seq<nat>, more: seq<Edge>, target: nat, stack: Stack)
    requires stack != [] && Framed(nodes, inputs, more, target, stack) && OnceEach(target, stack)
    requires var (n, k) := stack[|stack| - 1]; n < |nodes| && (n in inputs || k == |Deps(nodes, more, n)|)
    ensures forall i | 0 <= i < |stack| - 1 :: stack[i].0 != stack[|stack| - 1].0
  {
    hide Deps;
    var top := |stack| - 1;
    if top > 0 {
      assert Leads(nodes, inputs, more, stack[0], stack[1].0);
    }
    forall i | 0 <= i < top
      ensures stack[i].0 != stack[top].0
    {
      assert i > 0 ==> stack[i].0 != stack[top].0;
    }
  }

  lemma PendingButTop(stack: Stack, pending: set<nat>)
    requires stack != [] && IsPending(stack, pending)
    requires forall i | 0 <= i < |stack| - 1 :: stack[i].0 != stack[|stack| - 1].0
    ensures IsPending(stack[..|stack| - 1], pending - {stack[|stack| - 1].0})
  {
    var rest, n := stack[..|stack| - 1], stack[|stack| - 1].0;
    forall m | m in pending - {n}
      ensures exists i :: 1 <= i < |rest| && rest[i].0 == m
    {
      var i :| 1 <= i < |stack| && stack[i].0 == m;
      assert rest[i].0 == m;
    }
  }

  /** A node with nothing left to wait for goes to the order. */
  lemma Completes(nodes: Wiring, inputs: seq<nat>, more: seq<Edge>, target: nat, stack: Stack, pending: set<nat>,
                  order: seq<nat>)
    requires stack != [] && Midvisit(nodes, inputs, more, target, stack, pending, order)
    requires var (n, k) := stack[|stack| - 1]; n < |nodes| && (n in inputs || k == |Deps(nodes, more, n)|)
    ensures var (n, k) := stack[|stack| - 1];
            && n !in order
            && Midvisit(nodes, inputs, more, target, stack[..|stack| - 1], pending - {n}, order + [n])
  {
    hide Deps, Topological, Leads, Framed, IsPending;
    var top := |stack| - 1;
    var (n, k) := stack[top];
    assert IsPast(nodes, more, stack[top], order);
    if n !in inputs {
      assert Deps(nodes, more, n)[..k] == Deps(nodes, more, n);
    }
    OrderGrows(nodes, inputs, more, order, n);
    TopIsOnce(nodes, inputs, more, target, stack);
    PendingButTop(stack, pending);
    FramedButTop(nodes, inputs, more, target, stack, stack[top]);
    FramedFrom(nodes, inputs, more, target, stack);
    forall i | 0 <= i < top
      ensures IsPast(nodes, more, stack[..top][i], order + [n])
    {
      OneMoreDone(nodes, more, stack[i], order, n);
    }
  }

  lemma FramedFrom(nodes: Wiring, inputs: seq<nat>, more: seq<Edge>, target: nat, stack: Stack)
    requires stack != [] && Framed(nodes, inputs, more, target, stack)
    ensures stack[0].0 == target
    ensures |stack| > 1 ==> Leads(nodes, inputs, more, stack[0], stack[1].0)
  {}

  lemma PastAdvances(nodes: Wiring, more: seq<Edge>, n: nat, k: nat, order: seq<nat>)
    requires IsPast(nodes, more, (n, k), order) && k < |Deps(nodes, more, n)| && Deps(nodes, more, n)[k] in order
    ensures IsPast(nodes, more, (n, k + 1), order)
  {
    var deps := Deps(nodes, more, n);
    hide Deps;
    var past := deps[..k + 1];
    forall x | 0 <= x < |past|
      ensures past[x] in order
    {
      assert x < k ==> deps[..k][x] in order;
    }
  }

  /** The target again, on top, is short of what it waits for below. */
  lemma ShortOfBelow(nodes: Wiring, inputs: seq<nat>, more: seq<Edge>, target: nat, stack: Stack, order: seq<nat>)
    requires |stack| > 1 && Framed(nodes, inputs, more, target, stack) && OnceEach(target, stack)
    requires AllPast(nodes, more, stack, order) && stack[|stack| - 1].0 == target
    requires var k := stack[|stack| - 1].1; k < |Deps(nodes, more, target)| && Deps(nodes, more, target)[k] in order
    ensures stack[|stack| - 1].1 < stack[0].1
  {
    hide Deps;
    assert Leads(nodes, inputs, more, stack[0], stack[1].0);
    assert IsPast(nodes, more, stack[1], order);
  }

  lemma PendingSame(stack: Stack, pending: set<nat>, top: (nat, nat))
    requires stack != [] && IsPending(stack, pending) && top.0 == stack[|stack| - 1].0
    ensures IsPending(stack[..|stack| - 1] + [top], pending)
  {
    var after := stack[..|stack| - 1] + [top];
    forall i | 1 <= i < |stack|
      ensures after[i].0 == stack[i].0
    {}
    forall m | m in pending
      ensures exists i :: 1 <= i < |after| && after[i].0 == m
    {
      var i :| 1 <= i < |stack| && stack[i].0 == m;
      assert after[i].0 == m;
    }
  }

  /** A node whose current dependency is done turns to its next. */
  lemma Advances(nodes: Wiring, inputs: seq<nat>, more: seq<Edge>, target: nat, stack: Stack, pending: set<nat>,
                 order: seq<nat>)
    requires stack != [] && Midvisit(nodes, inputs, more, target, stack, pending, order)
    requires var (n, k) := stack[|stack| - 1];
             n < |nodes| && n !in inputs && k < |Deps(nodes, more, n)| && Deps(nodes, more, n)[k] in order
    ensures var (n, k) := stack[|stack| - 1];
            Midvisit(nodes, inputs, more, target, stack[..|stack| - 1] + [(n, k + 1)], pending, order)
  {
    hide Deps, Topological, Leads, Framed, IsPending, IsPast;
    var top := |stack| - 1;
    var (n, k) := stack[top];
    var after := stack[..top] + [(n, k + 1)];
    assert IsPast(nodes, more, stack[top], order);
    PastAdvances(nodes, more, n, k, order);
    FramedButTop(nodes, inputs, more, target, stack, (n, k + 1));
    PendingSame(stack, pending, (n, k + 1));
    if top > 0 && n == target {
      ShortOfBelow(nodes, inputs, more, target, stack, order);
    }
    forall i | 0 <= i < |after|
      ensures IsPast(nodes, more, after[i], order)
    {
      assert IsPast(nodes, more, stack[i], order);
    }
  }

  lemma PendingGrows(stack: Stack, pending: set<nat>, d: nat)
    requires stack != [] && IsPending(stack, pending)
    ensures IsPending(stack + [(d, 0)], pending + {d})
  {
    var after := stack + [(d, 0)];
    forall m | m in pending + {d}
      ensures exists i :: 1 <= i < |after| && after[i].0 == m
    {
      if m == d {
        assert after[|stack|].0 == m;
      } else {
        var i :| 1 <= i < |stack| && stack[i].0 == m;
        assert after[i].0 == m;
      }
    }
  }

  lemma FramedGrows(nodes: Wiring, inputs: seq<nat>, more: seq<Edge>, target: nat, stack: Stack, d: nat)
    requires stack != [] && Framed(nodes, inputs, more, target, stack)
    requires Leads(nodes, inputs, more, stack[|stack| - 1], d)
    ensures Framed(nodes, inputs, more, target, stack + [(d, 0)])
  {
    hide Leads;
    var after := stack + [(d, 0)];
    forall i | 0 <= i < |after| - 1
      ensures Leads(nodes, inputs, more, after[i], after[i + 1].0)
    {
      if i < |stack| - 1 {
        assert Leads(nodes, inputs, more, stack[i], stack[i + 1].0);
      }
    }
  }

  /** The target again, on top, never descends: what it waits for next is done, or waits. */
  lemma NeverFromAbove(nodes: Wiring, inputs: seq<nat>, more: seq<Edge>, target: nat, stack: Stack, pending: set<nat>,
                       order: seq<nat>, d: nat)
    requires |stack| > 1 && Midvisit(nodes, inputs, more, target, stack, pending, order)
    requires Leads(nodes, inputs, more, stack[|stack| - 1], d) && d !in order && d !in pending
    ensures stack[|stack| - 1].0 != target
  {
    hide Deps, Topological;
    assert Leads(nodes, inputs, more, stack[0], stack[1].0);
    assert IsPast(nodes, more, stack[0], order) && stack[1].0 in pending;
    if stack[|stack| - 1].1 < stack[0].1 {
      PastIsDone(nodes, more, stack[0], order, stack[|stack| - 1].1);
    }
  }

  lemma PastIsDone(nodes: Wiring, more: seq<Edge>, entry: (nat, nat), order: seq<nat>, k: nat)
    requires IsPast(nodes, more, entry, order) && k < entry.1
    ensures Deps(nodes, more, entry.0)[k] in order
  {
    hide Deps;
    assert Deps(nodes, more, entry.0)[..entry.1][k] in order;
  }

  lemma DependencyInRange(nodes: Wiring, inputs: seq<nat>, more: seq<Edge>, entry: (nat, nat), d: nat, order: seq<nat>)
    requires Closed(nodes, more) && Leads(nodes, inputs, more, entry, d) && d !in order
    ensures IsPast(nodes, more, (d, 0), order)
  {
    assert d in Deps(nodes, more, entry.0);
    DepsExactly(nodes, more, entry.0, d);
    hide Deps;
    assert Deps(nodes, more, d)[..0] == [];
  }

  /** A node whose current dependency is neither done nor waited for waits for it. */
  lemma Descends(nodes: Wiring, inputs: seq<nat>, more: seq<Edge>, target: nat, stack: Stack, pending: set<nat>,
                 order: seq<nat>, d: nat)
    requires Closed(nodes, more) && stack != [] && Midvisit(nodes, inputs, more, target, stack, pending, order)
    requires Leads(nodes, inputs, more, stack[|stack| - 1], d) && d !in order && d !in pending
    ensures d < |nodes| && Midvisit(nodes, inputs, more, target, stack + [(d, 0)], pending + {d}, order)
  {
    if |stack| > 1 {
      NeverFromAbove(nodes, inputs, more, target, stack, pending, order, d);
    }
    DependencyInRange(nodes, inputs, more, stack[|stack| - 1], d, order);
    hide Deps, Topological, Leads, Framed;
    PendingGrows(stack, pending, d);
    FramedGrows(nodes, inputs, more, target, stack, d);
    FramedFrom(nodes, inputs, more, target, stack);
    var after := stack + [(d, 0)];
    forall i | 0 <= i < |after|
      ensures IsPast(nodes, more, after[i], order)
    {
      if i < |stack| {
        assert IsPast(nodes, more, stack[i], order);
      }
    }
    OnceMore(target, stack, pending, d);
  }

  lemma OnceMore(target: nat, stack: Stack, pending: set<nat>, d: nat)
    requires stack != [] && OnceEach(target, stack) && IsPending(stack, pending) && d !in pending && stack[0].0 == target
    requires |stack| > 1 ==> stack[|stack| - 1].0 != target
    ensures OnceEach(target, stack + [(d, 0)])
  {
    var after := stack + [(d, 0)];
    forall i | 1 <= i < |stack|
      ensures after[i].0 == stack[i].0 && after[i].0 != d && after[i].0 != target
    {
      assert stack[i].0 in pending;
    }
  }

  function NodesOf(stack: Stack): (p: seq<nat>)
    ensures |p| == |stack| && forall i | 0 <= i < |stack| :: p[i] == stack[i].0
  {
    seq(|stack|, i requires 0 <= i < |stack| => stack[i].0)
  }

  /** Waiting for a node that waits already is a loop. */
  lemma ClosesLoop(nodes: Wiring, inputs: seq<nat>, more: seq<Edge>, target: nat, stack: Stack, pending: set<nat>,
                   order: seq<nat>, d: nat, outputs: seq<nat>)
    requires stack != [] && Midvisit(nodes, inputs, more, target, stack, pending, order) && target in outputs
    requires Leads(nodes, inputs, more, stack[|stack| - 1], d) && d in pending
    ensures Loops(nodes, inputs, more, outputs)
  {
    hide Deps, Topological, AllPast, OnceEach;
    var p := NodesOf(stack) + [d];
    forall k | 0 <= k < |p| - 1
      ensures Needs(nodes, inputs, more, p[k], p[k + 1])
    {
      assert k < |stack| - 1 ==> Leads(nodes, inputs, more, stack[k], stack[k + 1].0);
    }
    var i :| 1 <= i < |stack| && stack[i].0 == d;
    assert p[..|p| - 1][i] == d;
    assert Walk(nodes, inputs, more, p);
  }

  /** The top of the stack is wanted. */
  lemma TopIsWanted(nodes: Wiring, inputs: seq<nat>, more: seq<Edge>, target: nat, stack: Stack, pending: set<nat>,
                    order: seq<nat>, outputs: seq<nat>)
    requires stack != [] && Midvisit(nodes, inputs, more, target, stack, pending, order) && target in outputs
    ensures Wanted(nodes, inputs, more, outputs, stack[|stack| - 1].0)
  {
    hide Deps, Topological, AllPast, OnceEach, IsPending;
    var p := NodesOf(stack);
    forall k | 0 <= k < |p| - 1
      ensures Needs(nodes, inputs, more, p[k], p[k + 1])
    {
      assert Leads(nodes, inputs, more, stack[k], stack[k + 1].0);
    }
    assert Walk(nodes, inputs, more, p);
  }

  method Visit(nodes: Wiring, inputs: seq<nat>, more: seq<Edge>, target: nat, order0: seq<nat>, ghost outputs: seq<nat>)
    returns (r: Option<seq<nat>>)
    requires Closed(nodes, more) && target < |nodes| && target in outputs && target !in order0
    requires Topological(nodes, inputs, more, order0)
    ensures r.Some? ==> Topological(nodes, inputs, more, r.value) && target in r.value && order0 <= r.value
    ensures r.Some? ==> forall n | n in r.value :: n in order0 || Wanted(nodes, inputs, more, outputs, n)
    ensures r.None? ==> Loops(nodes, inputs, more, outputs)
  {
    hide Topological, Midvisit, Loops, Leads, Deps, Closed, Wanted;
    var order, stack: Stack, pending: set<nat> := order0, [(target, 0)], {};
    ghost var all := Below(|nodes|);
    VisitStarts(nodes, inputs, more, target, order0);
    while stack != []
      invariant Midvisit(nodes, inputs, more, target, stack, pending, order) && order0 <= order
      invariant forall m | m in order :: m in order0 || Wanted(nodes, inputs, more, outputs, m)
      invariant stack != [] ==> stack[|stack| - 1].0 < |nodes|
      decreases all - Elements(order), all - pending,
                if stack == [] || stack[|stack| - 1].0 >= |nodes| then 0
                else |Deps(nodes, more, stack[|stack| - 1].0)| - stack[|stack| - 1].1
    {
      var (n, k) := stack[|stack| - 1];
      var deps := Deps(nodes, more, n);
      TopInRange(nodes, inputs, more, target, stack, pending, order);
      if n in inputs || k == |deps| {
        Completes(nodes, inputs, more, target, stack, pending, order);
        TopIsWanted(nodes, inputs, more, target, stack, pending, order, outputs);
        assert n in all - Elements(order) && n !in all - Elements(order + [n]);
        order, pending, stack := order + [n], pending - {n}, stack[..|stack| - 1];
      } else {
        var d := deps[k];
        assert Leads(nodes, inputs, more, stack[|stack| - 1], d) by { LeadsNow(nodes, inputs, more, stack[|stack| - 1]); }
        if d in order {
          Advances(nodes, inputs, more, target, stack, pending, order);
          stack := stack[..|stack| - 1] + [(n, k + 1)];
        } else if d in pending {
          ClosesLoop(nodes, inputs, more, target, stack, pending, order, d, outputs);
          return None;
        } else {
          Descends(nodes, inputs, more, target, stack, pending, order, d);
          assert d in all - pending && d !in all - (pending + {d});
          pending, stack := pending + {d}, stack + [(d, 0)];
        }
      }
      assert stack != [] ==> stack[|stack| - 1].0 < |nodes| by {
        if stack != [] {
          TopInRange(nodes, inputs, more, target, stack, pending, order);
        }
      }
    }
    VisitEnds(nodes, inputs, more, target, pending, order);
    r := Some(order);
  }

  lemma VisitStarts(nodes: Wiring, inputs: seq<nat>, more: seq<Edge>, target: nat, order: seq<nat>)
    requires target < |nodes| && target !in order && Topological(nodes, inputs, more, order)
    ensures Midvisit(nodes, inputs, more, target, [(target, 0)], {}, order)
  {}

  lemma TopInRange(nodes: Wiring, inputs: seq<nat>, more: seq<Edge>, target: nat, stack: Stack, pending: set<nat>,
                   order: seq<nat>)
    requires stack != [] && Midvisit(nodes, inputs, more, target, stack, pending, order)
    ensures stack[|stack| - 1].0 < |nodes| && stack[|stack| - 1].1 <= |Deps(nodes, more, stack[|stack| - 1].0)|
  {
    assert IsPast(nodes, more, stack[|stack| - 1], order);
  }

  lemma VisitEnds(nodes: Wiring, inputs: seq<nat>, more: seq<Edge>, target: nat, pending: set<nat>, order: seq<nat>)
    requires Midvisit(nodes, inputs, more, target, [], pending, order)
    ensures Topological(nodes, inputs, more, order) && target in order
  {}

  lemma LeadsNow(nodes: Wiring, inputs: seq<nat>, more: seq<Edge>, entry: (nat, nat))
    requires entry.0 < |nodes| && entry.0 !in inputs && entry.1 < |Deps(nodes, more, entry.0)|
    ensures Leads(nodes, inputs, more, entry, Deps(nodes, more, entry.0)[entry.1])
  {}

  // ---- Every output ----

  /** `eval_order_for_nodes`: an order with every output in it and only what some output
      wants, each node once and after what it depends on, exactly when no walk from an output
      loops. */
  method EvalOrder(nodes: Wiring, inputs: seq<nat>, outputs: seq<nat>, more: seq<Edge>) returns (r: Option<seq<nat>>)
    requires Closed(nodes, more) && InRange(outputs, |nodes|)
    ensures r.Some? ==> Topological(nodes, inputs, more, r.value) && AllIn(outputs, r.value)
    ensures r.Some? ==> forall n: nat :: n in r.value <==> Wanted(nodes, inputs, more, outputs, n)
    ensures r.None? <==> Loops(nodes, inputs, more, outputs)
  {
    hide Loops, Closed, Wanted;
    var order: seq<nat> := [];
    var k := 0;
    while k < |outputs|
      invariant 0 <= k <= |outputs| && Topological(nodes, inputs, more, order) && AllIn(outputs[..k], order)
      invariant forall n: nat | n in order :: Wanted(nodes, inputs, more, outputs, n)
    {
      if outputs[k] !in order {
        var visited := Visit(nodes, inputs, more, outputs[k], order, outputs);
        if visited.None? {
          return None;
        }
        order := visited.value;
      }
      k := k + 1;
    }
    assert outputs[..k] == outputs;
    r := Some(order);
    OrderMeansNoLoop(nodes, inputs, more, outputs, order);
    OrderHasWanted(nodes, inputs, more, outputs, order);
  }

  lemma OrderHasWanted(nodes: Wiring, inputs: seq<nat>, more: seq<Edge>, outputs: seq<nat>, order: seq<nat>)
    requires Topological(nodes, inputs, more, order) && AllIn(outputs, order)
    ensures forall n: nat | Wanted(nodes, inputs, more, outputs, n) :: n in order
  {
    hide Topological;
    forall n: nat | Wanted(nodes, inputs, more, outputs, n)
      ensures n in order
    {
      var p :| Walk(nodes, inputs, more, p) && p[0] in outputs && p[|p| - 1] == n;
      var x :| 0 <= x < |outputs| && outputs[x] == p[0];
      WalksBack(nodes, inputs, more, order, p, |p| - 1);
    }
  }

  /** Along a walk the order only goes back. */
  lemma {:induction false} WalksBack(nodes: Wiring, inputs: seq<nat>, more: seq<Edge>, order: seq<nat>, p: seq<nat>, k: nat)
    requires Topological(nodes, inputs, more, order) && Walk(nodes, inputs, more, p) && p[0] in order && k < |p|
    ensures p[k] in order && forall i | 0 <= i < k :: p[i] in order && StepOf(order, p[i]) > StepOf(order, p[k])
    decreases k
  {
    if k > 0 {
      WalksBack(nodes, inputs, more, order, p, k - 1);
      assert Needs(nodes, inputs, more, p[k - 1], p[k - 1 + 1]);
      var s := StepOf(order, p[k - 1]);
      assert order[s] in inputs || AllIn(Deps(nodes, more, order[s]), order[..s]);
      var x :| 0 <= x < s && order[..s][x] == p[k];
      assert order[x] == p[k];
      assert StepOf(order, p[k]) == x;
      forall i | 0 <= i < k
        ensures p[i] in order && StepOf(order, p[i]) > StepOf(order, p[k])
      {}
    }
  }

  /** Only a graph without loops has an order. */
  lemma OrderMeansNoLoop(nodes: Wiring, inputs: seq<nat>, more: seq<Edge>, outputs: seq<nat>, order: seq<nat>)
    requires Topological(nodes, inputs, more, order) && AllIn(outputs, order)
    ensures !Loops(nodes, inputs, more, outputs)
  {
    forall p | Walk(nodes, inputs, more, p) && p[0] in outputs
      ensures !Repeats(p)
    {
      WalksBack(nodes, inputs, more, order, p, |p| - 1);
    }
  }
}
