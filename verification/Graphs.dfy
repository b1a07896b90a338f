/** Dataflow graphs in evaluation order, and what running one computes. */
module Graphs {
  import opened Outcomes
  import opened Tensors
  import opened AxisOps
  import opened EinSums
  import opened NaryOps
  import opened Outlets

  /** An axis of an input's fact: of fixed extent, or sized by an expression the batch
      symbol is in. */
  datatype Dim = Fixed(extent: nat) | Sized

  /** The ops batchify knows, the `MultiBroadcastTo` to the batch it adds, and any
      other op, by a name the library looks up. */
  datatype Op =
    | Axis(edit: AxisOp)
    | Einsum(sum: EinSum)
    | Each(kernel: seq<int> -> int)
    | Concat(axis: nat)
    | ToBatch
    | Other(name: nat)

  datatype Node =
    | Source(fact: seq<Dim>)
    | Wired(op: Op, inputs: seq<Outlet>, outputs: nat)

  type Graph = seq<Node>

  datatype InOut = In(slot: nat) | Out(slot: nat)

  /** An op's answer to an axis change: what replaces it, and which of its wires the
      change reaches. */
  datatype Consequence = Consequence(substitute: Option<Op>, changes: seq<(InOut, AxisOp)>)

  datatype Library = Library(
    eval: (nat, seq<Tensor>) -> Option<seq<Tensor>>,
    changeAxes: (nat, InOut, AxisOp) -> Option<Consequence>)

  function OutputsOf(node: Node): nat {
    if node.Source? then 1 else node.outputs
  }

  /** Every wire comes from an earlier node's output. */
  predicate Ordered(g: Graph) {
    forall k | 0 <= k < |g| && g[k].Wired? :: InputsBefore(g, g[k].inputs, k)
  }

  predicate InputsBefore(g: Graph, inputs: seq<Outlet>, k: nat) {
    k <= |g| && forall o | o in inputs :: o.node < k && o.slot < OutputsOf(g[o.node])
  }

  // ---- Running ----

  type Values = seq<seq<Tensor>>

  function Single(t: Option<Tensor>): Option<seq<Tensor>> {
    if t.Some? then Some([t.value]) else None
  }

  /** `n` is the batch symbol's value. */
  function Eval(lib: Library, n: nat, op: Op, xs: seq<Tensor>): Option<seq<Tensor>> {
    match op
    case Axis(edit) => if |xs| == 1 then Single(ApplyAxis(edit, xs[0])) else None
    case Einsum(sum) => Single(ApplyEinSum(sum, xs))
    case Each(kernel) => Single(ApplyEach(kernel, xs))
    case Concat(axis) => Single(ApplyConcat(axis, xs))
    case ToBatch => if |xs| == 1 then Single(Spread(n, xs[0])) else None
    case Other(name) => lib.eval(name, xs)
  }

  function Read(vals: Values, o: Outlet): Option<Tensor> {
    if o.node < |vals| && o.slot < |vals[o.node]| then Some(vals[o.node][o.slot]) else None
  }

  function Reads(vals: Values, inputs: seq<Outlet>): (r: Option<seq<Tensor>>)
    ensures r.Some? ==> |r.value| == |inputs|
    ensures r.Some? ==> forall s | 0 <= s < |inputs| :: Read(vals, inputs[s]) == Some(r.value[s])
  {
    if inputs == [] then Some([])
    else
      match (Read(vals, inputs[0]), Reads(vals, inputs[1..]))
      case (Some(x), Some(rest)) => Some([x] + rest)
      case _ => None
  }

  function Computed(lib: Library, n: nat, g: Graph, given: map<nat, Tensor>, vals: Values): Option<seq<Tensor>>
    requires |vals| < |g|
  {
    match g[|vals|]
    case Source(_) => if |vals| in given then Some([given[|vals|]]) else None
    case Wired(op, inputs, outputs) =>
      match Reads(vals, inputs)
      case None => None
      case Some(xs) =>
        var ys := Eval(lib, n, op, xs);
        if ys.Some? && |ys.value| == outputs then ys else None
  }

  /** The values of the first `k` nodes. */
  function Run(lib: Library, n: nat, g: Graph, given: map<nat, Tensor>, k: nat): (r: Option<Values>)
    requires k <= |g|
    ensures r.Some? ==> |r.value| == k && forall j | 0 <= j < k :: |r.value[j]| == OutputsOf(g[j])
  {
    if k == 0 then Some([])
    else
      match Run(lib, n, g, given, k - 1)
      case None => None
      case Some(vals) =>
        match Computed(lib, n, g, given, vals)
        case None => None
        case Some(ys) => Some(vals + [ys])
  }

  lemma ComputedOfPrefix(lib: Library, n: nat, g: Graph, more: Graph, given: map<nat, Tensor>, vals: Values)
    requires |vals| < |g|
    ensures Computed(lib, n, g + more, given, vals) == Computed(lib, n, g, given, vals)
  {
    hide Eval, Reads;
  }

  /** What runs of a graph says nothing about the nodes after. */
  lemma {:induction false} RunOfPrefix(lib: Library, n: nat, g: Graph, more: Graph, given: map<nat, Tensor>, k: nat)
    requires k <= |g|
    ensures Run(lib, n, g + more, given, k) == Run(lib, n, g, given, k)
  {
    hide Computed;
    if k > 0 {
      RunOfPrefix(lib, n, g, more, given, k - 1);
      var vals := Run(lib, n, g, given, k - 1);
      if vals.Some? {
        ComputedOfPrefix(lib, n, g, more, given, vals.value);
      }
    }
  }

  lemma {:induction false} RunShorter(lib: Library, n: nat, g: Graph, given: map<nat, Tensor>, j: nat, k: nat)
    requires j <= k <= |g| && Run(lib, n, g, given, k).Some?
    ensures Run(lib, n, g, given, j) == Some(Run(lib, n, g, given, k).value[..j])
    decreases k
  {
    hide Computed;
    var vals := Run(lib, n, g, given, k).value;
    if j < k {
      RunShorter(lib, n, g, given, j, k - 1);
      assert vals[..j] == vals[..k - 1][..j];
    } else {
      assert vals[..j] == vals;
    }
  }

  /** One more node. */
  lemma RunAppended(lib: Library, n: nat, g: Graph, node: Node, given: map<nat, Tensor>, vals: Values, ys: seq<Tensor>)
    requires Run(lib, n, g, given, |g|) == Some(vals)
    requires Computed(lib, n, g + [node], given, vals) == Some(ys)
    ensures Run(lib, n, g + [node], given, |g| + 1) == Some(vals + [ys])
  {
    RunOfPrefix(lib, n, g, [node], given, |g|);
  }

  lemma ReadLonger(vals: Values, more: Values, o: Outlet)
    requires Read(vals, o).Some?
    ensures Read(vals + more, o) == Read(vals, o)
  {}

  lemma {:induction false} ReadsPointwise(vals: Values, inputs: seq<Outlet>, xs: seq<Tensor>)
    requires |inputs| == |xs| && forall s | 0 <= s < |inputs| :: Read(vals, inputs[s]) == Some(xs[s])
    ensures Reads(vals, inputs) == Some(xs)
  {
    if inputs != [] {
      ReadsPointwise(vals, inputs[1..], xs[1..]);
      assert [xs[0]] + xs[1..] == xs;
    }
  }

  lemma {:induction false} ReadsLonger(vals: Values, longer: Values, inputs: seq<Outlet>)
    requires Reads(vals, inputs).Some? && |vals| <= |longer| && longer[..|vals|] == vals
    ensures Reads(longer, inputs) == Reads(vals, inputs)
  {
    if inputs != [] {
      ReadsLonger(vals, longer, inputs[1..]);
      assert longer == vals + longer[|vals|..];
      ReadLonger(vals, longer[|vals|..], inputs[0]);
    }
  }

  // ---- Soundness of what ops answer ----

  /** The library's ops answer sound tensors to sound ones. */
  ghost predicate Regular(lib: Library) {
    forall name, xs :: (forall x | x in xs :: Sound(x)) && lib.eval(name, xs).Some? ==> AllSound(lib.eval(name, xs).value)
  }

  predicate AllSound(xs: seq<Tensor>) {
    forall x | x in xs :: Sound(x)
  }

  lemma EvalIsSound(lib: Library, n: nat, op: Op, xs: seq<Tensor>)
    requires Regular(lib) && AllSound(xs) && Eval(lib, n, op, xs).Some?
    ensures AllSound(Eval(lib, n, op, xs).value)
  {
    hide Reader, Elements, EachElement, ConcatElement;
    if op.ToBatch? {
      assert Sound(xs[0]);
    }
  }
}
