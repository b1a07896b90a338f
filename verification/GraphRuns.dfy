/** What a run of a dataflow graph is: every node holds what its op answers to what its wires
    carry, and there is a run whenever there are such values. */
module GraphRuns {
  import opened Outcomes
  import opened Tensors
  import opened AxisOps
  import opened EinSums
  import opened NaryOps
  import opened Outlets
  import opened Graphs

  /** The op answers `ys` to `xs`, the batch symbol being `n`. */
  predicate Answers(lib: Library, n: nat, op: Op, xs: seq<Tensor>, ys: seq<Tensor>) {
    match op
    case Axis(edit) => |xs| == 1 && |ys| == 1 && ApplyAxis(edit, xs[0]) == Some(ys[0])
    case Einsum(sum) => |ys| == 1 && ApplyEinSum(sum, xs) == Some(ys[0])
    case Each(kernel) => |ys| == 1 && ApplyEach(kernel, xs) == Some(ys[0])
    case Concat(axis) => |ys| == 1 && ApplyConcat(axis, xs) == Some(ys[0])
    case ToBatch => |xs| == 1 && |ys| == 1 && Spread(n, xs[0]) == Some(ys[0])
    case Other(name) => lib.eval(name, xs) == Some(ys)
  }

  /** The wires carry `xs`, in their order. */
  predicate Carry(before: Values, inputs: seq<Outlet>, xs: seq<Tensor>) {
    |xs| == |inputs|
    && forall s | 0 <= s < |inputs| ::
         inputs[s].node < |before| && inputs[s].slot < |before[inputs[s].node]| && before[inputs[s].node][inputs[s].slot] == xs[s]
  }

  /** After the nodes before it, a source holds what it is given, and any other node as many
      outputs as it has, its op's answer. */
  ghost predicate Makes(lib: Library, n: nat, node: Node, given: map<nat, Tensor>, before: Values, ys: seq<Tensor>) {
    match node
    case Source(_) => |before| in given && ys == [given[|before|]]
    case Wired(op, inputs, outputs) => |ys| == outputs && exists xs :: Carry(before, inputs, xs) && Answers(lib, n, op, xs, ys)
  }

  ghost predicate IsRun(lib: Library, n: nat, g: Graph, given: map<nat, Tensor>, vals: Values) {
    |vals| == |g| && forall j | 0 <= j < |g| :: Makes(lib, n, g[j], given, vals[..j], vals[j])
  }

  lemma EvalAnswers(lib: Library, n: nat, op: Op, xs: seq<Tensor>, ys: seq<Tensor>)
    ensures Eval(lib, n, op, xs) == Some(ys) <==> Answers(lib, n, op, xs, ys)
  {
    hide ApplyAxis, Applies, ApplyEinSum, ApplyEach, ApplyConcat, Spread;
    if |ys| == 1 {
      assert ys == [ys[0]];
    }
  }

  lemma {:induction false} ReadsCarry(before: Values, inputs: seq<Outlet>, xs: seq<Tensor>)
    ensures Reads(before, inputs) == Some(xs) <==> Carry(before, inputs, xs)
  {
    if Carry(before, inputs, xs) {
      ReadsPointwise(before, inputs, xs);
    }
  }

  lemma ComputedMakes(lib: Library, n: nat, g: Graph, given: map<nat, Tensor>, before: Values, ys: seq<Tensor>)
    requires |before| < |g|
    ensures Computed(lib, n, g, given, before) == Some(ys) <==> Makes(lib, n, g[|before|], given, before, ys)
  {
    hide Eval, Answers, Reads, Carry;
    var node := g[|before|];
    if node.Wired? {
      var xs := Reads(before, node.inputs);
      if xs.Some? {
        ReadsCarry(before, node.inputs, xs.value);
        EvalAnswers(lib, n, node.op, xs.value, ys);
      }
      forall zs | Carry(before, node.inputs, zs)
        ensures xs == Some(zs)
      {
        ReadsCarry(before, node.inputs, zs);
      }
    }
  }

  lemma {:induction false} RunUpto(lib: Library, n: nat, g: Graph, given: map<nat, Tensor>, vals: Values, k: nat)
    requires k <= |g| && |vals| == k
    ensures Run(lib, n, g, given, k) == Some(vals) <==> forall j | 0 <= j < k :: Makes(lib, n, g[j], given, vals[..j], vals[j])
  {
    hide Computed, Makes;
    if k > 0 {
      var before := vals[..k - 1];
      RunUpto(lib, n, g, given, before, k - 1);
      ComputedMakes(lib, n, g, given, before, vals[k - 1]);
      assert vals == before + [vals[k - 1]];
      forall j | 0 <= j < k - 1
        ensures before[..j] == vals[..j] && before[j] == vals[j]
      {}
    }
  }

  /** `run` answers exactly the values that are a run: none if there are none. */
  lemma RunExactly(lib: Library, n: nat, g: Graph, given: map<nat, Tensor>, vals: Values)
    ensures Run(lib, n, g, given, |g|) == Some(vals) <==> IsRun(lib, n, g, given, vals)
  {
    hide Makes;
    if |vals| == |g| {
      RunUpto(lib, n, g, given, vals, |g|);
    }
  }
}
