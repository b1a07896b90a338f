/** When each value of a plan can be dropped. */
module FlushLists {
  import opened Outcomes
  import opened Outlets
  import opened Symbols

  /** What the plan knows of a node: its wires, its value if it is a constant, and the
      symbolic shape of each of its outputs. */
  datatype PlanNode<V> = PlanNode(inputs: seq<Outlet>, konst: Option<V>, facts: seq<seq<TDim>>)

  predicate ReadsNode<V>(node: PlanNode<V>, n: nat) {
    exists i :: 0 <= i < |node.inputs| && node.inputs[i].node == n
  }

  predicate IsOutput(outputs: seq<Outlet>, n: nat) {
    exists i :: 0 <= i < |outputs| && outputs[i].node == n
  }

  /** The last of the first `k` steps to read `n`; zero for none. */
  function LastUse<V>(nodes: seq<PlanNode<V>>, order: seq<nat>, n: nat, k: nat): (step: nat)
    requires k <= |order| && forall s | 0 <= s < |order| :: order[s] < |nodes|
    ensures forall s | 0 <= s < k && ReadsNode(nodes[order[s]], n) :: s <= step
    ensures step == 0 || (step < k && ReadsNode(nodes[order[step]], n))
  {
    if k == 0 then 0 else if ReadsNode(nodes[order[k - 1]], n) then k - 1 else LastUse(nodes, order, n, k - 1)
  }

  function NeededUntil<V>(nodes: seq<PlanNode<V>>, order: seq<nat>, outputs: seq<Outlet>, n: nat): nat
    requires forall s | 0 <= s < |order| :: order[s] < |nodes|
  {
    if IsOutput(outputs, n) then |order| else LastUse(nodes, order, n, |order|)
  }

  /** The nodes before `m` flushed at `step`: never a constant, and never a node last
      used at step zero. */
  function FlushedAt<V>(nodes: seq<PlanNode<V>>, order: seq<nat>, outputs: seq<Outlet>, step: nat, m: nat): seq<nat>
    requires m <= |nodes| && forall s | 0 <= s < |order| :: order[s] < |nodes|
  {
    if m == 0 then []
    else
      var before := FlushedAt(nodes, order, outputs, step, m - 1);
      if step != 0 && NeededUntil(nodes, order, outputs, m - 1) == step && nodes[m - 1].konst.None?
      then before + [m - 1] else before
  }

  /** The end needs an output last; any other node the last step to read it does. */
  predicate LastNeeded<V>(nodes: seq<PlanNode<V>>, order: seq<nat>, outputs: seq<Outlet>, n: nat, step: nat)
    requires forall s | 0 <= s < |order| :: order[s] < |nodes|
  {
    if IsOutput(outputs, n) then step == |order|
    else
      && step < |order| && ReadsNode(nodes[order[step]], n)
      && forall s | step < s < |order| :: !ReadsNode(nodes[order[s]], n)
  }

  lemma LastNeededIs<V>(nodes: seq<PlanNode<V>>, order: seq<nat>, outputs: seq<Outlet>, n: nat, step: nat)
    requires step != 0 && forall s | 0 <= s < |order| :: order[s] < |nodes|
    ensures NeededUntil(nodes, order, outputs, n) == step <==> LastNeeded(nodes, order, outputs, n, step)
  {
    hide ReadsNode, IsOutput;
  }

  /** A step flushes the nodes it is the last to need, but for constants; and never step zero. */
  lemma {:induction false} FlushedLast<V>(nodes: seq<PlanNode<V>>, order: seq<nat>, outputs: seq<Outlet>, step: nat, m: nat,
                                          n: nat)
    requires m <= |nodes| && forall s | 0 <= s < |order| :: order[s] < |nodes|
    ensures n in FlushedAt(nodes, order, outputs, step, m) <==>
      n < m && step != 0 && LastNeeded(nodes, order, outputs, n, step) && nodes[n].konst.None?
  {
    FlushedExactly(nodes, order, outputs, step, m, n);
    if step != 0 {
      LastNeededIs(nodes, order, outputs, n, step);
    }
  }

  lemma {:induction false} FlushedExactly<V>(nodes: seq<PlanNode<V>>, order: seq<nat>, outputs: seq<Outlet>, step: nat,
                                             m: nat, n: nat)
    requires m <= |nodes| && forall s | 0 <= s < |order| :: order[s] < |nodes|
    ensures n in FlushedAt(nodes, order, outputs, step, m) <==>
      n < m && step != 0 && NeededUntil(nodes, order, outputs, n) == step && nodes[n].konst.None?
  {
    if m > 0 {
      FlushedExactly(nodes, order, outputs, step, m - 1, n);
    }
  }

  function LastUseAfter<V>(nodes: seq<PlanNode<V>>, order: seq<nat>, outputs: seq<Outlet>, n: nat, j: nat): nat
    requires j <= |outputs| && forall s | 0 <= s < |order| :: order[s] < |nodes|
  {
    if IsOutput(outputs[..j], n) then |order| else LastUse(nodes, order, n, |order|)
  }

  /** The nodes a step reads are needed until then. */
  method MarkUses<V>(before: seq<nat>, node: PlanNode<V>, step: nat) returns (until: seq<nat>)
    requires forall i | i in node.inputs :: i.node < |before|
    ensures |until| == |before|
    ensures forall n | 0 <= n < |until| :: until[n] == if ReadsNode(node, n) then step else before[n]
  {
    until := before;
    var i := 0;
    while i < |node.inputs|
      invariant 0 <= i <= |node.inputs| && |until| == |before|
      invariant forall n | 0 <= n < |until| ::
        until[n] == if exists j :: 0 <= j < i && node.inputs[j].node == n then step else before[n]
    {
      assert node.inputs[i] in node.inputs;
      until := until[node.inputs[i].node := step];
      i := i + 1;
    }
  }

  /** When every value is last needed. */
  method UsedUntil<V>(nodes: seq<PlanNode<V>>, order: seq<nat>, outputs: seq<Outlet>) returns (until: seq<nat>)
    requires forall s | 0 <= s < |order| :: order[s] < |nodes|
    requires forall s | 0 <= s < |order| :: forall i | i in nodes[order[s]].inputs :: i.node < |nodes|
    requires forall o | o in outputs :: o.node < |nodes|
    ensures |until| == |nodes|
    ensures forall n | 0 <= n < |nodes| :: until[n] == NeededUntil(nodes, order, outputs, n)
  {
    until := seq(|nodes|, _ => 0);
    var step := 0;
    while step < |order|
      invariant 0 <= step <= |order| && |until| == |nodes|
      invariant forall n | 0 <= n < |nodes| :: until[n] == LastUse(nodes, order, n, step)
    {
      until := MarkUses(until, nodes[order[step]], step);
      step := step + 1;
    }
    var j := 0;
    while j < |outputs|
      invariant 0 <= j <= |outputs| && |until| == |nodes|
      invariant forall n | 0 <= n < |nodes| :: until[n] == LastUseAfter(nodes, order, outputs, n, j)
    {
      assert outputs[j] in outputs;
      OneMoreOutput(outputs, j);
      until := until[outputs[j].node := |order|];
      j := j + 1;
    }
    assert outputs[..j] == outputs;
  }

  /** `build_flush_list`: one list a step and one for the end, a node in exactly the list
      of the last step reading it, if that is not step zero. */
  method BuildFlushList<V>(nodes: seq<PlanNode<V>>, order: seq<nat>, outputs: seq<Outlet>) returns (lists: seq<seq<nat>>)
    requires forall s | 0 <= s < |order| :: order[s] < |nodes|
    requires forall s | 0 <= s < |order| :: forall i | i in nodes[order[s]].inputs :: i.node < |nodes|
    requires forall o | o in outputs :: o.node < |nodes|
    ensures |lists| == |order| + 1
    ensures forall step | 0 <= step <= |order| :: lists[step] == FlushedAt(nodes, order, outputs, step, |nodes|)
  {
    hide LastUse, IsOutput, ReadsNode;
    var until := UsedUntil(nodes, order, outputs);
    lists := seq(|order| + 1, _ => []);
    var n := 0;
    while n < |until|
      invariant 0 <= n <= |until| == |nodes| && |lists| == |order| + 1
      invariant forall s | 0 <= s <= |order| :: lists[s] == FlushedAt(nodes, order, outputs, s, n)
    {
      assert until[n] == NeededUntil(nodes, order, outputs, n) <= |order|;
      if until[n] != 0 && nodes[n].konst.None? {
        lists := lists[until[n] := lists[until[n]] + [n]];
      }
      n := n + 1;
    }
  }

  lemma OneMoreOutput(outputs: seq<Outlet>, j: nat)
    requires j < |outputs|
    ensures forall n :: IsOutput(outputs[..j + 1], n) <==> IsOutput(outputs[..j], n) || n == outputs[j].node
  {
    forall n
      ensures IsOutput(outputs[..j + 1], n) <==> IsOutput(outputs[..j], n) || n == outputs[j].node
    {
      if IsOutput(outputs[..j], n) {
        var i :| 0 <= i < j && outputs[..j][i].node == n;
        assert outputs[..j + 1][i].node == n;
      }
      if n == outputs[j].node {
        assert outputs[..j + 1][j].node == n;
      }
      if IsOutput(outputs[..j + 1], n) && n != outputs[j].node {
        var i :| 0 <= i < j + 1 && outputs[..j + 1][i].node == n;
        assert outputs[..j][i].node == n;
      }
    }
  }
}
