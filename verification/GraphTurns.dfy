/** What the original answers, and what a turn on the batchified graph answers and leaves
    bound, whatever its inputs. */
module GraphTurns {
  import opened Outcomes
  import opened Tensors
  import opened Graphs
  import opened GraphRuns
  import opened LanedGraphs

  /** Each of the nodes is given its own of `xs`, and no other node anything. */
  ghost predicate Feeds(ids: seq<nat>, xs: seq<Tensor>, given: map<nat, Tensor>) {
    && |ids| == |xs| && (forall id: nat :: id in given <==> id in ids)
    && forall j | 0 <= j < |ids| :: ids[j] in given && given[ids[j]] == xs[j]
  }

  predicate Distinct(ids: seq<nat>) {
    forall p, q | 0 <= p < q < |ids| :: ids[p] != ids[q]
  }

  lemma {:induction false} FeedKeys(ids: seq<nat>, xs: seq<Tensor>, k: nat)
    requires k <= |ids| && k <= |xs|
    ensures forall id: nat :: id in Feed(ids, xs, k) <==> id in ids[..k]
  {
    if k > 0 {
      FeedKeys(ids, xs, k - 1);
      assert ids[..k] == ids[..k - 1] + [ids[k - 1]];
    }
  }

  lemma FeedIs(ids: seq<nat>, xs: seq<Tensor>, given: map<nat, Tensor>)
    requires Distinct(ids) && Feeds(ids, xs, given)
    ensures Feed(ids, xs, |xs|) == given
  {
    var fed := Feed(ids, xs, |xs|);
    FeedKeys(ids, xs, |xs|);
    assert ids[..|xs|] == ids;
    forall id: nat | id in given
      ensures id in fed && fed[id] == given[id]
    {
      var j :| 0 <= j < |ids| && ids[j] == id;
      FeedAt(ids, xs, |xs|, j);
    }
    assert fed.Keys == given.Keys;
  }

  lemma InputsDiffer(m: Model)
    requires Batchable(m)
    ensures Distinct(m.ins) && Distinct(Interfaces(m)) && |Interfaces(m)| == |m.ins|
  {
    hide Batchable;
    forall p, q | 0 <= p < q < |m.ins|
      ensures Interfaces(m)[p] != Interfaces(m)[q]
    {
      InterfacesDiffer(m, p, q);
    }
    ModelInputsDiffer(m);
  }

  lemma ModelInputsDiffer(m: Model)
    requires Batchable(m)
    ensures Distinct(m.ins)
  {}

  /** The original runs exactly where there is a run of its graph on what it is fed, and
      answers what that carries on its outputs. */
  lemma AnswerExactly(m: Model, xs: seq<Tensor>, given: map<nat, Tensor>, ys: seq<Tensor>)
    requires Distinct(m.ins) && Feeds(m.ins, xs, given)
    ensures RunOriginal(m, 1, xs).Some? <==> exists vals :: IsRun(m.lib, 1, m.g, given, vals)
    ensures AnswerOf(m, xs) == Some(ys) <==> exists vals :: IsRun(m.lib, 1, m.g, given, vals) && Carry(vals, m.outs, ys)
  {
    hide Run, IsRun, Carry, Reads;
    FeedIs(m.ins, xs, given);
    forall vals
      ensures Run(m.lib, 1, m.g, given, |m.g|) == Some(vals) <==> IsRun(m.lib, 1, m.g, given, vals)
      ensures Reads(vals, m.outs) == Some(ys) <==> Carry(vals, m.outs, ys)
    {
      RunExactly(m.lib, 1, m.g, given, vals);
      ReadsCarry(vals, m.outs, ys);
    }
  }

  /** A turn of `n` seats on the batchified graph answers exactly what fits it and there is a
      run of it on, and what that run carries on its outputs. */
  lemma TurnExactly(m: Model, n: nat, xs: seq<Tensor>, given: map<nat, Tensor>, ys: seq<Tensor>)
    requires Batchable(m) && Feeds(Interfaces(m), xs, given)
    ensures RunTurn(m, n, xs) == Some(ys) <==>
      && Fit(m, xs, true, n)
      && exists vals :: IsRun(m.lib, n, m.target.nodes, given, vals) && Carry(vals, TargetOuts(m), ys)
  {
    hide Run, IsRun, Carry, Reads, Batchable, Fit;
    InputsDiffer(m);
    FeedIs(Interfaces(m), xs, given);
    var g := m.target.nodes;
    forall vals
      ensures Run(m.lib, n, g, given, |g|) == Some(vals) <==> IsRun(m.lib, n, g, given, vals)
      ensures Reads(vals, TargetOuts(m)) == Some(ys) <==> Carry(vals, TargetOuts(m), ys)
    {
      RunExactly(m.lib, n, g, given, vals);
      ReadsCarry(vals, TargetOuts(m), ys);
    }
  }

  // ---- Setting the inputs ----

  /** The first `k` inputs fit a turn of `n` seats, which no other width forbids. */
  predicate PassUpto(m: Model, left: Width, xs: seq<Tensor>, k: nat, n: nat)
    requires k <= |xs| == |m.ins|
  {
    (left.None? || left.value == n) && forall j | 0 <= j < k :: FitsAt(m, xs[j], j, n)
  }

  /** What the first `k` inputs leave the batch symbol bound to: what it was, or the rows of
      a flagged input among them. */
  predicate BoundBy(m: Model, left: Width, xs: seq<Tensor>, k: nat, after: Width)
    requires k <= |xs| == |m.ins|
  {
    if left.Some? then after == left
    else
      && (forall j | 0 <= j < k && InFlags(m)[j] :: xs[j].Rows? && after == Some(|xs[j].rows|))
      && ((forall j | 0 <= j < k :: !InFlags(m)[j]) ==> after == None)
  }

  /** Input `j` is the first that does not pass. It still binds the symbol where it is flagged
      and has an axis to be bound by. */
  predicate StopsAt(m: Model, left: Width, xs: seq<Tensor>, j: nat, after: Width)
    requires j < |xs| == |m.ins|
  {
    if left.None? && InFlags(m)[j] && xs[j].Rows? && forall i | 0 <= i < j :: !InFlags(m)[i]
    then after == Some(|xs[j].rows|)
    else BoundBy(m, left, xs, j, after)
  }

  lemma FitsFlagged(m: Model, x: Tensor, j: nat, n: nat)
    requires j < |m.ins| && InFlags(m)[j] && FitsAt(m, x, j, n)
    ensures x.Rows? && |x.rows| == n
  {
    LeadingRows(x, n, m.shapes[j]);
  }

  ghost predicate Passes(m: Model, left: Width, xs: seq<Tensor>, k: nat)
    requires k <= |xs| == |m.ins|
  {
    exists n: nat :: PassUpto(m, left, xs, k, n)
  }

  function WidthOr0(w: Width): nat {
    if w.Some? then w.value else 0
  }

  /** Inputs that pass do so at the width they leave, if any; at every width if none. */
  lemma PassWidth(m: Model, left: Width, xs: seq<Tensor>, k: nat, w: Width, n: nat)
    requires k <= |xs| == |m.ins| && BoundBy(m, left, xs, k, w)
    ensures PassUpto(m, left, xs, k, n) && w.Some? ==> n == w.value
    ensures PassUpto(m, left, xs, k, WidthOr0(w)) && w.None? ==> PassUpto(m, left, xs, k, n)
  {
    if PassUpto(m, left, xs, k, n) && w.Some? && left.None? {
      var j :| 0 <= j < k && InFlags(m)[j];
      FitsFlagged(m, xs[j], j, n);
    }
    if PassUpto(m, left, xs, k, WidthOr0(w)) && w.None? {
      forall j | 0 <= j < k
        ensures FitsAt(m, xs[j], j, n)
      {
        assert FitsAt(m, xs[j], j, 0);
        assert InFlags(m)[j] ==> w == Some(|xs[j].rows|);
      }
    }
  }

  lemma BoundOneMore(m: Model, left: Width, xs: seq<Tensor>, k: nat, w: Width)
    requires k < |xs| == |m.ins| && BoundBy(m, left, xs, k, w) && PassUpto(m, left, xs, k, WidthOr0(w))
    ensures var (after, ok) := SetWidth(m, w, xs[k], k);
            && (ok ==> BoundBy(m, left, xs, k + 1, after) && PassUpto(m, left, xs, k + 1, WidthOr0(after)))
            && (!ok ==> StopsAt(m, left, xs, k, after))
  {
    hide FitsAt;
    var (after, ok) := SetWidth(m, w, xs[k], k);
    PassWidth(m, left, xs, k, w, WidthOr0(after));
    if !InFlags(m)[k] {
      UnflaggedFits(m, xs[k], k, 0, WidthOr0(after));
    }
  }

  lemma UnflaggedFits(m: Model, x: Tensor, j: nat, n: nat, w: nat)
    requires j < |m.ins| && !InFlags(m)[j]
    ensures FitsAt(m, x, j, n) <==> FitsAt(m, x, j, w)
  {}

  lemma PassOneMore(m: Model, left: Width, xs: seq<Tensor>, k: nat, w: Width)
    requires k < |xs| == |m.ins| && BoundBy(m, left, xs, k, w) && Passes(m, left, xs, k + 1)
    ensures SetWidth(m, w, xs[k], k).1
  {
    hide FitsAt;
    var n: nat :| PassUpto(m, left, xs, k + 1, n);
    assert FitsAt(m, xs[k], k, n) && PassUpto(m, left, xs, k, n);
    PassWidth(m, left, xs, k, w, n);
    if InFlags(m)[k] {
      FitsFlagged(m, xs[k], k, n);
    } else {
      UnflaggedFits(m, xs[k], k, n, 0);
    }
  }

  lemma FewerPass(m: Model, left: Width, xs: seq<Tensor>, j: nat, k: nat)
    requires j <= k <= |xs| == |m.ins| && Passes(m, left, xs, k)
    ensures Passes(m, left, xs, j)
  {
    var n: nat :| PassUpto(m, left, xs, k, n);
    assert PassUpto(m, left, xs, j, n);
  }

  /** How far setting the inputs gets, and what it leaves bound. */
  lemma {:induction false} WidthsExactly(m: Model, left: Width, xs: seq<Tensor>, k: nat)
    requires k <= |xs| == |m.ins|
    ensures var (after, ok) := SetWidths(m, left, xs, k);
            && (ok <==> Passes(m, left, xs, k))
            && (ok ==> BoundBy(m, left, xs, k, after) && PassUpto(m, left, xs, k, WidthOr0(after)))
            && (!ok ==> exists j: nat ::
                  j < k && Passes(m, left, xs, j) && !Passes(m, left, xs, j + 1) && StopsAt(m, left, xs, j, after))
  {
    hide SetWidth, PassUpto, BoundBy, StopsAt, Passes;
    if k == 0 {
      NothingSet(m, left, xs);
    } else {
      WidthsExactly(m, left, xs, k - 1);
      var (before, ok) := SetWidths(m, left, xs, k - 1);
      if ok {
        BoundOneMore(m, left, xs, k - 1, before);
        if Passes(m, left, xs, k) {
          PassOneMore(m, left, xs, k - 1, before);
        } else if SetWidths(m, left, xs, k).1 {
          SomePasses(m, left, xs, k, WidthOr0(SetWidths(m, left, xs, k).0));
        } else {
          var j: nat := k - 1;
          assert Passes(m, left, xs, j) && !Passes(m, left, xs, j + 1);
        }
      } else if Passes(m, left, xs, k) {
        FewerPass(m, left, xs, k - 1, k);
      }
    }
  }

  lemma NothingSet(m: Model, left: Width, xs: seq<Tensor>)
    requires |xs| == |m.ins|
    ensures BoundBy(m, left, xs, 0, left) && PassUpto(m, left, xs, 0, WidthOr0(left)) && Passes(m, left, xs, 0)
  {
    assert PassUpto(m, left, xs, 0, WidthOr0(left));
  }

  lemma SomePasses(m: Model, left: Width, xs: seq<Tensor>, k: nat, n: nat)
    requires k <= |xs| == |m.ins| && PassUpto(m, left, xs, k, n)
    ensures Passes(m, left, xs, k)
  {}

  /** A turn's run, whatever it is fed and whatever width was left bound: refused where its
      inputs pass at no width, with the symbol bound to what the ones before the first that
      does not had bound it to; otherwise the graph's own at the width they pass at, left
      bound if the graph does not answer. */
  lemma GraphRunExactly(m: Model, left: Width, xs: seq<Tensor>)
    requires true in InFlags(m)
    ensures var (after, outs) := GraphRun(m, left, xs);
            if |xs| != |m.ins| then after == left && outs == None
            else if Passes(m, left, xs, |xs|) then
              exists n: nat :: PassUpto(m, left, xs, |xs|, n) && outs == RunTurn(m, n, xs)
                               && after == if outs.Some? then None else Some(n)
            else
              && outs == None
              && exists j: nat :: j < |xs| && Passes(m, left, xs, j) && !Passes(m, left, xs, j + 1) && StopsAt(m, left, xs, j, after)
  {
    hide RunTurn, SetWidths, PassUpto, Passes, StopsAt;
    if |xs| == |m.ins| {
      WidthsExactly(m, left, xs, |xs|);
      if Passes(m, left, xs, |xs|) {
        var w := SetWidths(m, left, xs, |xs|).0;
        SomeWidth(m, left, xs, w);
        assert PassUpto(m, left, xs, |xs|, w.value);
      }
    }
  }

  lemma SomeWidth(m: Model, left: Width, xs: seq<Tensor>, w: Width)
    requires true in InFlags(m) && |xs| == |m.ins| && BoundBy(m, left, xs, |xs|, w)
    ensures w.Some?
  {
    var j :| 0 <= j < |InFlags(m)| && InFlags(m)[j];
  }
}
