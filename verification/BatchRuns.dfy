/** Running the batched graph on stacked inputs is stacking the runs of the original,
    one per seat. */
module BatchRuns {
  import opened Outcomes
  import opened Tensors
  import opened Indexing
  import opened Columns
  import opened AxisOps
  import opened EinSums
  import opened NaryOps
  import opened Graphs
  import opened Batchify

  function Uniform(m: nat, flag: bool): (r: seq<bool>)
    ensures |r| == m && forall s | 0 <= s < m :: r[s] == flag
  {
    if m == 0 then [] else [flag] + Uniform(m - 1, flag)
  }

  // ---- Rank pads, on values ----

  function PadValue(n: nat, y: Tensor, spread: bool): Option<Tensor> {
    match ApplyAxis(Add(0), y)
    case None => None
    case Some(ranked) => if spread then Spread(n, ranked) else Some(ranked)
  }

  function PadValues(n: nat, ys: seq<Tensor>, pad: seq<nat>, spread: bool): (r: Option<seq<Tensor>>)
    requires forall slot | slot in pad :: slot < |ys|
    ensures r.Some? ==> |r.value| == |ys|
    decreases |pad|
  {
    if pad == [] then Some(ys)
    else
      assert pad[0] in pad && forall x | x in pad[1..] :: x in pad;
      match PadValue(n, ys[pad[0]], spread)
      case None => None
      case Some(y) => PadValues(n, ys[pad[0] := y], pad[1..], spread)
  }

  predicate Distinct(pad: seq<nat>) {
    forall i, j | 0 <= i < j < |pad| :: pad[i] != pad[j]
  }

  lemma {:induction false} PadsPointwise(n: nat, ys: seq<Tensor>, pad: seq<nat>, spread: bool, zs: seq<Tensor>)
    requires |zs| == |ys| && Distinct(pad) && forall slot | slot in pad :: slot < |ys|
    requires forall slot | slot in pad :: PadValue(n, ys[slot], spread) == Some(zs[slot])
    requires forall s | 0 <= s < |ys| && s !in pad :: zs[s] == ys[s]
    ensures PadValues(n, ys, pad, spread) == Some(zs)
    decreases |pad|
  {
    hide PadValue;
    if pad == [] {
      assert zs == ys;
    } else {
      assert pad[0] in pad && forall x | x in pad[1..] :: x in pad;
      var ys' := ys[pad[0] := zs[pad[0]]];
      assert Distinct(pad[1..]);
      assert pad == [pad[0]] + pad[1..];
      PadsPointwise(n, ys', pad[1..], spread, zs);
    }
  }

  lemma {:induction false} PadsOfOuts(from: nat, outputs: nat, flags: seq<bool>)
    ensures Pads(OutsFrom(from, outputs, Add(0)), flags) == []
    decreases outputs - from
  {
    if from < outputs {
      PadsOfOuts(from + 1, outputs, flags);
      assert OutsFrom(from, outputs, Add(0))[1..] == OutsFrom(from + 1, outputs, Add(0));
    }
  }

  /** The slots an op changing every wire has padded: the unbatched ones, once each. */
  lemma {:induction false} PadsEverywhere(from: nat, flags: seq<bool>, outputs: nat)
    ensures var r := Pads(Everywhere(from, |flags|, outputs, Add(0)), flags);
            && (forall s | s in r :: from <= s) && Distinct(r)
            && forall s | from <= s < |flags| :: s in r <==> !flags[s]
    decreases |flags| - from
  {
    if from < |flags| {
      PadsEverywhere(from + 1, flags, outputs);
      var rest := Everywhere(from + 1, |flags|, outputs, Add(0));
      assert Everywhere(from, |flags|, outputs, Add(0))[1..] == rest;
      var r := Pads(Everywhere(from, |flags|, outputs, Add(0)), flags);
      var sofar := Pads(rest, flags);
      assert r == (if !flags[from] then [from] else []) + sofar;
      if !flags[from] {
        forall i, j | 0 <= i < j < |r|
          ensures r[i] != r[j]
        {
          assert r[j] == sofar[j - 1] && sofar[j - 1] in sofar;
          assert i > 0 ==> r[i] == sofar[i - 1];
        }
      } else {
        assert r == sofar;
      }
    } else {
      PadsOfOuts(0, outputs, flags);
    }
  }

  lemma {:induction false} OutsReach(from: nat, outputs: nat, slot: nat)
    requires from <= slot < outputs
    ensures (Out(slot), Add(0)) in OutsFrom(from, outputs, Add(0))
    decreases outputs - from
  {
    if from < slot {
      OutsReach(from + 1, outputs, slot);
    }
  }

  lemma {:induction false} EverywhereReaches(from: nat, arity: nat, outputs: nat, slot: nat)
    requires slot < outputs
    ensures (Out(slot), Add(0)) in Everywhere(from, arity, outputs, Add(0))
    decreases arity - from
  {
    if from < arity {
      EverywhereReaches(from + 1, arity, outputs, slot);
    } else {
      OutsReach(0, outputs, slot);
    }
  }

  // ---- One hosted op ----

  /** What a hosted op reads: the gathered inputs, padded. */
  function HostReads(hosted: Hosted, seats: seq<seq<Tensor>>, flags: seq<bool>): Option<seq<Tensor>>
    requires |seats| > 0 && (forall xs | xs in seats :: |xs| == |flags|) && forall slot | slot in hosted.pad :: slot < |flags|
  {
    PadValues(|seats|, Gathered(seats, flags), hosted.pad, hosted.spread)
  }

  function HostOp(hosted: Hosted, op: Op): Op {
    if hosted.op.Some? then hosted.op.value else op
  }

  /** The seats' inputs and what the op answers them, one seat at a time. */
  ghost predicate Answered(lib: Library, op: Op, outputs: nat, flags: seq<bool>, seats: seq<seq<Tensor>>,
                           outs: seq<seq<Tensor>>)
  {
    && Seated(seats, flags) && true in flags && |outs| == |seats|
    && forall i | 0 <= i < |seats| :: |outs[i]| == outputs && Eval(lib, |seats|, op, seats[i]) == Some(outs[i])
  }

  /** The hosted op answers the gathered inputs with the stacked answers. */
  ghost predicate Lifted(lib: Library, op: Op, outputs: nat, hosted: Hosted, flags: seq<bool>, seats: seq<seq<Tensor>>,
                         outs: seq<seq<Tensor>>)
    requires |seats| > 0 && (forall xs | xs in seats :: |xs| == |flags|) && forall slot | slot in hosted.pad :: slot < |flags|
  {
    && Seated(outs, Uniform(outputs, true))
    && HostReads(hosted, seats, flags).Some?
    && Eval(lib, |seats|, HostOp(hosted, op), HostReads(hosted, seats, flags).value)
       == Some(Gathered(outs, Uniform(outputs, true)))
  }

  /** The library's op does what its answer says: whenever it says it carries a leading
      axis through to every output, stacked inputs give the stacked outputs. */
  ghost predicate Truthful(lib: Library, name: nat, outputs: nat) {
    forall flags, seats, outs, hosted ::
      Host(lib, Other(name), outputs, flags) == Some(hosted) && Answered(lib, Other(name), outputs, flags, seats, outs)
      ==> Lifted(lib, Other(name), outputs, hosted, flags, seats, outs)
  }

  lemma OneOutput(outs: seq<seq<Tensor>>, ts: seq<Tensor>)
    requires |outs| == |ts| && Alike(ts) && forall i | 0 <= i < |outs| :: outs[i] == [ts[i]]
    ensures Seated(outs, Uniform(1, true)) && Gathered(outs, Uniform(1, true)) == [Stack(ts)]
  {
    assert Column(outs, 0) == ts;
  }

  lemma LiftedBy(lib: Library, op: Op, outputs: nat, hosted: Hosted, flags: seq<bool>, seats: seq<seq<Tensor>>,
                 outs: seq<seq<Tensor>>, ys: seq<Tensor>)
    requires |seats| > 0 && (forall xs | xs in seats :: |xs| == |flags|) && forall slot | slot in hosted.pad :: slot < |flags|
    requires Seated(outs, Uniform(outputs, true)) && HostReads(hosted, seats, flags) == Some(ys)
    requires Eval(lib, |seats|, HostOp(hosted, op), ys) == Some(Gathered(outs, Uniform(outputs, true)))
    ensures Lifted(lib, op, outputs, hosted, flags, seats, outs)
  {}

  lemma EvalAxis(lib: Library, n: nat, edit: AxisOp, x: Tensor)
    requires ApplyAxis(edit, x).Some?
    ensures Eval(lib, n, Axis(edit), [x]) == Some([ApplyAxis(edit, x).value])
  {
    hide ApplyAxis, Applies, IsTable;
  }

  lemma AxisAnswers(lib: Library, edit: AxisOp, outputs: nat, flags: seq<bool>, seats: seq<seq<Tensor>>,
                    outs: seq<seq<Tensor>>)
    requires Answered(lib, Axis(edit), outputs, flags, seats, outs)
    ensures outputs == 1 && flags == [true]
    ensures forall i | 0 <= i < |seats| ::
      |outs[i]| == 1 == |seats[i]| && ApplyAxis(edit, seats[i][0]) == Some(outs[i][0])
  {
    hide ApplyAxis, Applies, IsTable, ChangedShape, Canonical, Reader, Alike, Same, Column;
    assert |outs[0]| == outputs && Eval(lib, |seats|, Axis(edit), seats[0]) == Some(outs[0]);
    assert |seats[0]| == |flags|;
  }

  lemma AxisHosted(lib: Library, edit: AxisOp, outputs: nat, flags: seq<bool>, seats: seq<seq<Tensor>>,
                   outs: seq<seq<Tensor>>)
    requires Answered(lib, Axis(edit), outputs, flags, seats, outs)
    ensures Lifted(lib, Axis(edit), outputs, Host(lib, Axis(edit), outputs, flags).value, flags, seats, outs)
  {
    hide Reader, ApplyAxis, IsTable, ChangedShape, Canonical, Shifted, Alike, Same;
    AxisAnswers(lib, edit, outputs, flags, seats, outs);
    hide Eval, Gathered, Lifted;
    var column, ts := Column(seats, 0), Column(outs, 0);
    AxisOpLifts(edit, column, ts);
    OneOutput(outs, ts);
    var hosted := Host(lib, Axis(edit), outputs, flags).value;
    var ys := Gathered(seats, flags);
    assert ys == [Stack(column)];
    assert HostReads(hosted, seats, flags) == Some(ys);
    EvalAxis(lib, |seats|, Shifted(edit), Stack(column));
    LiftedBy(lib, Axis(edit), outputs, hosted, flags, seats, outs, ys);
  }

  lemma EinSumAnswers(lib: Library, sum: EinSum, outputs: nat, flags: seq<bool>, seats: seq<seq<Tensor>>,
                      outs: seq<seq<Tensor>>)
    requires Answered(lib, Einsum(sum), outputs, flags, seats, outs)
    ensures outputs == 1
    ensures forall i | 0 <= i < |seats| :: |outs[i]| == 1 && ApplyEinSum(sum, seats[i]) == Some(outs[i][0])
  {
    hide ApplyEinSum, Alike, Same;
    assert |outs[0]| == outputs && Eval(lib, |seats|, Einsum(sum), seats[0]) == Some(outs[0]);
  }

  lemma EinSumHosted(lib: Library, sum: EinSum, outputs: nat, flags: seq<bool>, seats: seq<seq<Tensor>>,
                     outs: seq<seq<Tensor>>)
    requires Answered(lib, Einsum(sum), outputs, flags, seats, outs) && |flags| == |sum.ins|
    ensures Host(lib, Einsum(sum), outputs, flags).Some?
    ensures Lifted(lib, Einsum(sum), outputs, Host(lib, Einsum(sum), outputs, flags).value, flags, seats, outs)
  {
    hide ApplyEinSum, IsTable, Elements, OutShape, Reaches, Alike, Same, BatchedEinSum, Gathered, Lifted;
    EinSumAnswers(lib, sum, outputs, flags, seats, outs);
    var ts := Column(outs, 0);
    EinSumLifts(sum, flags, seats, ts);
    OneOutput(outs, ts);
    var hosted := Host(lib, Einsum(sum), outputs, flags).value;
    var ys := Gathered(seats, flags);
    assert HostReads(hosted, seats, flags) == Some(ys);
    assert Eval(lib, |seats|, HostOp(hosted, Einsum(sum)), ys) == Some([Stack(ts)]);
    LiftedBy(lib, Einsum(sum), outputs, hosted, flags, seats, outs, ys);
  }

  lemma PadsOfEach(seats: seq<seq<Tensor>>, flags: seq<bool>, outputs: nat)
    requires Seated(seats, flags)
    ensures PadValues(|seats|, Gathered(seats, flags), Pads(Everywhere(0, |flags|, outputs, Add(0)), flags), false)
            == Some(Padded(seats, flags))
  {
    hide ApplyAxis, Applies, Everywhere;
    var ys := Gathered(seats, flags);
    PadsEverywhere(0, flags, outputs);
    var pad := Pads(Everywhere(0, |flags|, outputs, Add(0)), flags);
    forall slot | slot in pad
      ensures PadValue(|seats|, ys[slot], false) == Some(Padded(seats, flags)[slot])
    {
      assert Same(Column(seats, slot)) && Column(seats, slot)[0] == seats[0][slot];
      AddZeroInserts(ys[slot]);
    }
    PadsPointwise(|seats|, ys, pad, false, Padded(seats, flags));
  }

  lemma EachAnswers(lib: Library, kernel: seq<int> -> int, outputs: nat, flags: seq<bool>, seats: seq<seq<Tensor>>,
                    outs: seq<seq<Tensor>>)
    requires Answered(lib, Each(kernel), outputs, flags, seats, outs)
    ensures outputs == 1
    ensures forall i | 0 <= i < |seats| :: |outs[i]| == 1 && ApplyEach(kernel, seats[i]) == Some(outs[i][0])
  {
    hide ApplyEach, Alike, Same;
    assert |outs[0]| == outputs && Eval(lib, |seats|, Each(kernel), seats[0]) == Some(outs[0]);
  }

  lemma EverywhereCarries(arity: nat, outputs: nat, substitute: Option<Op>)
    ensures CarriesThrough(Consequence(substitute, Everywhere(0, arity, outputs, Add(0))), outputs)
  {
    forall slot | 0 <= slot < outputs
      ensures (Out(slot), Add(0)) in Everywhere(0, arity, outputs, Add(0))
    {
      EverywhereReaches(0, arity, outputs, slot);
    }
  }

  lemma HostOfEach(lib: Library, kernel: seq<int> -> int, outputs: nat, flags: seq<bool>)
    ensures Host(lib, Each(kernel), outputs, flags)
            == Some(Hosted(None, Pads(Everywhere(0, |flags|, outputs, Add(0)), flags), false))
  {
    hide CarriesThrough;
    EverywhereCarries(|flags|, outputs, None);
  }

  lemma HostOfConcat(lib: Library, axis: nat, outputs: nat, flags: seq<bool>)
    ensures Host(lib, Concat(axis), outputs, flags)
            == Some(Hosted(Some(Concat(axis + 1)), Pads(Everywhere(0, |flags|, outputs, Add(0)), flags), true))
  {
    hide CarriesThrough;
    EverywhereCarries(|flags|, outputs, Some(Concat(axis + 1)));
  }

  lemma EachHosted(lib: Library, kernel: seq<int> -> int, outputs: nat, flags: seq<bool>, seats: seq<seq<Tensor>>,
                   outs: seq<seq<Tensor>>)
    requires Answered(lib, Each(kernel), outputs, flags, seats, outs)
    ensures Host(lib, Each(kernel), outputs, flags).Some?
    ensures Lifted(lib, Each(kernel), outputs, Host(lib, Each(kernel), outputs, flags).value, flags, seats, outs)
  {
    hide ApplyEach, IsTable, BroadcastShape, EachElement, Alike, Same, Everywhere, Pads, Padded, PadValues;
    hide Gathered, Lifted, Host;
    EachAnswers(lib, kernel, outputs, flags, seats, outs);
    var ts := Column(outs, 0);
    EachLifts(kernel, flags, seats, ts);
    PadsOfEach(seats, flags, outputs);
    OneOutput(outs, ts);
    HostOfEach(lib, kernel, outputs, flags);
    LiftedBy(lib, Each(kernel), outputs, Host(lib, Each(kernel), outputs, flags).value, flags, seats, outs,
             Padded(seats, flags));
  }

  lemma PadsOfConcat(seats: seq<seq<Tensor>>, flags: seq<bool>, outputs: nat)
    requires Seated(seats, flags)
    ensures PadValues(|seats|, Gathered(seats, flags), Pads(Everywhere(0, |flags|, outputs, Add(0)), flags), true)
            == Some(AllStacked(seats, flags))
  {
    hide ApplyAxis, Applies, Everywhere, Spread, InsertAxis0, AllStacked;
    var ys := Gathered(seats, flags);
    PadsEverywhere(0, flags, outputs);
    var pad := Pads(Everywhere(0, |flags|, outputs, Add(0)), flags);
    forall slot | slot in pad
      ensures PadValue(|seats|, ys[slot], true) == Some(AllStacked(seats, flags)[slot])
    {
      assert Same(Column(seats, slot)) && Column(seats, slot)[0] == seats[0][slot];
      AddZeroInserts(ys[slot]);
      SpreadCopies(seats, flags, slot);
    }
    PadsPointwise(|seats|, ys, pad, true, AllStacked(seats, flags));
  }

  lemma ConcatAnswers(lib: Library, axis: nat, outputs: nat, flags: seq<bool>, seats: seq<seq<Tensor>>,
                      outs: seq<seq<Tensor>>)
    requires Answered(lib, Concat(axis), outputs, flags, seats, outs)
    ensures outputs == 1
    ensures forall i | 0 <= i < |seats| :: |outs[i]| == 1 && ApplyConcat(axis, seats[i]) == Some(outs[i][0])
  {
    hide ApplyConcat, Alike, Same;
    assert |outs[0]| == outputs && Eval(lib, |seats|, Concat(axis), seats[0]) == Some(outs[0]);
  }

  lemma ConcatHosted(lib: Library, axis: nat, outputs: nat, flags: seq<bool>, seats: seq<seq<Tensor>>,
                     outs: seq<seq<Tensor>>)
    requires Answered(lib, Concat(axis), outputs, flags, seats, outs)
    ensures Host(lib, Concat(axis), outputs, flags).Some?
    ensures Lifted(lib, Concat(axis), outputs, Host(lib, Concat(axis), outputs, flags).value, flags, seats, outs)
  {
    hide ApplyConcat, IsTable, ConcatShape, ConcatElement, Alike, Same, Everywhere, Pads, AllStacked, PadValues;
    hide Gathered, Lifted, Host;
    ConcatAnswers(lib, axis, outputs, flags, seats, outs);
    var ts := Column(outs, 0);
    ConcatLifts(axis, flags, seats, ts);
    PadsOfConcat(seats, flags, outputs);
    OneOutput(outs, ts);
    HostOfConcat(lib, axis, outputs, flags);
    var hosted := Host(lib, Concat(axis), outputs, flags).value;
    assert HostReads(hosted, seats, flags) == Some(AllStacked(seats, flags));
    assert HostOp(hosted, Concat(axis)) == Concat(axis + 1);
    assert Eval(lib, |seats|, Concat(axis + 1), AllStacked(seats, flags)) == Some([Stack(ts)]);
    LiftedBy(lib, Concat(axis), outputs, hosted, flags, seats, outs, AllStacked(seats, flags));
  }

  /** Whatever op accepts the axis, hosting it stacks the seats' answers. */
  lemma HostLifts(lib: Library, op: Op, outputs: nat, hosted: Hosted, flags: seq<bool>, seats: seq<seq<Tensor>>,
                  outs: seq<seq<Tensor>>)
    requires Host(lib, op, outputs, flags) == Some(hosted) && Answered(lib, op, outputs, flags, seats, outs)
    requires op.Other? ==> Truthful(lib, op.name, outputs)
    ensures Lifted(lib, op, outputs, hosted, flags, seats, outs)
  {
    hide Lifted, Answered;
    match op {
      case Axis(edit) => AxisHosted(lib, edit, outputs, flags, seats, outs);
      case Einsum(sum) => EinSumHosted(lib, sum, outputs, flags, seats, outs);
      case Each(kernel) => EachHosted(lib, kernel, outputs, flags, seats, outs);
      case Concat(axis) => ConcatHosted(lib, axis, outputs, flags, seats, outs);
      case _ =>
    }
  }
}
