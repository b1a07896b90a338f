/** A runnable answering to the contract its model had before it was given a batch
    axis: which interfaces qualify, and the axis added and dropped around a run. */
module Unbatched {
  import opened Outcomes
  import opened Tensors
  import opened Calls

  datatype FactDim = Known(extent: nat) | Symbol(sym: nat) | Expression(id: nat)

  type Fact = seq<FactDim>

  /** What the runnable answers to, and which inputs and outputs carry the axis. */
  datatype Interface = Interface(inputs: seq<Fact>, outputs: seq<Fact>, batchIn: seq<bool>, batchOut: seq<bool>)

  /** One fact against what it was before: as it was, or with the common symbol in
      front, which the first such fact settles. */
  function Compared(fact: Fact, before: Fact, batch: Option<FactDim>): Option<(bool, Option<FactDim>)> {
    if fact == before then Some((false, batch))
    else if fact == [] || !fact[0].Symbol? || fact[1..] != before then None
    else
      var settled := if batch.Some? then batch.value else fact[0];
      if settled != fact[0] then None else Some((true, Some(settled)))
  }

  /** The facts so far, in order. */
  function ComparedAll(facts: seq<Fact>, befores: seq<Fact>, batch: Option<FactDim>): (r: Option<(seq<bool>, Option<FactDim>)>)
    requires |facts| == |befores|
    ensures r.Some? ==> |r.value.0| == |facts|
  {
    if facts == [] then Some(([], batch))
    else
      var last := |facts| - 1;
      match ComparedAll(facts[..last], befores[..last], batch)
      case None => None
      case Some((flags, settled)) =>
        match Compared(facts[last], befores[last], settled)
        case None => None
        case Some((flag, after)) => Some((flags + [flag], after))
  }

  function Of(ins: seq<Fact>, outs: seq<Fact>, originalIns: seq<Fact>, originalOuts: seq<Fact>): Option<Interface> {
    if |ins| != |originalIns| || |outs| != |originalOuts| then None
    else
      match ComparedAll(ins, originalIns, None)
      case None => None
      case Some((batchIn, settled)) =>
        match ComparedAll(outs, originalOuts, settled)
        case None => None
        case Some((batchOut, batch)) =>
          if batch.None? then None else Some(Interface(originalIns, originalOuts, batchIn, batchOut))
  }

  method CompareFacts(facts: seq<Fact>, befores: seq<Fact>, batch: Option<FactDim>)
    returns (r: Option<(seq<Fact>, seq<bool>, Option<FactDim>)>)
    requires |facts| == |befores|
    ensures var all := ComparedAll(facts, befores, batch);
            r == if all.Some? then Some((befores, all.value.0, all.value.1)) else None
  {
    var kept: seq<Fact>, flags: seq<bool>, settled := [], [], batch;
    var ix := 0;
    while ix < |facts|
      invariant 0 <= ix <= |facts| && kept == befores[..ix]
      invariant ComparedAll(facts[..ix], befores[..ix], batch) == Some((flags, settled))
    {
      var one := Compared(facts[ix], befores[ix], settled);
      assert facts[..ix + 1][..ix] == facts[..ix] && befores[..ix + 1][..ix] == befores[..ix];
      if one.None? {
        ComparisonStaysRefused(facts, befores, batch, ix + 1, |facts|);
        assert facts[..|facts|] == facts && befores[..|facts|] == befores;
        return None;
      }
      kept := kept + [if one.value.0 then facts[ix][1..] else facts[ix]];
      flags, settled := flags + [one.value.0], one.value.1;
      ix := ix + 1;
    }
    assert facts[..ix] == facts && befores[..ix] == befores;
    r := Some((kept, flags, settled));
  }

  lemma {:induction false} ComparisonStaysRefused(facts: seq<Fact>, befores: seq<Fact>, batch: Option<FactDim>, j: nat, k: nat)
    requires |facts| == |befores| && j <= k <= |facts|
    requires ComparedAll(facts[..j], befores[..j], batch).None?
    ensures ComparedAll(facts[..k], befores[..k], batch).None?
    decreases k
  {
    if j < k {
      ComparisonStaysRefused(facts, befores, batch, j, k - 1);
      assert facts[..k][..k - 1] == facts[..k - 1] && befores[..k][..k - 1] == befores[..k - 1];
    }
  }

  /** `Interface::of`. */
  method InterfaceOf(ins: seq<Fact>, outs: seq<Fact>, originalIns: seq<Fact>, originalOuts: seq<Fact>)
    returns (r: Option<Interface>)
    ensures r == Of(ins, outs, originalIns, originalOuts)
  {
    if |ins| != |originalIns| || |outs| != |originalOuts| {
      return None;
    }
    var inputs := CompareFacts(ins, originalIns, None);
    if inputs.None? {
      return None;
    }
    var outputs := CompareFacts(outs, originalOuts, inputs.value.2);
    if outputs.None? || outputs.value.2.None? {
      return None;
    }
    r := Some(Interface(inputs.value.0, outputs.value.0, inputs.value.1, outputs.value.1));
  }

  // ---- Which interfaces qualify ----

  /** The fact is what it was, or what it was with `batch` in front. */
  predicate Prepended(fact: Fact, before: Fact, batch: FactDim, flag: bool) {
    fact == if flag then [batch] + before else before
  }

  predicate AllPrepended(facts: seq<Fact>, befores: seq<Fact>, batch: FactDim, flags: seq<bool>) {
    |facts| == |befores| == |flags|
    && forall ix | 0 <= ix < |facts| :: Prepended(facts[ix], befores[ix], batch, flags[ix])
  }

  /** One symbol in front of some of the facts and no other change. */
  ghost predicate Qualifies(ins: seq<Fact>, outs: seq<Fact>, originalIns: seq<Fact>, originalOuts: seq<Fact>,
                            batch: FactDim, batchIn: seq<bool>, batchOut: seq<bool>)
  {
    && batch.Symbol?
    && AllPrepended(ins, originalIns, batch, batchIn)
    && AllPrepended(outs, originalOuts, batch, batchOut)
    && (true in batchIn || true in batchOut)
  }

  /** What was settled is in front of every flagged fact, and is what was settled before. */
  lemma {:induction false} ComparedSoundly(facts: seq<Fact>, befores: seq<Fact>, batch: Option<FactDim>)
    requires |facts| == |befores| && ComparedAll(facts, befores, batch).Some?
    requires batch.Some? ==> batch.value.Symbol?
    ensures var (flags, settled) := ComparedAll(facts, befores, batch).value;
            && (batch.Some? ==> settled == batch)
            && (settled.Some? ==> settled.value.Symbol? && AllPrepended(facts, befores, settled.value, flags))
            && (settled.None? ==> batch.None? && forall ix | 0 <= ix < |facts| :: !flags[ix] && facts[ix] == befores[ix])
            && (settled.Some? && batch.None? ==> true in flags)
  {
    if facts != [] {
      var last := |facts| - 1;
      ComparedSoundly(facts[..last], befores[..last], batch);
    }
  }

  lemma {:induction false} ComparedCompletely(facts: seq<Fact>, befores: seq<Fact>, batch: Option<FactDim>, symbol: FactDim,
                                              flags: seq<bool>)
    requires symbol.Symbol? && AllPrepended(facts, befores, symbol, flags) && (batch == None || batch == Some(symbol))
    ensures ComparedAll(facts, befores, batch) == Some((flags, if true in flags then Some(symbol) else batch))
  {
    if facts != [] {
      var last := |facts| - 1;
      ComparedCompletely(facts[..last], befores[..last], batch, symbol, flags[..last]);
      assert Prepended(facts[last], befores[last], symbol, flags[last]);
      assert flags == flags[..last] + [flags[last]];
      assert flags[last] ==> facts[last][1..] == befores[last];
    }
  }

  /** Accepted are exactly the interfaces that are the original's up to one common symbol
      prepended to some of the facts, and the flags say to which. */
  lemma AcceptsExactly(ins: seq<Fact>, outs: seq<Fact>, originalIns: seq<Fact>, originalOuts: seq<Fact>)
    ensures var r := Of(ins, outs, originalIns, originalOuts);
            && (r.Some? <==> exists batch, batchIn, batchOut ::
                               Qualifies(ins, outs, originalIns, originalOuts, batch, batchIn, batchOut))
            && (forall batch, batchIn, batchOut | Qualifies(ins, outs, originalIns, originalOuts, batch, batchIn, batchOut) ::
                  r == Some(Interface(originalIns, originalOuts, batchIn, batchOut)))
  {
    var r := Of(ins, outs, originalIns, originalOuts);
    if r.Some? {
      var (batchIn, settled) := ComparedAll(ins, originalIns, None).value;
      var (batchOut, batch) := ComparedAll(outs, originalOuts, settled).value;
      ComparedSoundly(ins, originalIns, None);
      ComparedSoundly(outs, originalOuts, settled);
      assert Qualifies(ins, outs, originalIns, originalOuts, batch.value, batchIn, batchOut);
    }
    forall batch, batchIn, batchOut | Qualifies(ins, outs, originalIns, originalOuts, batch, batchIn, batchOut)
      ensures r == Some(Interface(originalIns, originalOuts, batchIn, batchOut))
    {
      ComparedCompletely(ins, originalIns, None, batch, batchIn);
      ComparedCompletely(outs, originalOuts, if true in batchIn then Some(batch) else None, batch, batchOut);
    }
  }

  // ---- Adding and dropping the axis ----

  /** `Tensor::remove_axis(0)`: refuses an axis which is not one. */
  function DropAxis0(t: Tensor): Option<Tensor> {
    if t.Rows? && |t.rows| == 1 then Some(t.rows[0]) else None
  }

  /** `reshape_batched` with `insert_axis`. */
  function AxisAdded(values: Values, batched: seq<bool>): (r: Values)
    ensures |r| == |values|
    ensures forall ix | 0 <= ix < |values| :: r[ix] == if Batched(batched, ix) then InsertAxis0(values[ix]) else values[ix]
  {
    seq(|values|, ix requires 0 <= ix < |values| => if Batched(batched, ix) then InsertAxis0(values[ix]) else values[ix])
  }

  /** `reshape_batched` with `remove_axis`. */
  function AxisDropped(values: Values, batched: seq<bool>): Option<Values>
  {
    if values == [] then Some([])
    else
      var last := |values| - 1;
      var one := if Batched(batched, last) then DropAxis0(values[last]) else Some(values[last]);
      match (AxisDropped(values[..last], batched), one)
      case (Some(rest), Some(x)) => Some(rest + [x])
      case _ => None
  }

  lemma {:induction false} DroppedPointwise(values: Values, batched: seq<bool>, r: Values)
    requires |r| == |values|
    requires forall ix | 0 <= ix < |values| ::
      (if Batched(batched, ix) then DropAxis0(values[ix]) else Some(values[ix])) == Some(r[ix])
    ensures AxisDropped(values, batched) == Some(r)
  {
    if values != [] {
      var last := |values| - 1;
      DroppedPointwise(values[..last], batched, r[..last]);
      assert r == r[..last] + [r[last]];
    }
  }

  /** Value `ix` without the axis, if it carried it. */
  predicate DroppedAt(values: Values, batched: seq<bool>, r: Values, ix: nat)
    requires ix < |values| == |r|
  {
    if Batched(batched, ix) then values[ix].Rows? && values[ix].rows == [r[ix]] else r[ix] == values[ix]
  }

  /** The axis is dropped exactly where it is of extent one on every value flagged. */
  lemma {:induction false} DropsExactly(values: Values, batched: seq<bool>, r: Values)
    ensures AxisDropped(values, batched) == Some(r)
            <==> |r| == |values| && forall ix | 0 <= ix < |values| :: DroppedAt(values, batched, r, ix)
  {
    if |r| == |values| && forall ix | 0 <= ix < |values| :: DroppedAt(values, batched, r, ix) {
      forall ix | 0 <= ix < |values|
        ensures (if Batched(batched, ix) then DropAxis0(values[ix]) else Some(values[ix])) == Some(r[ix])
      {
        assert DroppedAt(values, batched, r, ix);
      }
      DroppedPointwise(values, batched, r);
    }
    if AxisDropped(values, batched) == Some(r) {
      DroppedSo(values, batched);
    }
  }

  lemma {:induction false} DroppedSo(values: Values, batched: seq<bool>)
    requires AxisDropped(values, batched).Some?
    ensures var r := AxisDropped(values, batched).value;
            |r| == |values| && forall ix | 0 <= ix < |values| :: DroppedAt(values, batched, r, ix)
  {
    if values != [] {
      var last := |values| - 1;
      DroppedSo(values[..last], batched);
      var r, before := AxisDropped(values, batched).value, AxisDropped(values[..last], batched).value;
      forall ix | 0 <= ix < last
        ensures DroppedAt(values, batched, r, ix)
      {
        assert DroppedAt(values[..last], batched, before, ix);
      }
      if Batched(batched, last) {
        assert values[last].rows == [values[last].rows[0]];
      }
    }
  }

  /** Dropping the axis undoes adding it. */
  lemma DropUndoesAdd(values: Values, batched: seq<bool>)
    ensures AxisDropped(AxisAdded(values, batched), batched) == Some(values)
  {
    DroppedPointwise(AxisAdded(values, batched), batched, values);
  }
}
