/** Exactly-once answering: between turns the empty slots of the calls still
    waiting are the queued seats, one for one, and every other call the worker
    ever took has been answered once. */
module ExactlyOnce {
  import opened Outcomes
  import opened LaneTables
  import opened Calls
  import opened Queues
  import opened Turns

  /** How many of `seats` stand for slot `ix` of `call`. */
  function SeatCount(seats: seq<Seat>, call: nat, ix: nat): nat {
    if seats == [] then 0
    else (if seats[0].call == call && seats[0].ix == ix then 1 else 0) + SeatCount(seats[1..], call, ix)
  }

  lemma {:induction false} SeatCountConcat(a: seq<Seat>, b: seq<Seat>, call: nat, ix: nat)
    ensures SeatCount(a + b, call, ix) == SeatCount(a, call, ix) + SeatCount(b, call, ix)
  {
    if a == [] {
      assert a + b == b;
    } else {
      assert (a + b)[1..] == a[1..] + b;
      SeatCountConcat(a[1..], b, call, ix);
    }
  }

  lemma {:induction false} SeatCounted(seats: seq<Seat>, s: Seat)
    requires s in seats
    ensures SeatCount(seats, s.call, s.ix) >= 1
  {
    if s != seats[0] {
      SeatCounted(seats[1..], s);
    }
  }

  lemma {:induction false} SeatCountRetained(seats: seq<Seat>, dropped: nat, call: nat, ix: nat)
    ensures SeatCount(Retained(seats, dropped), call, ix) == if call == dropped then 0 else SeatCount(seats, call, ix)
  {
    if seats != [] {
      SeatCountRetained(seats[1..], dropped, call, ix);
      SeatCountConcat(if seats[0].call != dropped then [seats[0]] else [], Retained(seats[1..], dropped), call, ix);
    }
  }

  lemma {:induction false} SeatCountAdded(call: nat, lane: LaneId, inputs: seq<Values>, from: nat, c: nat, ix: nat)
    requires from <= |inputs|
    ensures SeatCount(SeatsOf(call, lane, inputs)[from..], c, ix) == if c == call && from <= ix < |inputs| then 1 else 0
    decreases |inputs| - from
  {
    if from < |inputs| {
      SeatCountAdded(call, lane, inputs, from + 1, c, ix);
      assert SeatsOf(call, lane, inputs)[from..][1..] == SeatsOf(call, lane, inputs)[from + 1..];
    }
  }

  /** The slot `ix` of `call` is still waiting for its seat. */
  predicate Open(q: QueueView, call: nat, ix: nat) {
    && call in q.completers
    && ix < |q.completers[call].served|
    && q.completers[call].served[ix].None?
  }

  function AnswerCount(outbox: seq<Answer>, call: nat): nat {
    if outbox == [] then 0
    else AnswerCount(outbox[..|outbox| - 1], call) + (if outbox[|outbox| - 1].call == call then 1 else 0)
  }

  lemma AnswerCountGrows(outbox: seq<Answer>, a: Answer, call: nat)
    ensures AnswerCount(outbox + [a], call) == AnswerCount(outbox, call) + (if a.call == call then 1 else 0)
  {
    assert (outbox + [a])[..|outbox|] == outbox;
  }

  lemma {:induction false} NeverAnswered(outbox: seq<Answer>, call: nat)
    requires forall a | a in outbox :: a.call != call
    ensures AnswerCount(outbox, call) == 0
  {
    if outbox != [] {
      NeverAnswered(outbox[..|outbox| - 1], call);
    }
  }

  /** Every id the worker handed out is either still waiting or answered once. */
  ghost predicate AnsweredOnce(q: QueueView) {
    && (forall call: nat | call < q.calls ::
          AnswerCount(q.outbox, call) == if call in q.completers then 0 else 1)
    && (forall call | call in q.completers :: call < q.calls)
    && (forall a | a in q.outbox :: a.call < q.calls)
  }

  /** A queued seat is never an orphan, an empty slot never lacks its seat, and no
      two seats stand for one slot. `flying` are the seats of a turn not landed
      yet, which may be orphans: another seat of their call may have failed. */
  predicate SlotMatched(flying: seq<Seat>, q: QueueView, call: nat, ix: nat) {
    var up, queued := SeatCount(flying, call, ix), SeatCount(q.seats, call, ix);
    && up + queued <= 1
    && (up + queued == 1 ==> call < q.calls)
    && (queued == 1 ==> Open(q, call, ix))
    && (up == 1 && call in q.completers ==> Open(q, call, ix))
    && (Open(q, call, ix) ==> up + queued == 1)
  }

  ghost predicate Matched(flying: seq<Seat>, q: QueueView) {
    && (forall call: nat, ix: nat :: SlotMatched(flying, q, call, ix))
    && (forall call | call in q.completers :: !IsFull(q.completers[call].served))
  }

  lemma MatchedFits(flying: seq<Seat>, q: QueueView)
    requires Matched(flying, q)
    ensures FitAll(q, flying) && FitAll(q, q.seats)
  {
    forall s | s in flying
      ensures Fits(q, s)
    {
      SeatCounted(flying, s);
      assert SlotMatched(flying, q, s.call, s.ix);
    }
    forall s | s in q.seats
      ensures Fits(q, s)
    {
      SeatCounted(q.seats, s);
      assert SlotMatched(flying, q, s.call, s.ix);
    }
  }

  // ---- Accepting a call ----

  lemma AnswerSent(q: QueueView, r: QueueView, a: Answer)
    requires AnsweredOnce(q) && r.outbox == q.outbox + [a]
    requires || (a.call in q.completers && r.completers == q.completers - {a.call} && r.calls == q.calls)
             || (a.call == q.calls && r.completers == q.completers && r.calls == q.calls + 1)
    ensures AnsweredOnce(r)
  {
    NeverAnswered(q.outbox, q.calls);
    forall call: nat
      ensures AnswerCount(r.outbox, call) == AnswerCount(q.outbox, call) + (if a.call == call then 1 else 0)
    {
      AnswerCountGrows(q.outbox, a, call);
    }
  }

  /** Accepting a call, or refusing it, keeps every slot matched. */
  lemma PushKeeps(q: QueueView, call: Call, batchIn: seq<bool>)
    requires Matched([], q) && AnsweredOnce(q)
    ensures Matched([], Pushed(q, call, batchIn)) && AnsweredOnce(Pushed(q, call, batchIn))
  {
    var r := Pushed(q, call, batchIn);
    match Explode(call.inputs, batchIn) {
      case Err(e) =>
        AnswerSent(q, r, Answer(q.calls, call.done, Err(e)));
        forall c: nat, ix: nat
          ensures SlotMatched([], r, c, ix)
        {
          assert SlotMatched([], q, c, ix);
        }
      case Ok(inputs) =>
        ExplodedSeats(call.inputs, batchIn);
        NeverAnswered(q.outbox, q.calls);
        var added := SeatsOf(q.calls, call.leased, inputs);
        forall c: nat, ix: nat
          ensures SlotMatched([], r, c, ix)
        {
          assert SlotMatched([], q, c, ix);
          SeatCountConcat(q.seats, added, c, ix);
          SeatCountAdded(q.calls, call.leased, inputs, 0, c, ix);
          assert added[0..] == added;
        }
        assert r.completers[q.calls].served[0].None?;
    }
  }

  // ---- Landing a turn ----

  /** One more seat landed: matched before it and after it. */
  lemma LandKeeps(seat: Seat, rest: seq<Seat>, q: QueueView, outputs: Result<Values>, batchOut: seq<bool>)
    requires Matched([seat] + rest, q) && AnsweredOnce(q)
    ensures Fits(q, seat)
    ensures Matched(rest, Landed(q, seat, outputs, batchOut))
    ensures AnsweredOnce(Landed(q, seat, outputs, batchOut))
  {
    MatchedFits([seat] + rest, q);
    assert seat in [seat] + rest;
    var r := Landed(q, seat, outputs, batchOut);
    assert SlotMatched([seat] + rest, q, seat.call, seat.ix);
    assert ([seat] + rest)[1..] == rest;
    forall c: nat, ix: nat
      ensures SlotMatched(rest, r, c, ix)
    {
      LandKeepsSlot(seat, rest, q, outputs, batchOut, c, ix);
    }
    if seat.call in q.completers && |r.outbox| > |q.outbox| {
      AnswerSent(q, r, r.outbox[|q.outbox|]);
    }
  }

  lemma LandKeepsSlot(seat: Seat, rest: seq<Seat>, q: QueueView, outputs: Result<Values>, batchOut: seq<bool>, c: nat, ix: nat)
    requires Matched([seat] + rest, q) && Fits(q, seat)
    ensures SlotMatched(rest, Landed(q, seat, outputs, batchOut), c, ix)
  {
    var r := Landed(q, seat, outputs, batchOut);
    assert SlotMatched([seat] + rest, q, c, ix);
    assert SlotMatched([seat] + rest, q, seat.call, seat.ix);
    assert ([seat] + rest)[1..] == rest;
    if seat.call in q.completers {
      if outputs.Err? {
        SeatCountRetained(q.seats, seat.call, c, ix);
      } else {
        var served := q.completers[seat.call].served[seat.ix := Some(outputs.value)];
        if c == seat.call && Open(q, c, ix) && ix != seat.ix {
          assert served[ix].None?;
        }
      }
    }
  }

  lemma {:induction false} LandAllKeeps(seats: seq<Seat>, q: QueueView, verdicts: seq<Result<Values>>, batchOut: seq<bool>)
    requires |seats| == |verdicts|
    requires Matched(seats, q) && AnsweredOnce(q)
    ensures FitAll(q, seats)
    ensures Matched([], LandAll(q, seats, verdicts, batchOut))
    ensures AnsweredOnce(LandAll(q, seats, verdicts, batchOut))
    decreases |seats|
  {
    MatchedFits(seats, q);
    if seats != [] {
      assert seats == [seats[0]] + seats[1..];
      LandKeeps(seats[0], seats[1..], q, verdicts[0], batchOut);
      LandAllKeeps(seats[1..], Landed(q, seats[0], verdicts[0], batchOut), verdicts[1..], batchOut);
    }
  }

  // ---- Filling ----

  /** `fill` splits the queue into seated and waiting, losing and repeating nothing. */
  lemma {:induction false} FillingSplits<S>(setup: Setup<S>, f: Filling<S>, seats: seq<Seat>, call: nat, ix: nat)
    ensures var r := FillAll(setup, f, seats);
            SeatCount(r.seated, call, ix) + SeatCount(r.waiting, call, ix)
            == SeatCount(f.seated, call, ix) + SeatCount(f.waiting, call, ix) + SeatCount(seats, call, ix)
    decreases |seats|
  {
    if seats != [] {
      var s := seats[0];
      FillingSplits(setup, FillStep(setup, f, s), seats[1..], call, ix);
      SeatCountConcat(f.waiting, [s], call, ix);
      SeatCountConcat(f.seated, [s], call, ix);
      SeatCountConcat(f.seated, [s.(lane := LowestFree(f.taken))], call, ix);
    }
  }

  /** A whole turn keeps every slot matched and every call answered once. */
  lemma TurnKeeps<S>(setup: Setup<S>, w: World<S>)
    requires WellFed(setup, w)
    requires Matched([], w.queue) && AnsweredOnce(w.queue)
    ensures Matched([], Turned(setup, w).queue) && AnsweredOnce(Turned(setup, w).queue)
  {
    FilledIsWellFed(setup, w);
    var f := Filled(setup, w);
    var waiting := w.queue.(seats := f.waiting);
    forall c: nat, ix: nat
      ensures SlotMatched(f.seated, waiting, c, ix)
    {
      assert SlotMatched([], w.queue, c, ix);
      FillingSplits(setup, Filling(w.state, w.taken, [], [], []), w.queue.seats, c, ix);
    }
    if f.seated != [] {
      var (_, served) := TurnRun(setup, f.state, f.taken, f.seated);
      LandAllKeeps(f.seated, waiting, Verdicts(served, |f.seated|), setup.batchOut);
    }
  }
}
