/** Solo refinement: a stream asking for one seat at a time is answered as if it
    had the model to itself, whatever the others ask, borrow or leave behind. */
module Isolation {
  import opened Outcomes
  import opened LaneTables
  import opened Calls
  import opened Queues
  import opened Turns
  import opened ExactlyOnce
  import opened Streams
  import opened LaneModels

  /** One answered call of a stream, as its caller saw it. */
  datatype Entry = Entry(inputs: Values, result: Result<Values>)

  predicate IsOf(received: seq<Received>, stream: nat, call: nat) {
    call < |received| && received[call].stream == stream
  }

  /** Everything `stream` has been answered, in order. */
  function History(outbox: seq<Answer>, received: seq<Received>, stream: nat): seq<Entry> {
    if outbox == [] then []
    else
      var a := outbox[|outbox| - 1];
      History(outbox[..|outbox| - 1], received, stream)
      + (if IsOf(received, stream, a.call) then [Entry(received[a.call].call.inputs, a.result)] else [])
  }

  function HistoryOf<S>(sys: System<S>, stream: nat): seq<Entry> {
    History(sys.world.queue.outbox, sys.received, stream)
  }

  /** No turn of the stream failed: each call is answered, or was malformed. */
  ghost predicate Clean(h: seq<Entry>, batchIn: seq<bool>) {
    forall k | 0 <= k < |h| && Explode(h[k].inputs, batchIn).Ok? :: h[k].result.Ok?
  }

  // ---- The stream alone ----

  /** What a blank lane holds after the calls of `h` alone, a malformed one moving
      nothing. Only the inputs of `h` are read. */
  ghost function SoloState<S, L>(m: LaneModel<S, L>, batchIn: seq<bool>, h: seq<Entry>): L {
    if h == [] then m.blank
    else
      var before := SoloState(m, batchIn, h[..|h| - 1]);
      if Explode(h[|h| - 1].inputs, batchIn).Err? then before else m.step(before, h[|h| - 1].inputs).0
  }

  /** What the last call of `h` is answered by a stream having the model to itself. */
  ghost function SoloAnswer<S, L>(m: LaneModel<S, L>, batchIn: seq<bool>, h: seq<Entry>): Result<Values>
    requires h != []
  {
    var last := h[|h| - 1];
    match Explode(last.inputs, batchIn)
    case Err(e) => Err(e)
    case Ok(_) => Ok(m.step(SoloState(m, batchIn, h[..|h| - 1]), last.inputs).1)
  }

  ghost predicate AnsweredAlone<S, L>(m: LaneModel<S, L>, batchIn: seq<bool>, h: seq<Entry>) {
    forall k | 0 < k <= |h| :: h[k - 1].result == SoloAnswer(m, batchIn, h[..k])
  }

  lemma OneMoreAnswer<S, L>(m: LaneModel<S, L>, batchIn: seq<bool>, h: seq<Entry>, e: Entry)
    requires Clean(h, batchIn) ==> AnsweredAlone(m, batchIn, h)
    requires Clean(h, batchIn) && (Explode(e.inputs, batchIn).Ok? ==> e.result.Ok?)
             ==> e.result == SoloAnswer(m, batchIn, h + [e])
    ensures Clean(h + [e], batchIn) ==> Clean(h, batchIn)
    ensures Clean(h + [e], batchIn) ==> AnsweredAlone(m, batchIn, h + [e])
  {
    var longer := h + [e];
    assert forall k | 0 <= k < |h| :: longer[k] == h[k];
    if Clean(longer, batchIn) {
      assert longer[|h|] == e;
      forall k | 0 < k <= |longer|
        ensures longer[k - 1].result == SoloAnswer(m, batchIn, longer[..k])
      {
        if k <= |h| {
          assert longer[..k] == h[..k];
        } else {
          assert longer[..k] == longer;
        }
      }
    }
  }

  // ---- Histories grow with the answers ----

  lemma HistoryGrows(outbox: seq<Answer>, a: Answer, received: seq<Received>, stream: nat)
    ensures History(outbox + [a], received, stream)
            == History(outbox, received, stream)
               + (if IsOf(received, stream, a.call) then [Entry(received[a.call].call.inputs, a.result)] else [])
  {
    assert (outbox + [a])[..|outbox|] == outbox;
  }

  lemma {:induction false} HistoryKeeps(outbox: seq<Answer>, received: seq<Received>, r: Received, stream: nat)
    requires forall a | a in outbox :: a.call < |received|
    ensures History(outbox, received + [r], stream) == History(outbox, received, stream)
  {
    if outbox != [] {
      HistoryKeeps(outbox[..|outbox| - 1], received, r, stream);
      assert outbox[|outbox| - 1] in outbox;
    }
  }

  // ---- The stream's seat sits at home ----

  function SeatsOfStream(seats: seq<Seat>, received: seq<Received>, stream: nat): nat {
    if seats == [] then 0
    else (if IsOf(received, stream, seats[0].call) then 1 else 0) + SeatsOfStream(seats[1..], received, stream)
  }

  lemma {:induction false} SeatsOfStreamConcat(a: seq<Seat>, b: seq<Seat>, received: seq<Received>, stream: nat)
    ensures SeatsOfStream(a + b, received, stream)
            == SeatsOfStream(a, received, stream) + SeatsOfStream(b, received, stream)
  {
    if a == [] {
      assert a + b == b;
    } else {
      assert (a + b)[1..] == a[1..] + b;
      SeatsOfStreamConcat(a[1..], b, received, stream);
    }
  }

  lemma {:induction false} SomeSeatOfStream(seats: seq<Seat>, received: seq<Received>, stream: nat)
    ensures SeatsOfStream(seats, received, stream) > 0
            <==> exists s :: s in seats && IsOf(received, stream, s.call)
  {
    if seats != [] {
      SomeSeatOfStream(seats[1..], received, stream);
      assert forall s :: s in seats <==> s == seats[0] || s in seats[1..];
    }
  }

  /** Only the stream's seats sit in its lane, and they sit nowhere else. */
  ghost predicate AtHome(seats: seq<Seat>, received: seq<Received>, stream: nat, home: LaneId) {
    forall s | s in seats :: s.lane == home <==> IsOf(received, stream, s.call)
  }

  lemma FillStepKeepsHome<S>(setup: Setup<S>, before: seq<bool>, f: Filling<S>, s: Seat, received: seq<Received>,
                            stream: nat, home: LaneId)
    requires LentSoundly(before, f) && Holds(before, home)
    requires AtHome(f.seated, received, stream, home) && (s.lane == home <==> IsOf(received, stream, s.call))
    requires SeatsOfStream(f.seated, received, stream) + SeatsOfStream([s], received, stream) <= 1
    ensures var g := FillStep(setup, f, s);
            && AtHome(g.seated, received, stream, home)
            && SeatsOfStream(g.seated, received, stream)
               <= SeatsOfStream(f.seated, received, stream) + SeatsOfStream([s], received, stream)
  {
    SomeSeatOfStream(f.seated, received, stream);
    var lane := LowestFree(f.taken);
    if home in LanesOf(f.seated) {
      var k :| 0 <= k < |f.seated| && LanesOf(f.seated)[k] == home;
      assert f.seated[k] in f.seated;
    }
    SeatsOfStreamConcat(f.seated, [s], received, stream);
    SeatsOfStreamConcat(f.seated, [s.(lane := lane)], received, stream);
  }

  /** With one seat of the stream in all, `fill` never lends it another lane: its
      own is nobody's to borrow. */
  lemma {:induction false} FillKeepsHome<S>(setup: Setup<S>, before: seq<bool>, f: Filling<S>, seats: seq<Seat>,
                                           received: seq<Received>, stream: nat, home: LaneId)
    requires LentSoundly(before, f) && Holds(before, home)
    requires forall s | s in seats :: Holds(before, s.lane)
    requires AtHome(f.seated, received, stream, home) && AtHome(seats, received, stream, home)
    requires SeatsOfStream(f.seated, received, stream) + SeatsOfStream(seats, received, stream) <= 1
    ensures var r := FillAll(setup, f, seats);
            && AtHome(r.seated, received, stream, home)
            && SeatsOfStream(r.seated, received, stream)
               <= SeatsOfStream(f.seated, received, stream) + SeatsOfStream(seats, received, stream)
    decreases |seats|
  {
    hide FillStep, LentSoundly;
    if seats != [] {
      var s := seats[0];
      var g := FillStep(setup, f, s);
      FillStepKeepsLedger(setup, before, f, s);
      FillStepKeepsHome(setup, before, f, s, received, stream, home);
      FillKeepsHome(setup, before, g, seats[1..], received, stream, home);
    }
  }

  // ---- Landing answers the stream ----

  /** A landing without a seat of the stream answers it nothing. */
  lemma LandingOthers(q: QueueView, seat: Seat, verdict: Result<Values>, batchOut: seq<bool>, received: seq<Received>, stream: nat)
    requires Fits(q, seat) && !IsOf(received, stream, seat.call)
    ensures var r := Landed(q, seat, verdict, batchOut);
            && History(r.outbox, received, stream) == History(q.outbox, received, stream)
            && forall id | IsOf(received, stream, id) ::
                 (id in r.completers <==> id in q.completers)
                 && (id in q.completers ==> r.completers[id] == q.completers[id])
  {
    var r := Landed(q, seat, verdict, batchOut);
    if seat.call in q.completers && |r.outbox| > |q.outbox| {
      HistoryGrows(q.outbox, r.outbox[|q.outbox|], received, stream);
      assert r.outbox == q.outbox + [r.outbox[|q.outbox|]];
    }
  }

  /** The stream's one seat lands as the one answer to its one call. */
  lemma LandingOwn(q: QueueView, seat: Seat, verdict: Result<Values>, batchOut: seq<bool>, received: seq<Received>, stream: nat)
    requires IsOf(received, stream, seat.call) && Open(q, seat.call, seat.ix)
    requires |q.completers[seat.call].served| == 1
    ensures History(Landed(q, seat, verdict, batchOut).outbox, received, stream)
            == History(q.outbox, received, stream) + [Entry(received[seat.call].call.inputs, verdict)]
    ensures forall id | id in Landed(q, seat, verdict, batchOut).completers :: id in q.completers && id != seat.call
  {
    var done := q.completers[seat.call].done;
    HistoryGrows(q.outbox, Answer(seat.call, done, verdict), received, stream);
    if verdict.Ok? {
      var served := q.completers[seat.call].served[seat.ix := Some(verdict.value)];
      assert IsFull(served) && Unwrapped(served) == [verdict.value];
    }
  }

  lemma {:induction false} LandingAnswers(q: QueueView, seats: seq<Seat>, verdicts: seq<Result<Values>>, batchOut: seq<bool>,
                                         received: seq<Received>, stream: nat)
    requires |seats| == |verdicts| && FitAll(q, seats)
    requires SeatsOfStream(seats, received, stream) <= 1
    requires forall s | s in seats && IsOf(received, stream, s.call) ::
               Open(q, s.call, s.ix) && |q.completers[s.call].served| == 1
    ensures var h := History(q.outbox, received, stream);
            var h' := History(LandAll(q, seats, verdicts, batchOut).outbox, received, stream);
            if SeatsOfStream(seats, received, stream) == 0 then h' == h
            else exists i :: 0 <= i < |seats| && IsOf(received, stream, seats[i].call)
                             && h' == h + [Entry(received[seats[i].call].call.inputs, verdicts[i])]
    decreases |seats|
  {
    if seats != [] {
      assert forall s | s in seats[1..] :: Fits(q, s);
      var one := Landed(q, seats[0], verdicts[0], batchOut);
      var h := History(q.outbox, received, stream);
      var h' := History(LandAll(q, seats, verdicts, batchOut).outbox, received, stream);
      SomeSeatOfStream(seats[1..], received, stream);
      if IsOf(received, stream, seats[0].call) {
        LandingOwn(q, seats[0], verdicts[0], batchOut, received, stream);
        LandingAnswers(one, seats[1..], verdicts[1..], batchOut, received, stream);
        assert h' == h + [Entry(received[seats[0].call].call.inputs, verdicts[0])];
      } else {
        LandingOthers(q, seats[0], verdicts[0], batchOut, received, stream);
        LandingAnswers(one, seats[1..], verdicts[1..], batchOut, received, stream);
        if SeatsOfStream(seats[1..], received, stream) > 0 {
          var i :| 0 <= i < |seats[1..]| && IsOf(received, stream, seats[1..][i].call)
                   && h' == h + [Entry(received[seats[1..][i].call].call.inputs, verdicts[1..][i])];
          assert seats[i + 1] == seats[1..][i] && verdicts[i + 1] == verdicts[1..][i];
        }
      }
    }
  }

  // ---- The invariant ----

  /** The stream asks for one seat at a time: one call outstanding, one seat each. */
  predicate OneAtATime<S>(setup: Setup<S>, sys: System<S>, event: Event, stream: nat) {
    match event
    case Heard(Ask(call)) =>
      call.leased in sys.tenant && sys.tenant[call.leased] == stream ==>
        && (forall id | id in sys.world.queue.completers :: !IsOf(sys.received, stream, id))
        && (Explode(call.inputs, setup.batchIn).Ok? ==> |Explode(call.inputs, setup.batchIn).value| == 1)
    case _ => true
  }

  ghost predicate OneCallWaiting<S>(sys: System<S>, stream: nat) {
    && (forall id | id in sys.world.queue.completers && IsOf(sys.received, stream, id) ::
          |sys.world.queue.completers[id].served| == 1)
    && (forall a, b | a in sys.world.queue.completers && b in sys.world.queue.completers
                      && IsOf(sys.received, stream, a) && IsOf(sys.received, stream, b) :: a == b)
  }

  ghost predicate Isolated<S, L>(setup: Setup<S>, m: LaneModel<S, L>, sys: System<S>, stream: nat) {
    var h := HistoryOf(sys, stream);
    && OneCallWaiting(sys, stream)
    && (Clean(h, setup.batchIn) ==>
          && AnsweredAlone(m, setup.batchIn, h)
          && forall lane | lane in sys.tenant && sys.tenant[lane] == stream ::
               m.view(sys.world.state, lane) == SoloState(m, setup.batchIn, h))
  }

  /** At most one seat of such a stream is ever queued, and it is its call's first. */
  lemma OneSeatQueued<S>(setup: Setup<S>, sys: System<S>, stream: nat)
    requires Settled(setup, sys) && OneCallWaiting(sys, stream)
    ensures SeatsOfStream(sys.world.queue.seats, sys.received, stream) <= 1
    ensures forall s | s in sys.world.queue.seats && IsOf(sys.received, stream, s.call) ::
              s.ix == 0 && s.call in sys.world.queue.completers && |sys.world.queue.completers[s.call].served| == 1
  {
    SettledIsWellFed(setup, sys);
    var seats := sys.world.queue.seats;
    forall s | s in seats && IsOf(sys.received, stream, s.call)
      ensures s.ix == 0 && s.call in sys.world.queue.completers && |sys.world.queue.completers[s.call].served| == 1
    {
      assert IsWaiting(setup, sys, s.call);
    }
    SomeSeatOfStream(seats, sys.received, stream);
    if SeatsOfStream(seats, sys.received, stream) > 0 {
      var s :| s in seats && IsOf(sys.received, stream, s.call);
      assert SlotMatched([], sys.world.queue, s.call, 0);
      SeatsOfOneCall(seats, sys.received, stream, s.call);
    }
  }

  lemma {:induction false} SeatsOfOneCall(seats: seq<Seat>, received: seq<Received>, stream: nat, call: nat)
    requires IsOf(received, stream, call)
    requires forall s | s in seats && IsOf(received, stream, s.call) :: s.call == call && s.ix == 0
    ensures SeatsOfStream(seats, received, stream) == SeatCount(seats, call, 0)
  {
    if seats != [] {
      SeatsOfOneCall(seats[1..], received, stream, call);
    }
  }

  // ---- A turn keeps the stream isolated ----

  lemma HomeFills<S>(setup: Setup<S>, sys: System<S>, stream: nat, home: LaneId)
    requires Settled(setup, sys) && OneCallWaiting(sys, stream) && home in sys.tenant && sys.tenant[home] == stream
    ensures var f := Filled(setup, sys.world);
            AtHome(f.seated, sys.received, stream, home) && SeatsOfStream(f.seated, sys.received, stream) <= 1
  {
    hide Matched, AnsweredOnce, FillAll, Explode;
    var w := sys.world;
    SettledIsWellFed(setup, sys);
    OneSeatQueued(setup, sys, stream);
    assert Holds(w.taken, home);
    forall s | s in w.queue.seats
      ensures s.lane == home <==> IsOf(sys.received, stream, s.call)
    {
      assert IsWaiting(setup, sys, s.call);
    }
    FillKeepsHome(setup, w.taken, Filling(w.state, w.taken, [], [], []), w.queue.seats, sys.received, stream, home);
  }

  /** What one turn does for the stream on lane `home`: nothing at all, or its one
      call answered by its own lane moved by its own seat, or failed. */
  lemma TurnServesHome<S(!new), L>(setup: Setup<S>, m: LaneModel<S, L>, sys: System<S>, stream: nat, home: LaneId)
    returns (e: Option<Entry>)
    requires Settled(setup, sys) && LaneWise(setup, m) && OneCallWaiting(sys, stream)
    requires home in sys.tenant && sys.tenant[home] == stream
    requires WellFed(setup, sys.world)
    ensures var after := Next(setup, sys, Turn);
            && HistoryOf(after, stream) == HistoryOf(sys, stream) + (if e.Some? then [e.value] else [])
            && (e.None? ==> m.view(after.world.state, home) == m.view(sys.world.state, home))
            && (e.Some? ==> Explode(e.value.inputs, setup.batchIn).Ok?)
            && (e.Some? && e.value.result.Ok? ==>
                  (m.view(after.world.state, home), e.value.result.value)
                  == m.step(m.view(sys.world.state, home), e.value.inputs))
  {
    hide Faithful, Matched, AnsweredOnce, History, FillAll, AtHome, WellFed, Explode, TurnRun;
    var w := sys.world;
    SettledIsWellFed(setup, sys);
    BorrowingIsSound(setup, sys);
    FilledIsWellFed(setup, w);
    HomeFills(setup, sys, stream, home);
    var start := Filling(w.state, w.taken, [], [], []);
    var f := Filled(setup, w);
    assert Holds(w.taken, home);
    FillIsLocal(setup, m, w.taken, w.state, start, w.queue.seats);
    e := None;
    if f.seated != [] {
      FillingKeeps(setup, start, w.queue.seats);
      var (_, served) := TurnRun(setup, f.state, f.taken, f.seated);
      TurnIsLaneWise(setup, m, f.state, f.taken, f.seated);
      e := TurnLandsHome(setup, m, sys, stream, home, f, served);
    }
  }

  /** A queued seat of the stream is the whole of its one open call. */
  lemma SeatIsTheCall<S>(setup: Setup<S>, sys: System<S>, stream: nat, t: Seat, waiting: seq<Seat>)
    requires Settled(setup, sys) && OneCallWaiting(sys, stream)
    requires t in sys.world.queue.seats && IsOf(sys.received, stream, t.call)
    ensures Open(sys.world.queue.(seats := waiting), t.call, t.ix) && |sys.world.queue.completers[t.call].served| == 1
    ensures Explode(sys.received[t.call].call.inputs, setup.batchIn).Ok?
    ensures t.inputs == sys.received[t.call].call.inputs
  {
    hide Explode, Ledger, AnsweredOnce;
    OneSeatQueued(setup, sys, stream);
    SeatCounted(sys.world.queue.seats, t);
    assert SlotMatched([], sys.world.queue, t.call, t.ix);
    assert IsWaiting(setup, sys, t.call);
    assert IsSlice(sys.received, setup.batchIn, t);
    ExplodeExactly(sys.received[t.call].call.inputs, setup.batchIn);
    OneSeatIsTheCall(sys.received[t.call].call.inputs, setup.batchIn);
  }

  /** The landing half of `TurnServesHome`. */
  lemma TurnLandsHome<S(!new), L>(setup: Setup<S>, m: LaneModel<S, L>, sys: System<S>, stream: nat, home: LaneId,
                                 f: Filling<S>, served: Result<seq<Values>>)
    returns (e: Option<Entry>)
    requires Settled(setup, sys) && OneCallWaiting(sys, stream)
    requires f.seated != [] && (served.Ok? ==> |served.value| == |f.seated|)
    requires FitAll(sys.world.queue.(seats := f.waiting), f.seated)
    requires forall s | s in f.seated :: exists t :: t in sys.world.queue.seats && s == t.(lane := s.lane)
    requires AtHome(f.seated, sys.received, stream, home)
    requires SeatsOfStream(f.seated, sys.received, stream) <= 1
    ensures var q := sys.world.queue.(seats := f.waiting);
            var landed := LandAll(q, f.seated, Verdicts(served, |f.seated|), setup.batchOut);
            && History(landed.outbox, sys.received, stream)
               == HistoryOf(sys, stream) + (if e.Some? then [e.value] else [])
            && (e.None? ==> home !in LanesOf(f.seated))
            && (e.Some? ==> Explode(e.value.inputs, setup.batchIn).Ok?
                            && exists i :: 0 <= i < |f.seated| && f.seated[i].lane == home
                                 && f.seated[i].inputs == e.value.inputs
                                 && e.value.result == if served.Ok? then Ok(served.value[i]) else Err(TurnFailed(served.error)))
  {
    hide Settled, Explode, History, LandAll;
    var q := sys.world.queue.(seats := f.waiting);
    var verdicts := Verdicts(served, |f.seated|);
    forall s | s in f.seated && IsOf(sys.received, stream, s.call)
      ensures Open(q, s.call, s.ix) && |q.completers[s.call].served| == 1
      ensures Explode(sys.received[s.call].call.inputs, setup.batchIn).Ok?
      ensures s.inputs == sys.received[s.call].call.inputs
    {
      var t :| t in sys.world.queue.seats && s == t.(lane := s.lane);
      SeatIsTheCall(setup, sys, stream, t, f.waiting);
    }
    LandingAnswers(q, f.seated, verdicts, setup.batchOut, sys.received, stream);
    SomeSeatOfStream(f.seated, sys.received, stream);
    e := None;
    if SeatsOfStream(f.seated, sys.received, stream) == 0 {
      forall i | 0 <= i < |f.seated|
        ensures LanesOf(f.seated)[i] != home
      {
        assert f.seated[i] in f.seated;
      }
    } else {
      var landed := LandAll(q, f.seated, verdicts, setup.batchOut);
      var i :| 0 <= i < |f.seated| && IsOf(sys.received, stream, f.seated[i].call)
               && History(landed.outbox, sys.received, stream)
                  == HistoryOf(sys, stream) + [Entry(sys.received[f.seated[i].call].call.inputs, verdicts[i])];
      assert f.seated[i] in f.seated;
      e := Some(Entry(sys.received[f.seated[i].call].call.inputs, verdicts[i]));
    }
  }

  lemma OneSeatIsTheCall(inputs: Values, batchIn: seq<bool>)
    requires Explode(inputs, batchIn).Ok? && |Explode(inputs, batchIn).value| == 1
    ensures Explode(inputs, batchIn).value == [inputs]
  {
    AskedCharacterised(inputs, batchIn, 0, None);
  }

  lemma TurnIsolatesTenant<S(!new), L>(setup: Setup<S>, m: LaneModel<S, L>, sys: System<S>, stream: nat, home: LaneId)
    requires Settled(setup, sys) && LaneWise(setup, m) && Isolated(setup, m, sys, stream)
    requires home in sys.tenant && sys.tenant[home] == stream
    requires WellFed(setup, sys.world)
    ensures Isolated(setup, m, Next(setup, sys, Turn), stream)
  {
    hide Faithful, Matched, AnsweredOnce, LaneWise, Turned, FillAll, TurnRun, History, Explode, WellFed;
    var after := Next(setup, sys, Turn);
    TurnShrinks(setup, sys.world);
    var e := TurnServesHome(setup, m, sys, stream, home);
    var h := HistoryOf(sys, stream);
    if e.Some? {
      var h' := h + [e.value];
      assert h'[..|h' | - 1] == h && h'[|h|] == e.value;
      OneMoreAnswer(m, setup.batchIn, h, e.value);
    } else {
      assert HistoryOf(after, stream) == h;
    }
  }

  lemma TurnIsolatesAbsent<S(!new), L>(setup: Setup<S>, m: LaneModel<S, L>, sys: System<S>, stream: nat)
    requires Settled(setup, sys) && Isolated(setup, m, sys, stream)
    requires forall lane | lane in sys.tenant :: sys.tenant[lane] != stream
    requires WellFed(setup, sys.world)
    ensures Isolated(setup, m, Next(setup, sys, Turn), stream)
  {
    var w := sys.world;
    TurnShrinks(setup, w);
    SettledIsWellFed(setup, sys);
    FilledIsWellFed(setup, w);
    FillingKeeps(setup, Filling(w.state, w.taken, [], [], []), w.queue.seats);
    var f := Filled(setup, w);
    forall s | s in f.seated
      ensures !IsOf(sys.received, stream, s.call)
    {
      var t :| t in w.queue.seats && s == t.(lane := s.lane);
      assert IsWaiting(setup, sys, t.call);
    }
    SomeSeatOfStream(f.seated, sys.received, stream);
    if f.seated != [] {
      var (_, served) := TurnRun(setup, f.state, f.taken, f.seated);
      LandingAnswers(w.queue.(seats := f.waiting), f.seated, Verdicts(served, |f.seated|), setup.batchOut,
                     sys.received, stream);
    }
  }

  lemma {:induction false} UnheardOf(outbox: seq<Answer>, received: seq<Received>, stream: nat)
    requires forall r | r in received :: r.stream != stream
    ensures History(outbox, received, stream) == []
  {
    if outbox != [] {
      UnheardOf(outbox[..|outbox| - 1], received, stream);
    }
  }

  lemma SpawnIsolates<S(!new), L>(setup: Setup<S>, m: LaneModel<S, L>, sys: System<S>, stream: nat)
    requires Settled(setup, sys) && LaneWise(setup, m) && Isolated(setup, m, sys, stream)
    requires WellFed(setup, sys.world)
    ensures Isolated(setup, m, Next(setup, sys, Heard(Spawn)), stream)
  {
    hide Matched, AnsweredOnce, WellFed, RunIsLaneWise, SeatingIsInert, Explode, Clean, IsWaiting, IsSlice, InOwnLane;
    var lane := LowestFree(sys.world.taken);
    assert lane < |sys.world.taken| ==> !Holds(sys.world.taken, lane);
    assert ResetIsLocal(setup, m, sys.world.state, lane);
    if stream == sys.spawned {
      UnheardOf(sys.world.queue.outbox, sys.received, stream);
    }
  }

  lemma AskKeepsOneCall<S>(setup: Setup<S>, sys: System<S>, call: Call, stream: nat)
    requires Settled(setup, sys) && OneCallWaiting(sys, stream)
    requires WellFed(setup, sys.world) && call.leased in sys.tenant
    requires OneAtATime(setup, sys, Heard(Ask(call)), stream)
    ensures OneCallWaiting(Next(setup, sys, Heard(Ask(call))), stream)
  {
    hide Ledger, Matched, AnsweredOnce, WellFed;
    var after := Next(setup, sys, Heard(Ask(call)));
    assert forall k | k in sys.world.queue.completers :: IsOf(after.received, stream, k) == IsOf(sys.received, stream, k);
  }

  lemma AskIsolates<S, L>(setup: Setup<S>, m: LaneModel<S, L>, sys: System<S>, call: Call, stream: nat)
    requires Settled(setup, sys) && Isolated(setup, m, sys, stream)
    requires WellFed(setup, sys.world) && call.leased in sys.tenant
    requires OneAtATime(setup, sys, Heard(Ask(call)), stream)
    ensures Isolated(setup, m, Next(setup, sys, Heard(Ask(call))), stream)
  {
    hide Ledger, Matched, AnsweredOnce, WellFed, OneCallWaiting, AnsweredAlone;
    var after := Next(setup, sys, Heard(Ask(call)));
    var r := Received(call, sys.tenant[call.leased]);
    var id := sys.world.queue.calls;
    var h := HistoryOf(sys, stream);
    HistoryKeeps(sys.world.queue.outbox, sys.received, r, stream);
    AskKeepsOneCall(setup, sys, call, stream);
    match Explode(call.inputs, setup.batchIn) {
      case Ok(_) =>
      case Err(error) =>
        HistoryGrows(sys.world.queue.outbox, Answer(id, call.done, Err(error)), after.received, stream);
        if r.stream == stream {
          var e := Entry(call.inputs, Err(error));
          assert (h + [e])[..|h|] == h;
          OneMoreAnswer(m, setup.batchIn, h, e);
        } else {
          assert HistoryOf(after, stream) == h;
        }
    }
  }

  lemma StepIsolates<S(!new), L>(setup: Setup<S>, m: LaneModel<S, L>, sys: System<S>, event: Event, stream: nat)
    requires Settled(setup, sys) && LaneWise(setup, m) && Isolated(setup, m, sys, stream)
    requires WellFed(setup, sys.world) && Allowed(sys, event) && OneAtATime(setup, sys, event, stream)
    ensures Isolated(setup, m, Next(setup, sys, event), stream)
  {
    match event {
      case Heard(Spawn) => SpawnIsolates(setup, m, sys, stream);
      case Heard(Ask(call)) => AskIsolates(setup, m, sys, call, stream);
      case Heard(Drop(_)) =>
      case Turn =>
        if home :| home in sys.tenant && sys.tenant[home] == stream {
          TurnIsolatesTenant(setup, m, sys, stream, home);
        } else {
          TurnIsolatesAbsent(setup, m, sys, stream);
        }
    }
  }

  // ---- Over whole runs ----

  /** The stream keeps to one seat at a time throughout; the others do as they like. */
  ghost predicate KeepsToOne<S>(setup: Setup<S>, sys: System<S>, events: seq<Event>, stream: nat)
    requires AllowedRun(setup, sys, events)
    decreases |events|
  {
    events == [] ||
    (OneAtATime(setup, sys, events[0], stream) && KeepsToOne(setup, Next(setup, sys, events[0]), events[1..], stream))
  }

  lemma {:induction false} RunsIsolate<S(!new), L>(setup: Setup<S>, m: LaneModel<S, L>, sys: System<S>, events: seq<Event>, stream: nat)
    requires Settled(setup, sys) && LaneWise(setup, m) && Isolated(setup, m, sys, stream)
    requires AllowedRun(setup, sys, events) && KeepsToOne(setup, sys, events, stream)
    ensures Isolated(setup, m, Ran(setup, sys, events), stream)
    decreases |events|
  {
    if events != [] {
      StepKeepsSettled(setup, sys, events[0]);
      StepIsolates(setup, m, sys, events[0], stream);
      RunsIsolate(setup, m, Next(setup, sys, events[0]), events[1..], stream);
    }
  }

  /** Over every interleaving of spawns, calls, hang-ups and turns, a stream asking
      for one seat at a time, no turn of its own having failed, has been answered
      call after call what the model answers to it alone from a blank lane. */
  lemma SoloRefinement<S(!new), L>(setup: Setup<S>, m: LaneModel<S, L>, state: S, maxLanes: nat, events: seq<Event>, stream: nat)
    requires LaneWise(setup, m)
    requires AllowedRun(setup, Fresh(state, maxLanes), events)
    requires KeepsToOne(setup, Fresh(state, maxLanes), events, stream)
    ensures var h := HistoryOf(Ran(setup, Fresh(state, maxLanes), events), stream);
            Clean(h, setup.batchIn) ==> AnsweredAlone(m, setup.batchIn, h)
  {
    FreshIsSettled(setup, state, maxLanes);
    RunsIsolate(setup, m, Fresh(state, maxLanes), events, stream);
  }

  lemma {:induction false} SameHistories<S, T, L>(m: LaneModel<S, L>, p: LaneModel<T, L>, batchIn: seq<bool>, h: seq<Entry>,
                                                  g: seq<Entry>)
    requires m.blank == p.blank && m.step == p.step
    requires AnsweredAlone(m, batchIn, h) && AnsweredAlone(p, batchIn, g)
    requires |h| == |g| && forall k | 0 <= k < |h| :: h[k].inputs == g[k].inputs
    ensures h == g && SoloState(m, batchIn, h) == SoloState(p, batchIn, g)
  {
    if h != [] {
      var n := |h| - 1;
      forall k | 0 < k <= n
        ensures h[..n][..k] == h[..k] && g[..n][..k] == g[..k]
      {}
      SameHistories(m, p, batchIn, h[..n], g[..n]);
      assert h[..n + 1] == h && g[..n + 1] == g;
      assert h == h[..n] + [h[n]] && g == g[..n] + [g[n]];
      assert h[n].result == SoloAnswer(m, batchIn, h[..n + 1]);
      assert g[n].result == SoloAnswer(p, batchIn, g[..n + 1]);
    }
  }

  lemma AloneSoFar<S, L>(m: LaneModel<S, L>, batchIn: seq<bool>, h: seq<Entry>, n: nat)
    requires AnsweredAlone(m, batchIn, h) && n <= |h|
    ensures AnsweredAlone(m, batchIn, h[..n])
  {
    forall k | 0 < k <= n
      ensures h[..n][..k] == h[..k]
    {}
  }

  /** Two streams that asked the same, in whatever two runs they lived: other states, other
      tables, other widths of turns, other company. As far as both have been answered, they
      have been answered the same. */
  lemma SameAnswersInAnyCompany<S(!new), T(!new), L>(
    a: Setup<S>, b: Setup<T>, m: LaneModel<S, L>, p: LaneModel<T, L>, stateA: S, stateB: T, lanesA: nat, lanesB: nat,
    eventsA: seq<Event>, eventsB: seq<Event>, streamA: nat, streamB: nat)
    requires a.batchIn == b.batchIn && m.blank == p.blank && m.step == p.step && LaneWise(a, m) && LaneWise(b, p)
    requires AllowedRun(a, Fresh(stateA, lanesA), eventsA) && KeepsToOne(a, Fresh(stateA, lanesA), eventsA, streamA)
    requires AllowedRun(b, Fresh(stateB, lanesB), eventsB) && KeepsToOne(b, Fresh(stateB, lanesB), eventsB, streamB)
    requires var h := HistoryOf(Ran(a, Fresh(stateA, lanesA), eventsA), streamA);
             var g := HistoryOf(Ran(b, Fresh(stateB, lanesB), eventsB), streamB);
             && Clean(h, a.batchIn) && Clean(g, b.batchIn) && |h| <= |g|
             && forall k | 0 <= k < |h| :: h[k].inputs == g[k].inputs
    ensures HistoryOf(Ran(a, Fresh(stateA, lanesA), eventsA), streamA)
            <= HistoryOf(Ran(b, Fresh(stateB, lanesB), eventsB), streamB)
  {
    hide LaneWise, AllowedRun, KeepsToOne, Ran, History, AnsweredAlone, Clean;
    SoloRefinement(a, m, stateA, lanesA, eventsA, streamA);
    SoloRefinement(b, p, stateB, lanesB, eventsB, streamB);
    var h, g := HistoryOf(Ran(a, Fresh(stateA, lanesA), eventsA), streamA), HistoryOf(Ran(b, Fresh(stateB, lanesB), eventsB), streamB);
    AloneSoFar(p, a.batchIn, g, |h|);
    SameHistories(m, p, a.batchIn, h, g[..|h|]);
  }
}
