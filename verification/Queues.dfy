/** The worker's queue of seats, and the calls they answer. */
module Queues {
  import opened Outcomes
  import opened LaneTables
  import opened Calls

  /** One slot per seat a call asked for, and the channel its caller waits on. */
  datatype Completer = Completer(served: seq<Option<Values>>, done: nat)

  /** One send on an answer channel; `call` records which call it answers. */
  datatype Answer = Answer(call: nat, done: nat, result: Result<Values>)

  datatype QueueView = QueueView(
    seats: seq<Seat>,
    completers: map<nat, Completer>,
    calls: nat,
    outbox: seq<Answer>)

  predicate IsFull(served: seq<Option<Values>>) {
    forall i | 0 <= i < |served| :: served[i].Some?
  }

  function Unwrapped(served: seq<Option<Values>>): (r: seq<Values>)
    requires IsFull(served)
    ensures |r| == |served|
  {
    seq(|served|, i requires 0 <= i < |served| => served[i].value)
  }

  function SeatsOf(call: nat, lane: LaneId, inputs: seq<Values>): (r: seq<Seat>)
    ensures |r| == |inputs|
  {
    seq(|inputs|, ix requires 0 <= ix < |inputs| => Seat(call, lane, ix, inputs[ix]))
  }

  /** The queue once `call` is accepted, or answered there and then when its
      inputs do not explode. Either way the call used up an id. */
  function Pushed(q: QueueView, call: Call, batchIn: seq<bool>): QueueView {
    match Explode(call.inputs, batchIn)
    case Ok(inputs) =>
      q.(completers := q.completers[q.calls := Completer(seq(|inputs|, _ => None), call.done)],
         seats := q.seats + SeatsOf(q.calls, call.leased, inputs),
         calls := q.calls + 1)
    case Err(e) =>
      q.(outbox := q.outbox + [Answer(q.calls, call.done, Err(e))], calls := q.calls + 1)
  }

  /** `seats` without those of `call`, in order. */
  function Retained(seats: seq<Seat>, call: nat): (r: seq<Seat>)
    ensures |r| <= |seats|
    ensures forall s :: s in r <==> s in seats && s.call != call
  {
    if seats == [] then []
    else (if seats[0].call != call then [seats[0]] else []) + Retained(seats[1..], call)
  }

  /** A seat whose call still waits has a slot there. */
  predicate Fits(q: QueueView, seat: Seat) {
    seat.call in q.completers ==> seat.ix < |q.completers[seat.call].served|
  }

  /** The queue once `seat` lands with `outputs`: an orphan changes nothing, a
      failure fails the whole call and drops its queued seats, and the last seat
      to land answers the call. */
  function Landed(q: QueueView, seat: Seat, outputs: Result<Values>, batchOut: seq<bool>): (r: QueueView)
    requires Fits(q, seat)
    ensures forall c | c in r.completers ::
              c in q.completers && |r.completers[c].served| == |q.completers[c].served|
    ensures r.calls == q.calls
    ensures forall s | s in r.seats :: s in q.seats
  {
    if seat.call !in q.completers then q
    else
      var completer := q.completers[seat.call];
      match outputs
      case Err(e) =>
        q.(completers := q.completers - {seat.call},
           seats := Retained(q.seats, seat.call),
           outbox := q.outbox + [Answer(seat.call, completer.done, Err(e))])
      case Ok(values) =>
        var served := completer.served[seat.ix := Some(values)];
        if IsFull(served) then
          q.(completers := q.completers - {seat.call},
             outbox := q.outbox + [Answer(seat.call, completer.done, Assemble(Unwrapped(served), batchOut))])
        else
          q.(completers := q.completers[seat.call := completer.(served := served)])
  }

  class Queue {
    /** Seats waiting for a lane, oldest first. */
    var seats: seq<Seat>
    /** The calls with seats still to land, by call id. */
    var completers: map<nat, Completer>
    /** The id the next call gets. */
    var calls: nat
    /** Every send on an answer channel so far. */
    var outbox: seq<Answer>

    function View(): QueueView
      reads this
    {
      QueueView(seats, completers, calls, outbox)
    }

    constructor ()
      ensures View() == QueueView([], map[], 0, [])
    {
      seats, completers, calls, outbox := [], map[], 0, [];
    }

    method Push(call: Call, batchIn: seq<bool>)
      modifies this
      ensures View() == Pushed(old(View()), call, batchIn)
    {
      var id := calls;
      calls := calls + 1;
      var exploded := ExplodeCall(call, batchIn);
      match exploded {
        case Ok(inputs) =>
          completers := completers[id := Completer(seq(|inputs|, _ => None), call.done)];
          ghost var all := SeatsOf(id, call.leased, inputs);
          for ix := 0 to |inputs|
            invariant seats == old(seats) + all[..ix]
            invariant outbox == old(outbox) && calls == id + 1
            invariant completers == old(completers)[id := Completer(seq(|inputs|, _ => None), call.done)]
          {
            seats := seats + [Seat(id, call.leased, ix, inputs[ix])];
            assert all[..ix + 1] == all[..ix] + [all[ix]];
          }
          assert all[..|inputs|] == all;
        case Err(e) =>
          outbox := outbox + [Answer(id, call.done, Err(e))];
      }
    }

    method Serve(seat: Seat, outputs: Result<Values>, batchOut: seq<bool>)
      requires Fits(View(), seat)
      modifies this
      ensures View() == Landed(old(View()), seat, outputs, batchOut)
    {
      if seat.call !in completers {
        return;
      }
      var completer := completers[seat.call];
      match outputs {
        case Err(e) =>
          completers := completers - {seat.call};
          seats := Retained(seats, seat.call);
          outbox := outbox + [Answer(seat.call, completer.done, Err(e))];
        case Ok(values) =>
          var served := completer.served[seat.ix := Some(values)];
          completers := completers[seat.call := completer.(served := served)];
          if IsFull(served) {
            completers := completers - {seat.call};
            assert completers == old(completers) - {seat.call};
            outbox := outbox + [Answer(seat.call, completer.done, Assemble(Unwrapped(served), batchOut))];
          }
      }
    }
  }
}
