/** Lanes of one laned state: which are taken, and which of them a turn seats. */
module LaneTables {
  import opened Outcomes

  type LaneId = nat

  datatype Seating = Seating(lanes: seq<LaneId>, maxLanes: nat)

  /** Lanes one turn may seat together: in range, and none of them twice. */
  ghost predicate Seatable(lanes: seq<LaneId>, maxLanes: nat) {
    && (forall i | 0 <= i < |lanes| :: lanes[i] < maxLanes)
    && (forall i, j | 0 <= i < j < |lanes| :: lanes[i] != lanes[j])
  }

  /** Whether the stream of `lane` holds it: false past the end of the table. */
  predicate Holds(taken: seq<bool>, lane: LaneId) {
    lane < |taken| && taken[lane]
  }

  function TakenCount(taken: seq<bool>): nat {
    if taken == [] then 0 else (if taken[0] then 1 else 0) + TakenCount(taken[1..])
  }

  function FreeCount(taken: seq<bool>): (n: nat)
    ensures n + TakenCount(taken) == |taken|
  {
    if taken == [] then 0 else (if taken[0] then 0 else 1) + FreeCount(taken[1..])
  }

  /** The lowest free lane, or the length of the table when every one is taken. */
  function LowestFree(taken: seq<bool>): (lane: nat)
    ensures lane <= |taken|
    ensures lane < |taken| ==> !taken[lane]
    ensures forall l | 0 <= l < lane :: taken[l]
  {
    if taken == [] || !taken[0] then 0 else 1 + LowestFree(taken[1..])
  }

  /** Flipping a free lane to taken costs the table exactly one free lane. */
  lemma {:induction false} TakingCosts(taken: seq<bool>, lane: nat)
    requires lane < |taken| && !taken[lane]
    ensures FreeCount(taken) == FreeCount(taken[lane := true]) + 1
  {
    if lane == 0 {
      assert taken[lane := true][1..] == taken[1..];
    } else {
      TakingCosts(taken[1..], lane - 1);
      assert taken[lane := true][1..] == taken[1..][lane - 1 := true];
    }
  }

  lemma {:induction false} FullTable(taken: seq<bool>)
    ensures LowestFree(taken) == |taken| <==> FreeCount(taken) == 0
  {
    if taken != [] {
      FullTable(taken[1..]);
    }
  }

  /** `Seating::new`, as a function: the first offending seat decides the error. */
  function NewSeating(maxLanes: nat, lanes: seq<LaneId>): Result<Seating> {
    match FirstMisfit(maxLanes, lanes, 0)
    case Some(e) => Err(e)
    case None => Ok(Seating(lanes, maxLanes))
  }

  function FirstMisfit(maxLanes: nat, lanes: seq<LaneId>, seat: nat): Option<Error>
    decreases |lanes| - seat
  {
    if seat >= |lanes| then None
    else if lanes[seat] >= maxLanes then Some(LaneOutOfRange(lanes[seat]))
    else if lanes[seat] in lanes[..seat] then Some(LaneSeatedTwice(lanes[seat]))
    else FirstMisfit(maxLanes, lanes, seat + 1)
  }

  lemma {:induction false} MisfitFreeFrom(maxLanes: nat, lanes: seq<LaneId>, seat: nat)
    requires seat <= |lanes|
    requires Seatable(lanes[..seat], maxLanes)
    ensures FirstMisfit(maxLanes, lanes, seat).None? <==> Seatable(lanes, maxLanes)
    decreases |lanes| - seat
  {
    if seat == |lanes| {
      assert lanes[..seat] == lanes;
    } else if lanes[seat] >= maxLanes {
    } else if lanes[seat] in lanes[..seat] {
      var i :| 0 <= i < seat && lanes[i] == lanes[seat];
      assert !Seatable(lanes, maxLanes);
    } else {
      assert forall i | 0 <= i < seat :: lanes[..seat + 1][i] == lanes[..seat][i];
      assert forall i | 0 <= i < seat :: lanes[..seat][i] != lanes[seat];
      MisfitFreeFrom(maxLanes, lanes, seat + 1);
    }
  }

  /** The first seat, from `from` on, that cannot be seated, and why. */
  ghost predicate FirstUnseatable(maxLanes: nat, lanes: seq<LaneId>, from: nat, seat: nat, e: Error) {
    && from <= seat < |lanes|
    && (forall i | from <= i < seat :: lanes[i] < maxLanes && lanes[i] !in lanes[..i])
    && if lanes[seat] >= maxLanes then e == LaneOutOfRange(lanes[seat])
       else lanes[seat] in lanes[..seat] && e == LaneSeatedTwice(lanes[seat])
  }

  lemma {:induction false} UnseatableFrom(maxLanes: nat, lanes: seq<LaneId>, seat: nat)
    requires FirstMisfit(maxLanes, lanes, seat).Some?
    ensures exists k: nat :: FirstUnseatable(maxLanes, lanes, seat, k, FirstMisfit(maxLanes, lanes, seat).value)
    decreases |lanes| - seat
  {
    var e := FirstMisfit(maxLanes, lanes, seat).value;
    if lanes[seat] >= maxLanes || lanes[seat] in lanes[..seat] {
      assert FirstUnseatable(maxLanes, lanes, seat, seat, e);
    } else {
      UnseatableFrom(maxLanes, lanes, seat + 1);
      var k: nat :| FirstUnseatable(maxLanes, lanes, seat + 1, k, e);
      assert FirstUnseatable(maxLanes, lanes, seat, k, e);
    }
  }

  /** A seating is built from exactly the lanes which are in range and distinct; otherwise
      the first seat whose lane is not decides the error. */
  lemma SeatingAccepts(maxLanes: nat, lanes: seq<LaneId>)
    ensures NewSeating(maxLanes, lanes).Ok? <==> Seatable(lanes, maxLanes)
    ensures Seatable(lanes, maxLanes) ==> NewSeating(maxLanes, lanes) == Ok(Seating(lanes, maxLanes))
    ensures NewSeating(maxLanes, lanes).Err? ==>
              exists seat: nat :: FirstUnseatable(maxLanes, lanes, 0, seat, NewSeating(maxLanes, lanes).error)
  {
    MisfitFreeFrom(maxLanes, lanes, 0);
    if FirstMisfit(maxLanes, lanes, 0).Some? {
      UnseatableFrom(maxLanes, lanes, 0);
    }
  }

  /** `LaneTable::seat`: every lane must be taken, then the seating must be one. */
  function SeatLanes(taken: seq<bool>, lanes: seq<LaneId>): Result<Seating> {
    match FirstNotTaken(taken, lanes)
    case Some(lane) => Err(LaneNotTaken(lane))
    case None => NewSeating(|taken|, lanes)
  }

  function FirstNotTaken(taken: seq<bool>, lanes: seq<LaneId>): (r: Option<LaneId>)
    ensures r.None? <==> forall l | l in lanes :: Holds(taken, l)
    ensures r.Some? ==> r.value in lanes && !Holds(taken, r.value)
  {
    if lanes == [] then None
    else if !Holds(taken, lanes[0]) then Some(lanes[0])
    else FirstNotTaken(taken, lanes[1..])
  }

  /** `Seating::new` as the loop it is. */
  method BuildSeating(maxLanes: nat, lanes: seq<LaneId>) returns (r: Result<Seating>)
    ensures r == NewSeating(maxLanes, lanes)
    ensures r.Ok? <==> Seatable(lanes, maxLanes)
    ensures r.Ok? ==> r.value == Seating(lanes, maxLanes)
  {
    SeatingAccepts(maxLanes, lanes);
    for seat := 0 to |lanes|
      invariant FirstMisfit(maxLanes, lanes, 0) == FirstMisfit(maxLanes, lanes, seat)
    {
      if lanes[seat] >= maxLanes {
        return Err(LaneOutOfRange(lanes[seat]));
      }
      if lanes[seat] in lanes[..seat] {
        return Err(LaneSeatedTwice(lanes[seat]));
      }
    }
    return Ok(Seating(lanes, maxLanes));
  }

  class LaneTable {
    /** One flag per lane, true while a stream holds it. */
    var taken: seq<bool>

    constructor (maxLanes: nat)
      requires maxLanes > 0
      ensures taken == seq(maxLanes, _ => false)
    {
      taken := seq(maxLanes, _ => false);
    }

    /** `LaneTable::new`: a state without a lane is refused. */
    static method New(maxLanes: nat) returns (r: Result<LaneTable>)
      ensures r.Ok? <==> maxLanes > 0
      ensures r.Ok? ==> fresh(r.value) && r.value.taken == seq(maxLanes, _ => false)
    {
      if maxLanes == 0 {
        return Err(NoLanes);
      }
      var table := new LaneTable(maxLanes);
      return Ok(table);
    }

    method Take() returns (r: Option<LaneId>)
      modifies this
      ensures r.None? <==> forall l | 0 <= l < |old(taken)| :: old(taken)[l]
      ensures r.None? ==> taken == old(taken)
      ensures r.Some? ==> r.value == LowestFree(old(taken)) && r.value < |old(taken)|
      ensures r.Some? ==> taken == old(taken)[r.value := true]
    {
      var lane := 0;
      while lane < |taken| && taken[lane]
        invariant 0 <= lane <= |taken|
        invariant forall l | 0 <= l < lane :: taken[l]
      {
        lane := lane + 1;
      }
      if lane == |taken| {
        return None;
      }
      assert lane == LowestFree(taken);
      taken := taken[lane := true];
      return Some(lane);
    }

    method GiveBack(lane: LaneId) returns (r: Result<()>)
      modifies this
      ensures r.Ok? <==> Holds(old(taken), lane)
      ensures taken == GivenBack(old(taken), lane)
    {
      if !Holds(taken, lane) {
        return Err(LaneNotTaken(lane));
      }
      taken := taken[lane := false];
      return Ok(());
    }

    method Seat(lanes: seq<LaneId>) returns (r: Result<Seating>)
      ensures r == SeatLanes(taken, lanes)
      ensures r.Ok? <==> Seatable(lanes, |taken|) && forall l | l in lanes :: Holds(taken, l)
    {
      var rest := lanes;
      while rest != []
        invariant FirstNotTaken(taken, lanes) == FirstNotTaken(taken, rest)
      {
        if !Holds(taken, rest[0]) {
          return Err(LaneNotTaken(rest[0]));
        }
        rest := rest[1..];
      }
      r := BuildSeating(|taken|, lanes);
    }
  }

  /** The table once `lane` is handed back: unchanged when nobody held it. */
  function GivenBack(taken: seq<bool>, lane: LaneId): seq<bool> {
    if Holds(taken, lane) then taken[lane := false] else taken
  }

  function AllGivenBack(taken: seq<bool>, lanes: seq<LaneId>): seq<bool>
    decreases |lanes|
  {
    if lanes == [] then taken else AllGivenBack(GivenBack(taken, lanes[0]), lanes[1..])
  }

  /** Handing lanes back clears exactly those lanes. */
  lemma {:induction false} AllGivenBackClears(taken: seq<bool>, lanes: seq<LaneId>)
    ensures |AllGivenBack(taken, lanes)| == |taken|
    ensures forall l | 0 <= l < |taken| :: AllGivenBack(taken, lanes)[l] == (taken[l] && l !in lanes)
    decreases |lanes|
  {
    if lanes != [] {
      AllGivenBackClears(GivenBack(taken, lanes[0]), lanes[1..]);
      assert forall l: nat :: l in lanes <==> l == lanes[0] || l in lanes[1..];
    }
  }
}
