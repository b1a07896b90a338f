/** The most streams a runnable holds: doubling until a load breaks, then bisecting. */
module CapacitySearch {
  import opened Multiples
  import opened Outcomes

  /** A trial of so many streams: its measurements, or nothing when it fails outright;
      and whether measurements hold. */
  datatype Bench<!M> = Bench(trial: nat -> Option<M>, holds: M -> bool)

  predicate Held<M>(bench: Bench<M>, streams: nat) {
    bench.trial(streams).Some? && bench.holds(bench.trial(streams).value)
  }

  predicate Broke<M>(bench: Bench<M>, streams: nat) {
    bench.trial(streams).Some? && !bench.holds(bench.trial(streams).value)
  }

  datatype Capacity<M> = Capacity(floor: nat, kept: M)

  /** The doublings from one to `n`, or past it. */
  function Doublings(n: nat): nat {
    if n <= 1 then 0 else 1 + Doublings((n + 1) / 2)
  }

  function Power2(k: nat): nat {
    if k == 0 then 1 else 2 * Power2(k - 1)
  }

  /** So many doublings of one reach `n`, and one fewer do not. */
  lemma {:induction false} DoublingsAreLog(n: nat)
    ensures n <= Power2(Doublings(n))
    ensures Doublings(n) > 0 ==> Power2(Doublings(n) - 1) < n
    decreases n
  {
    if n > 1 {
      DoublingsAreLog((n + 1) / 2);
    }
  }

  lemma {:induction false} DoublingsGrow(m: nat, n: nat)
    requires m <= n
    ensures Doublings(m) <= Doublings(n)
    decreases n
  {
    if m > 1 {
      DoublingsGrow((m + 1) / 2, (n + 1) / 2);
    }
  }

  /** Doubling `streams` up to the ceiling takes one of the doublings left. */
  lemma {:induction false} OneDoublingLess(streams: nat, ceiling: nat)
    requires 1 <= streams < ceiling
    ensures streams * 2 < ceiling ==> Left(streams * 2, ceiling) < Left(streams, ceiling)
    ensures streams * 2 >= ceiling ==> Left(ceiling, ceiling) < Left(streams, ceiling)
  {}

  /** How many doublings of `streams` it takes to reach the ceiling. */
  function Left(streams: nat, ceiling: nat): nat
    requires streams >= 1
    decreases ceiling - streams
  {
    if streams >= ceiling then 0 else 1 + Left(streams * 2, ceiling)
  }

  /** Reaching the ceiling from `streams` is reaching a quotient of it from one. */
  lemma {:induction false} LeftIsDoublings(streams: nat, q: nat, ceiling: nat)
    requires streams >= 1 && q >= 1 && (q - 1) * streams < ceiling <= q * streams
    ensures Left(streams, ceiling) == Doublings(q)
    decreases q
  {
    if q > 1 {
      var half := (q + 1) / 2;
      Times(1, q - 1, streams);
      Times(2 * (half - 1), q - 1, streams);
      Times(q, 2 * half, streams);
      Twice(half - 1, streams);
      Twice(half, streams);
      LeftIsDoublings(streams * 2, half, ceiling);
    }
  }

  lemma Twice(h: nat, s: nat)
    ensures h * (s * 2) == 2 * h * s
  {}

  /** The search so far: the floor and what it held with, and the lightest broken load
      and what it broke with. */
  datatype Progress<M> = Progress(floor: nat, held: Option<M>, broke: Option<nat>, broken: Option<M>)

  ghost predicate Sound<M>(bench: Bench<M>, ceiling: nat, p: Progress<M>) {
    && p.floor <= ceiling
    && (if p.floor == 0 then p.held.None? else Held(bench, p.floor) && p.held == bench.trial(p.floor))
    && (if p.broke.None? then p.broken.None?
        else p.floor < p.broke.value <= ceiling && Broke(bench, p.broke.value) && p.broken == bench.trial(p.broke.value))
  }

  /** Doubling until a load breaks or the ceiling holds. */
  method Double<M>(bench: Bench<M>, ceiling: nat) returns (r: Option<Progress<M>>, ghost trials: nat)
    requires ceiling >= 1
    ensures r.None? ==> exists s: nat :: 1 <= s <= ceiling && bench.trial(s).None?
    ensures r.Some? ==> Sound(bench, ceiling, r.value) && (r.value.broke.None? ==> r.value.floor == ceiling)
    ensures trials <= 1 + Doublings(ceiling)
  {
    var p: Progress<M>, streams: nat := Progress(0, None, None, None), 1;
    trials := 0;
    LeftIsDoublings(1, ceiling, ceiling);
    while p.broke.None?
      invariant 1 <= streams <= ceiling && Sound(bench, ceiling, p)
      invariant p.broke.None? ==> p.floor < streams && trials + Left(streams, ceiling) <= Doublings(ceiling)
      invariant trials <= 1 + Doublings(ceiling)
      decreases if p.broke.None? then 1 + Left(streams, ceiling) else 0
    {
      var result := bench.trial(streams);
      trials := trials + 1;
      if result.None? {
        return None, trials;
      }
      if bench.holds(result.value) {
        p := p.(floor := streams, held := result);
        if streams == ceiling {
          return Some(p), trials;
        }
        OneDoublingLess(streams, ceiling);
        streams := if streams * 2 < ceiling then streams * 2 else ceiling;
      } else {
        p := p.(broke := Some(streams), broken := result);
      }
    }
    r := Some(p);
  }

  /** Bisecting between the floor and the broken load. */
  method Bisect<M>(bench: Bench<M>, ceiling: nat, start: Progress<M>) returns (r: Option<Progress<M>>, ghost trials: nat)
    requires Sound(bench, ceiling, start)
    ensures r.None? ==> exists s: nat :: 1 <= s <= ceiling && bench.trial(s).None?
    ensures r.Some? ==> Sound(bench, ceiling, r.value)
    ensures r.Some? ==> if start.broke.None? then r.value == start else r.value.broke == Some(r.value.floor + 1)
    ensures trials <= if start.broke.None? then 0 else Doublings(start.broke.value - start.floor)
  {
    var p := start;
    trials := 0;
    while p.broke.Some? && p.broke.value > p.floor + 1
      invariant Sound(bench, ceiling, p) && (p.broke.None? <==> start.broke.None?) && (start.broke.None? ==> p == start)
      invariant if p.broke.None? then trials == 0
                else trials + Doublings(p.broke.value - p.floor) <= Doublings(start.broke.value - start.floor)
      decreases if p.broke.Some? then p.broke.value - p.floor else 0
    {
      var gap := p.broke.value - p.floor;
      var middle := p.floor + gap / 2;
      var result := bench.trial(middle);
      trials := trials + 1;
      DoublingsGrow(gap / 2, (gap + 1) / 2);
      DoublingsGrow(gap - gap / 2, (gap + 1) / 2);
      if result.None? {
        return None, trials;
      }
      if bench.holds(result.value) {
        p := p.(floor := middle, held := result);
      } else {
        p := p.(broke := Some(middle), broken := result);
      }
    }
    r := Some(p);
  }

  /** The capacity search. It fails only where a trial does; its floor is nothing or a load
      that held, kept with the measurements it held with, and it stops only with the floor
      at the ceiling or with the next load broken, within twice the ceiling's doublings. */
  method Search<M>(bench: Bench<M>, ceiling: nat) returns (r: Option<Capacity<M>>, ghost trials: nat)
    requires ceiling >= 1
    ensures r.None? ==> exists s: nat :: 1 <= s <= ceiling && bench.trial(s).None?
    ensures r.Some? ==>
      && r.value.floor <= ceiling
      && (r.value.floor > 0 ==> Held(bench, r.value.floor) && bench.trial(r.value.floor) == Some(r.value.kept))
      && (r.value.floor < ceiling ==> Broke(bench, r.value.floor + 1))
      && (r.value.floor == 0 ==> bench.trial(1) == Some(r.value.kept))
    ensures trials <= 1 + 2 * Doublings(ceiling)
  {
    var doubled: Option<Progress<M>>;
    doubled, trials := Double(bench, ceiling);
    if doubled.None? {
      return None, trials;
    }
    ghost var before := trials;
    var bisected: Option<Progress<M>>;
    bisected, trials := Bisect(bench, ceiling, doubled.value);
    if doubled.value.broke.Some? {
      DoublingsGrow(doubled.value.broke.value - doubled.value.floor, ceiling);
    }
    trials := before + trials;
    if bisected.None? {
      return None, trials;
    }
    var p := bisected.value;
    r := Some(Capacity(p.floor, if p.held.Some? then p.held.value else p.broken.value));
  }

  /** Holding a load is holding every lighter one. */
  ghost predicate DownwardClosed<M>(bench: Bench<M>) {
    forall s: nat, t: nat | 1 <= s <= t :: Held(bench, t) ==> Held(bench, s)
  }

  /** What the search stops on is then the largest load that holds, and the only floor a
      search could stop on. */
  lemma FloorIsCapacity<M>(bench: Bench<M>, ceiling: nat, floor: nat)
    requires DownwardClosed(bench) && floor <= ceiling
    requires floor > 0 ==> Held(bench, floor)
    requires floor < ceiling ==> Broke(bench, floor + 1)
    ensures forall s: nat | 1 <= s <= ceiling :: Held(bench, s) <==> s <= floor
  {
    forall s: nat | 1 <= s <= ceiling
      ensures Held(bench, s) <==> s <= floor
    {
      if s > floor {
        assert Held(bench, s) ==> Held(bench, floor + 1);
      }
    }
  }
}
