/** Feeding a signal pulse by pulse and stitching a delayed output back together. */
module Stitching {
  import opened Multiples

  /** Pulses end to end. */
  function Flat<T>(pulses: seq<seq<T>>): seq<T> {
    if pulses == [] then [] else Flat(pulses[..|pulses| - 1]) + pulses[|pulses| - 1]
  }

  predicate AllPulses<T>(pulses: seq<seq<T>>, p: nat) {
    forall i | 0 <= i < |pulses| :: |pulses[i]| == p
  }

  lemma {:induction false} FlatLength<T>(pulses: seq<seq<T>>, p: nat)
    requires AllPulses(pulses, p)
    ensures |Flat(pulses)| == |pulses| * p
  {
    if pulses != [] {
      FlatLength(pulses[..|pulses| - 1], p);
      assert |pulses| * p == (|pulses| - 1) * p + p;
    }
  }

  /** Pulse `i` is where it belongs. */
  lemma {:induction false} FlatAt<T>(pulses: seq<seq<T>>, p: nat, i: nat)
    requires AllPulses(pulses, p) && i < |pulses|
    ensures |Flat(pulses)| == |pulses| * p && 0 <= i * p <= i * p + p <= |pulses| * p
    ensures Flat(pulses)[i * p..i * p + p] == pulses[i]
    decreases |pulses|
  {
    var last := |pulses| - 1;
    FlatLength(pulses, p);
    FlatLength(pulses[..last], p);
    Times(i + 1, |pulses|, p);
    assert (i + 1) * p == i * p + p;
    if i < last {
      FlatAt(pulses[..last], p, i);
      Times(i + 1, last, p);
      var before := Flat(pulses[..last]);
      assert Flat(pulses)[i * p..i * p + p] == before[i * p..i * p + p];
    } else {
      assert Flat(pulses) == Flat(pulses[..last]) + pulses[last];
    }
  }

  // ---- The input ----

  /** The pulses a signal is fed as, blank past its end. */
  method Feed<T>(signal: seq<T>, p: nat, pulses: nat, blank: T) returns (fed: seq<seq<T>>)
    requires p > 0 && |signal| <= pulses * p
    ensures |fed| == pulses && AllPulses(fed, p)
    ensures Flat(fed) == signal + seq(pulses * p - |signal|, _ => blank)
  {
    fed := [];
    var i := 0;
    while i < pulses
      invariant 0 <= i <= pulses && |fed| == i && AllPulses(fed, p)
      invariant |Flat(fed)| == i * p
      invariant forall x | 0 <= x < i * p :: Flat(fed)[x] == if x < |signal| then signal[x] else blank
    {
      var pulse := seq(p, _ => blank);
      var offset := i * p;
      if offset < |signal| {
        var count := if p < |signal| - offset then p else |signal| - offset;
        pulse := signal[offset..offset + count] + pulse[count..];
      }
      assert (fed + [pulse])[..i] == fed;
      fed := fed + [pulse];
      assert (i + 1) * p == offset + p;
      i := i + 1;
    }
  }

  // ---- The output ----

  /** Whether the pulse ending at `end` reaches into the region of `len` after `delay`. */
  predicate Touches(end: int, p: nat, delay: nat, len: nat) {
    end > delay && end - p < delay + len
  }

  /** The slice kept of the pulse ending at `end`: from where, and how many. */
  function Slice(end: int, p: nat, delay: nat, len: nat): (r: (int, int))
    requires Touches(end, p, delay, len)
  {
    if end - p < delay then (p - (end - delay), end - delay)
    else if end > delay + len then (0, delay + len - (end - p))
    else (0, p)
  }

  predicate Reaches(i: nat, p: nat, delay: nat, len: nat) {
    Touches((i + 1) * p, p, delay, len)
  }

  function Kept(i: nat, p: nat, delay: nat, len: nat): (r: (int, int))
    requires Reaches(i, p, delay, len)
  {
    Slice((i + 1) * p, p, delay, len)
  }

  /** A region strictly inside one pulse: the one case the slicing does not cut at the
      region's end. */
  predicate InsideOnePulse(p: nat, delay: nat, len: nat)
    requires p > 0
  {
    delay % p != 0 && delay % p + len < p
  }

  /** Where the stitched slices end. */
  function StitchedEnd(p: nat, delay: nat, len: nat): nat
    requires p > 0
  {
    if InsideOnePulse(p, delay, len) then (delay / p + 1) * p else delay + len
  }

  /** The slices, pulse by pulse, end to end: exactly the positions from the delay on, to
      the region's end unless the region is strictly inside one pulse. */
  method Stitch<T>(outs: seq<seq<T>>, p: nat, delay: nat, len: nat) returns (stitched: seq<T>)
    requires p > 0 && AllPulses(outs, p) && delay + len <= |outs| * p
    ensures |Flat(outs)| == |outs| * p && StitchedEnd(p, delay, len) <= |outs| * p
    ensures stitched == Flat(outs)[delay..StitchedEnd(p, delay, len)]
  {
    FlatLength(outs, p);
    EndsInTime(p, delay, len, |outs|);
    var flat, stop := Flat(outs), StitchedEnd(p, delay, len);
    stitched := [];
    var i := 0;
    while i < |outs|
      invariant 0 <= i <= |outs| && 0 <= i * p <= |flat| && |flat| == |outs| * p
      invariant stitched == flat[delay..Between(delay, i * p, stop)]
    {
      ghost var sofar := stitched;
      if Reaches(i, p, delay, len) {
        var (from, count) := Kept(i, p, delay, len);
        OnePulse(i, p, delay, len);
        stitched := stitched + outs[i][from..from + count];
      }
      StitchedOneMore(outs, p, delay, len, i, sofar);
      i := i + 1;
    }
  }

  function Between(lo: nat, x: nat, hi: nat): (r: nat)
    requires lo <= hi
    ensures lo <= r <= hi
  {
    if x < lo then lo else if x > hi then hi else x
  }

  /** A slice of the pulse at `at` continues what is stitched so far. */
  lemma Continues<T>(flat: seq<T>, pulse: seq<T>, sofar: seq<T>, at: nat, p: nat, from: nat, count: nat, delay: nat)
    requires |pulse| == p && at + p <= |flat| && flat[at..at + p] == pulse && from + count <= p
    requires delay <= at + from && sofar == flat[delay..at + from]
    ensures sofar + pulse[from..from + count] == flat[delay..at + from + count]
  {
    assert forall k | 0 <= k < p :: pulse[k] == flat[at..at + p][k] == flat[at + k];
    assert pulse[from..from + count] == flat[at + from..at + from + count];
  }

  /** One pulse more is stitched on. */
  lemma StitchedOneMore<T>(outs: seq<seq<T>>, p: nat, delay: nat, len: nat, i: nat, sofar: seq<T>)
    requires p > 0 && AllPulses(outs, p) && i < |outs| && delay + len <= |outs| * p
    requires |Flat(outs)| == |outs| * p && delay <= StitchedEnd(p, delay, len) <= |outs| * p
    requires sofar == Flat(outs)[delay..Between(delay, i * p, StitchedEnd(p, delay, len))]
    ensures 0 <= (i + 1) * p <= |outs| * p
    ensures var kept := if Reaches(i, p, delay, len) then Kept(i, p, delay, len) else (0, 0);
            && 0 <= kept.0 <= kept.0 + kept.1 <= p
            && sofar + outs[i][kept.0..kept.0 + kept.1]
               == Flat(outs)[delay..Between(delay, (i + 1) * p, StitchedEnd(p, delay, len))]
  {
    hide Slice, Touches, StitchedEnd, Between, Flat;
    OnePulse(i, p, delay, len);
    FlatAt(outs, p, i);
    Times(i + 1, |outs|, p);
    if Reaches(i, p, delay, len) {
      var (from, count) := Kept(i, p, delay, len);
      Continues(Flat(outs), outs[i], sofar, i * p, p, from, count, delay);
    } else {
      assert sofar + outs[i][0..0] == sofar;
    }
  }

  lemma EndsInTime(p: nat, delay: nat, len: nat, pulses: nat)
    requires p > 0 && delay + len <= pulses * p
    ensures delay <= StitchedEnd(p, delay, len) <= pulses * p
  {
    if InsideOnePulse(p, delay, len) {
      assert delay / p * p + delay % p == delay;
      if delay / p >= pulses {
        Times(pulses, delay / p, p);
      }
      Times(delay / p + 1, pulses, p);
    }
  }

  /** Where pulse `i` lies: `begin` to `end`, before, at or after the pulse the delay falls
      in, which begins at `first`. */
  predicate Lies(begin: int, end: int, first: int, p: nat, delay: nat) {
    && end == begin + p && first <= delay < first + p
    && (end <= first || begin == first || begin >= first + p)
  }

  predicate Ends(stop: int, first: int, p: nat, delay: nat, len: nat) {
    stop == if delay != first && delay + len < first + p then first + p else delay + len
  }

  /** What the pulse from `begin` to `end` adds takes the stitched end from one to the
      other, as far as the region goes. */
  ghost predicate Adds(begin: nat, end: nat, p: nat, delay: nat, len: nat, stop: nat)
    requires delay <= stop
  {
    if Touches(end, p, delay, len) then
      var (from, count) := Slice(end, p, delay, len);
      && 0 <= from && 0 <= count && from + count <= p
      && begin + from == Between(delay, begin, stop)
      && begin + from + count == Between(delay, end, stop)
    else Between(delay, begin, stop) == Between(delay, end, stop)
  }

  lemma PulseBefore(begin: nat, end: nat, first: int, p: nat, delay: nat, len: nat, stop: nat)
    requires Lies(begin, end, first, p, delay) && Ends(stop, first, p, delay, len) && end <= first && p > 0
    ensures delay <= stop && Adds(begin, end, p, delay, len, stop)
  {}

  lemma PulseAt(begin: nat, end: nat, first: int, p: nat, delay: nat, len: nat, stop: nat)
    requires Lies(begin, end, first, p, delay) && Ends(stop, first, p, delay, len) && begin == first && p > 0
    ensures delay <= stop && Adds(begin, end, p, delay, len, stop)
  {}

  lemma PulseAfter(begin: nat, end: nat, first: int, p: nat, delay: nat, len: nat, stop: nat)
    requires Lies(begin, end, first, p, delay) && Ends(stop, first, p, delay, len) && begin >= first + p && p > 0
    ensures delay <= stop && Adds(begin, end, p, delay, len, stop)
  {}

  lemma Division(delay: nat, p: nat)
    requires p > 0
    ensures delay / p * p + delay % p == delay && (delay / p + 1) * p == delay / p * p + p
  {}

  lemma PulseLies(i: nat, p: nat, delay: nat)
    requires p > 0
    ensures i * p >= 0 && Lies(i * p, (i + 1) * p, delay / p * p, p, delay)
  {
    hide Lies;
    Division(delay, p);
    var begin, end, q := i * p, (i + 1) * p, delay / p;
    assert end == begin + p;
    if i < q {
      Times(i + 1, q, p);
    } else if i > q {
      Times(q + 1, i, p);
    }
    LiesSomewhere(begin, end, q * p, p, delay, i < q, i > q);
  }

  lemma LiesSomewhere(begin: int, end: int, first: int, p: nat, delay: nat, before: bool, behind: bool)
    requires end == begin + p && first <= delay < first + p
    requires if before then end <= first else if behind then first + p <= begin else begin == first
    ensures Lies(begin, end, first, p, delay)
  {}

  lemma StitchedEnds(p: nat, delay: nat, len: nat)
    requires p > 0
    ensures Ends(StitchedEnd(p, delay, len), delay / p * p, p, delay, len)
  {
    Division(delay, p);
  }

  lemma OnePulse(i: nat, p: nat, delay: nat, len: nat)
    requires p > 0
    ensures i * p >= 0 && (i + 1) * p == i * p + p && delay <= StitchedEnd(p, delay, len)
    ensures Adds(i * p, (i + 1) * p, p, delay, len, StitchedEnd(p, delay, len))
  {
    hide StitchedEnd, Adds, Ends, Between;
    PulseLies(i, p, delay);
    StitchedEnds(p, delay, len);
    AnyPulse(i * p, (i + 1) * p, delay / p * p, p, delay, len, StitchedEnd(p, delay, len));
  }

  lemma AnyPulse(begin: nat, end: nat, first: int, p: nat, delay: nat, len: nat, stop: nat)
    requires Lies(begin, end, first, p, delay) && Ends(stop, first, p, delay, len) && p > 0
    ensures delay <= stop && Adds(begin, end, p, delay, len, stop)
  {
    hide Adds, Ends;
    if end <= first {
      PulseBefore(begin, end, first, p, delay, len, stop);
    } else if begin == first {
      PulseAt(begin, end, first, p, delay, len, stop);
    } else {
      PulseAfter(begin, end, first, p, delay, len, stop);
    }
  }

  /** The region is stitched exactly, neither short nor over, if and only if it is not
      strictly inside one pulse; a region of a pulse or more never is, and one that is, is
      stitched to that pulse's end. */
  lemma StitchesExactly(p: nat, delay: nat, len: nat)
    requires p > 0
    ensures StitchedEnd(p, delay, len) == delay + len <==> !InsideOnePulse(p, delay, len)
    ensures len >= p ==> !InsideOnePulse(p, delay, len)
    ensures InsideOnePulse(p, delay, len) ==>
              delay / p * p < delay <= delay + len < StitchedEnd(p, delay, len) == delay / p * p + p
  {
    assert delay / p * p + delay % p == delay;
    assert (delay / p + 1) * p == delay / p * p + p;
  }

  // ---- Enough pulses ----

  function StreamDim(maxDelay: nat, pulse: nat): nat {
    maxDelay + 3 * pulse + pulse / 2
  }

  function Pulses(streamDim: nat, maxDelay: nat, pulse: nat): nat
    requires pulse > 0
  {
    (streamDim + maxDelay) / pulse + 2
  }

  /** The run has pulses enough for the whole signal and for any delayed region of it, one whole
      pulse to spare and no more; and the signal is longer than the longest delay by three and a
      half pulses, the half rounded down. */
  lemma EnoughPulses(maxDelay: nat, pulse: nat, delay: nat, len: nat)
    requires pulse > 0 && delay <= maxDelay && len <= StreamDim(maxDelay, pulse)
    ensures var dim := StreamDim(maxDelay, pulse);
            delay + len <= Pulses(dim, maxDelay, pulse) * pulse && dim <= Pulses(dim, maxDelay, pulse) * pulse
    ensures var dim, pulses := StreamDim(maxDelay, pulse), Pulses(StreamDim(maxDelay, pulse), maxDelay, pulse);
            && (pulses - 2) * pulse <= dim + maxDelay < (pulses - 1) * pulse
            && 2 * (dim - maxDelay - 3 * pulse) <= pulse < 2 * (dim - maxDelay - 3 * pulse) + 2
  {
    var total := StreamDim(maxDelay, pulse) + maxDelay;
    assert total / pulse * pulse + total % pulse == total;
    assert (total / pulse + 2) * pulse == total / pulse * pulse + 2 * pulse;
  }

  /** A node at the input's rate, pulse by pulse: fed the signal blank-padded, its stitched
      output is its output stream from its delay on, for as long as its region. */
  method HandleStream<T(!new), U>(signal: seq<T>, blank: T, pulse: nat, maxDelay: nat, run: (nat, seq<T>) -> seq<U>,
                            delay: nat, len: nat)
    returns (fed: seq<seq<T>>, outs: seq<seq<U>>, stitched: seq<U>)
    requires pulse > 0 && |signal| == StreamDim(maxDelay, pulse)
    requires delay <= maxDelay && pulse <= len <= |signal|
    requires forall i: nat, x | |x| == pulse :: |run(i, x)| == pulse
    ensures |fed| == |outs| == Pulses(|signal|, maxDelay, pulse)
    ensures Flat(fed) == signal + seq(|fed| * pulse - |signal|, _ => blank)
    ensures forall i | 0 <= i < |fed| :: outs[i] == run(i, fed[i])
    ensures delay + len <= |Flat(outs)| && stitched == Flat(outs)[delay..delay + len]
  {
    var pulses := Pulses(|signal|, maxDelay, pulse);
    EnoughPulses(maxDelay, pulse, delay, len);
    fed := Feed(signal, pulse, pulses, blank);
    outs := [];
    var i := 0;
    while i < pulses
      invariant 0 <= i <= pulses == |fed| && |outs| == i
      invariant forall j | 0 <= j < i :: outs[j] == run(j, fed[j]) && |outs[j]| == pulse
    {
      var out := run(i, fed[i]);
      assert |fed[i]| == pulse && |out| == pulse;
      outs := outs + [out];
      i := i + 1;
    }
    stitched := Stitch(outs, pulse, delay, len);
    StitchesExactly(pulse, delay, len);
  }
}
