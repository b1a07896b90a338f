/** The glob matcher of the bench suite: leftmost finds between a prefix and a suffix. */
module Globs {
  import opened Outcomes

  // ---- What a glob means ----

  function Stars(pattern: string): nat {
    if pattern == [] then 0 else (if pattern[0] == '*' then 1 else 0) + Stars(pattern[1..])
  }

  /** The pattern with its stars replaced, in order. */
  function Filled(pattern: string, fills: seq<string>): string
    requires |fills| == Stars(pattern)
  {
    if pattern == [] then ""
    else if pattern[0] == '*' then fills[0] + Filled(pattern[1..], fills[1..])
    else [pattern[0]] + Filled(pattern[1..], fills)
  }

  /** Some choice of substrings for the stars makes the pattern the name. */
  ghost predicate Means(pattern: string, name: string) {
    exists fills :: FillsIn(pattern, fills, name)
  }

  ghost predicate FillsIn(pattern: string, fills: seq<string>, name: string) {
    |fills| == Stars(pattern) && Filled(pattern, fills) == name
  }

  // ---- The matcher ----

  /** `pattern.split('*')`: the parts between stars, one more than there are stars. */
  function Split(pattern: string): (parts: seq<string>)
    ensures |parts| == Stars(pattern) + 1
  {
    if pattern == [] then [""]
    else
      var rest := Split(pattern[1..]);
      if pattern[0] == '*' then [""] + rest else [[pattern[0]] + rest[0]] + rest[1..]
  }

  predicate OccursAt(hay: string, needle: string, i: nat) {
    i + |needle| <= |hay| && hay[i..i + |needle|] == needle
  }

  /** `hay.find(needle)`: the leftmost occurrence from `from` on. */
  function FindFrom(hay: string, needle: string, from: nat): (r: Option<nat>)
    ensures r.Some? ==> OccursAt(hay, needle, r.value) && from <= r.value
    ensures r.Some? ==> forall i | from <= i < r.value :: !OccursAt(hay, needle, i)
    ensures r.None? ==> forall i | from <= i :: !OccursAt(hay, needle, i)
    decreases |hay| - from
  {
    if from + |needle| > |hay| then None
    else if OccursAt(hay, needle, from) then Some(from)
    else FindFrom(hay, needle, from + 1)
  }

  /** The middle parts, each at its leftmost occurrence after the one before, then the
      last part as a suffix of what is left. */
  function Greedy(middle: seq<string>, last: string, rest: string): bool {
    if middle == [] then |last| <= |rest| && rest[|rest| - |last|..] == last
    else
      match FindFrom(rest, middle[0], 0)
      case None => false
      case Some(i) => Greedy(middle[1..], last, rest[i + |middle[0]|..])
  }

  function Globbed(pattern: string, name: string): bool {
    var parts := Split(pattern);
    if !(parts[0] <= name) then false
    else if |parts| == 1 then name == parts[0]
    else Greedy(parts[1..|parts| - 1], parts[|parts| - 1], name[|parts[0]|..])
  }

  /** `glob_match`, the case of both strings folded by `lower` first. */
  method GlobMatch(pattern0: string, name0: string, lower: string -> string) returns (matches: bool)
    ensures matches <==> Means(lower(pattern0), lower(name0))
  {
    hide Means, FindFrom, Split;
    var pattern, name := lower(pattern0), lower(name0);
    GreedyIsComplete(pattern, name);
    var parts := Split(pattern);
    if !(parts[0] <= name) {
      return false;
    }
    var rest := name[|parts[0]|..];
    assert name == parts[0] + rest;
    if |parts| == 1 {
      return rest == [];
    }
    var last := parts[|parts| - 1];
    var middle := parts[1..|parts| - 1];
    var k := 0;
    while k < |middle|
      invariant 0 <= k <= |middle|
      invariant Globbed(pattern, name) == Greedy(middle[k..], last, rest)
    {
      var found := FindFrom(rest, middle[k], 0);
      if found.None? {
        return false;
      }
      assert middle[k..][1..] == middle[k + 1..];
      rest := rest[found.value + |middle[k]|..];
      k := k + 1;
    }
    matches := |last| <= |rest| && rest[|rest| - |last|..] == last;
  }

  // ---- Filling a pattern is filling its parts ----

  /** The parts with a fill after each but the last. */
  function Joined(parts: seq<string>, fills: seq<string>): string
    requires |parts| == |fills| + 1
  {
    if fills == [] then parts[0] else parts[0] + fills[0] + Joined(parts[1..], fills[1..])
  }

  lemma {:induction false} FilledIsJoined(pattern: string, fills: seq<string>)
    requires |fills| == Stars(pattern)
    ensures Filled(pattern, fills) == Joined(Split(pattern), fills)
  {
    if pattern != [] {
      var parts, rest := Split(pattern), Split(pattern[1..]);
      if pattern[0] == '*' {
        FilledIsJoined(pattern[1..], fills[1..]);
        assert parts[1..] == rest;
      } else {
        FilledIsJoined(pattern[1..], fills);
        assert parts[1..] == rest[1..];
        if fills != [] {
          assert [pattern[0]] + (rest[0] + fills[0] + Joined(rest[1..], fills[1..]))
                 == ([pattern[0]] + rest[0]) + fills[0] + Joined(rest[1..], fills[1..]);
        }
      }
    }
  }

  // ---- Greedy is sound and complete ----

  /** What is left after a part, filled somehow up to the next part and so on. */
  ghost predicate Tails(middle: seq<string>, last: string, fills: seq<string>, rest: string) {
    |fills| == |middle| + 1 && Tail(middle, last, fills) == rest
  }

  function Tail(middle: seq<string>, last: string, fills: seq<string>): string
    requires |fills| == |middle| + 1
  {
    if middle == [] then fills[0] + last else fills[0] + middle[0] + Tail(middle[1..], last, fills[1..])
  }

  lemma {:induction false} GreedyFinds(middle: seq<string>, last: string, rest: string) returns (fills: seq<string>)
    requires Greedy(middle, last, rest)
    ensures Tails(middle, last, fills, rest)
    decreases |middle|
  {
    if middle == [] {
      fills := [rest[..|rest| - |last|]];
    } else {
      var i := FindFrom(rest, middle[0], 0).value;
      var after := rest[i + |middle[0]|..];
      var more := GreedyFinds(middle[1..], last, after);
      fills := [rest[..i]] + more;
      assert fills[1..] == more;
      assert rest == rest[..i] + rest[i..i + |middle[0]|] + after;
    }
  }

  /** Taking the leftmost occurrence loses nothing: what another choice skipped goes to
      the next star. */
  lemma {:induction false} GreedyLosesNothing(middle: seq<string>, last: string, rest: string, fills: seq<string>)
    requires Tails(middle, last, fills, rest)
    ensures Greedy(middle, last, rest)
    decreases |middle|
  {
    if middle != [] {
      var m, after := |middle[0]|, Tail(middle[1..], last, fills[1..]);
      var j := |fills[0]|;
      assert rest == fills[0] + middle[0] + after;
      assert OccursAt(rest, middle[0], j);
      var i := FindFrom(rest, middle[0], 0).value;
      assert i <= j;
      var skipped := rest[i + m..j + m];
      assert rest[i + m..] == skipped + after by {
        assert rest[j + m..] == after;
      }
      var wider := [skipped + fills[1]] + fills[2..];
      WiderTail(middle[1..], last, fills[1..], skipped);
      assert fills[1..][1..] == fills[2..];
      GreedyLosesNothing(middle[1..], last, rest[i + m..], wider);
    } else {
      assert rest[|rest| - |last|..] == last;
    }
  }

  lemma WiderTail(middle: seq<string>, last: string, fills: seq<string>, more: string)
    requires |fills| == |middle| + 1
    ensures Tail(middle, last, [more + fills[0]] + fills[1..]) == more + Tail(middle, last, fills)
  {
    var wider := [more + fills[0]] + fills[1..];
    assert wider[1..] == fills[1..];
    if middle == [] {
      assert (more + fills[0]) + last == more + (fills[0] + last);
    } else {
      var rest := Tail(middle[1..], last, fills[1..]);
      assert (more + fills[0]) + middle[0] + rest == more + (fills[0] + middle[0] + rest);
    }
  }

  lemma {:induction false} JoinedIsTail(parts: seq<string>, fills: seq<string>)
    requires |parts| == |fills| + 1 && |fills| > 0
    ensures Joined(parts, fills) == parts[0] + Tail(parts[1..|parts| - 1], parts[|parts| - 1], fills)
    decreases |fills|
  {
    var middle, last := parts[1..|parts| - 1], parts[|parts| - 1];
    var rest := parts[1..];
    if |fills| == 1 {
      assert Joined(rest, fills[1..]) == last;
      assert parts[0] + fills[0] + last == parts[0] + (fills[0] + last);
    } else {
      JoinedIsTail(rest, fills[1..]);
      assert rest[1..|rest| - 1] == middle[1..] && rest[0] == middle[0] && rest[|rest| - 1] == last;
      var tail := Tail(middle[1..], last, fills[1..]);
      assert parts[0] + fills[0] + (middle[0] + tail) == parts[0] + (fills[0] + middle[0] + tail);
    }
  }

  /** A name is accepted exactly when some substrings for the stars make the pattern it. */
  lemma GreedyIsComplete(pattern: string, name: string)
    ensures Globbed(pattern, name) <==> Means(pattern, name)
  {
    var parts := Split(pattern);
    if Globbed(pattern, name) {
      if |parts| == 1 {
        FilledIsJoined(pattern, []);
        assert FillsIn(pattern, [], name);
      } else {
        var middle, last, rest := parts[1..|parts| - 1], parts[|parts| - 1], name[|parts[0]|..];
        var fills := GreedyFinds(middle, last, rest);
        JoinedIsTail(parts, fills);
        FilledIsJoined(pattern, fills);
        assert name == parts[0] + rest;
        assert FillsIn(pattern, fills, name);
      }
    }
    if Means(pattern, name) {
      var fills :| FillsIn(pattern, fills, name);
      FilledIsJoined(pattern, fills);
      if |parts| > 1 {
        JoinedIsTail(parts, fills);
        var middle, last := parts[1..|parts| - 1], parts[|parts| - 1];
        assert name[|parts[0]|..] == Tail(middle, last, fills);
        GreedyLosesNothing(middle, last, name[|parts[0]|..], fills);
      }
    }
  }
}
