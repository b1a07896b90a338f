/** Outlets of graph nodes, as batchification and plans name them, and node ids. */
module Outlets {
  datatype Outlet = Outlet(node: nat, slot: nat)

  /** A node, and one that must come before it. */
  type Edge = (nat, nat)

  predicate InRange(ids: seq<nat>, m: nat) {
    forall k | 0 <= k < |ids| :: ids[k] < m
  }

  function Below(m: nat): (s: set<nat>)
    ensures forall n: nat :: n in s <==> n < m
  {
    if m == 0 then {} else Below(m - 1) + {m - 1}
  }

  /** The step of node `n`; past the last if it has none. */
  function StepOf(order: seq<nat>, n: nat): (s: nat)
    ensures s <= |order| && (s < |order| ==> order[s] == n)
    ensures n in order ==> s < |order|
  {
    if order == [] || order[0] == n then 0 else 1 + StepOf(order[1..], n)
  }
}
