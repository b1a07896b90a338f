/** Multiples keep the order of what they multiply. */
module Multiples {
  lemma Times(a: nat, b: nat, p: nat)
    requires a <= b
    ensures a * p <= b * p
  {}
}
