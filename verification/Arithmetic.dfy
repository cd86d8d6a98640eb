/** Multiplication facts that the batch and rate bounds share. */
module Arithmetic {
  lemma MulMonotone(a: nat, b: nat, d: nat)
    requires a <= b
    ensures a * d <= b * d
  {
    assert (b - a) * d == b * d - a * d;
  }
}
