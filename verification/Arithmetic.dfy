/** Facts about products that the solver is better told than asked. */
module Arithmetic {
  lemma MulMonotone(a: nat, b: nat, d: nat)
    requires a <= b
    ensures a * d <= b * d
  {
  }
}
