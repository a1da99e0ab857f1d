/** Products of a count and a duration. */
module Products {

  lemma MulStep(k: nat, b: int)
    ensures (k + 1) * b == k * b + b
  {
  }

  lemma MulAtLeast(a: nat, q: nat, b: int)
    requires b >= 0 && a >= q
    ensures a * b >= q * b
  {
  }
}
