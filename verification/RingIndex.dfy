/** Indices that walk around a ring of `n` slots. */
module RingIndex {

  /** A ring index after one turn: `x % n` for the values that occur. */
  function Wrap(x: nat, n: nat): nat {
    if x < n then x else x - n
  }

  lemma ModIsWrap(x: nat, n: nat)
    requires x < 2 * n
    ensures x % n == Wrap(x, n)
  {
    if x >= n {
      ModOfTurn(x - n, n);
    }
  }

  lemma ModOfTurn(y: nat, n: nat)
    requires y < n
    ensures (y + n) % n == y
  {
  }
}
