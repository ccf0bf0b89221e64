/** Python's `round(a / n, 3)` on exact rationals: round half to even, in thousandths. */
module Rounding {

  /** The integer nearest to a / n, a tie going to the even one. */
  function RoundDiv(a: nat, n: nat): nat
    requires n > 0
  {
    var q, rest := a / n, a % n;
    if 2 * rest < n || (2 * rest == n && q % 2 == 0) then q else q + 1
  }

  lemma RoundDivNearest(a: nat, n: nat)
    requires n > 0
    ensures -(n as int) <= 2 * (a - RoundDiv(a, n) * n) <= n
  {
    var q, rest := a / n, a % n;
    assert a == q * n + rest;
    assert (q + 1) * n == q * n + n;
  }

  function Thousandths(a: nat, n: nat): nat
    requires n > 0
  {
    RoundDiv(1000 * a, n)
  }
}
