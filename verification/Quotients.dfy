/** Division facts that the counters need. */
module Quotients {

  function Quo(x: nat, m: nat): nat
    requires m > 0
  {
    x / m
  }

  function Rem(x: nat, m: nat): nat
    requires m > 0
  {
    x % m
  }

  lemma SmallQuotient(x: nat, m: nat)
    requires x < m
    ensures Rem(x, m) == x && Quo(x, m) == 0
  {
  }

  lemma QuotientIs(x: nat, m: nat, q: nat, r: nat)
    requires r < m && x == m * q + r
    ensures Quo(x, m) == q && Rem(x, m) == r
  {
    var d := x / m - q;
    assert m * (x / m) + x % m == x;
    assert m * d == r - x % m;
    assert d >= 1 ==> m * d >= m;
    assert d <= -1 ==> m * d <= -1 * m;
  }

  /** Counting one further: the remainder goes on, or starts over and the quotient goes on. */
  lemma NextQuotient(x: nat, m: nat)
    requires m > 0
    ensures Rem(x, m) < m
    ensures Rem(x + 1, m) == (if Rem(x, m) == m - 1 then 0 else Rem(x, m) + 1)
    ensures Quo(x + 1, m) == Quo(x, m) + (if Rem(x, m) == m - 1 then 1 else 0)
  {
    var q, r := x / m, x % m;
    assert x == m * q + r;
    if r == m - 1 {
      assert x + 1 == m * (q + 1);
      QuotientIs(x + 1, m, q + 1, 0);
    } else {
      QuotientIs(x + 1, m, q, r + 1);
    }
  }
}
