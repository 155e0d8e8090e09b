/**
 * Integer facts shared by the cycler and the loop schedule: Python's `%` and `//`
 * on a positive divisor agree with Dafny's Euclidean `%` and `/`, so these are
 * stated once here for the operations the script performs.
 */
module Arith {

  /** Floor division and remainder are determined by `a == q * m + r` with `0 <= r < m`. */
  lemma DivModUnique(a: int, m: int, q: int, r: int)
    requires m > 0 && 0 <= r < m && a == q * m + r
    ensures a / m == q && a % m == r
  {
    var q', r' := a / m, a % m;
    assert a == q' * m + r';
    if q' < q {
      assert (q - q') * m == r' - r;
      MulAtLeast(q - q', m);
    } else if q < q' {
      assert (q' - q) * m == r - r';
      MulAtLeast(q' - q, m);
    }
  }

  lemma {:induction false} MulAtLeast(x: int, m: int)
    requires x >= 1 && m > 0
    ensures x * m >= m
  {
    if x > 1 {
      MulAtLeast(x - 1, m);
      assert x * m == (x - 1) * m + m;
    }
  }

  /** Stepping a counter by one moves its remainder by one, wrapping to 0 at `m`. */
  lemma ModSucc(c: int, m: int)
    requires m > 0
    ensures (c + 1) % m == if c % m + 1 == m then 0 else c % m + 1
    ensures (c + 1) / m == if c % m + 1 == m then c / m + 1 else c / m
  {
    var q, r := c / m, c % m;
    assert c == q * m + r;
    if r + 1 == m {
      DivModUnique(c + 1, m, q + 1, 0);
    } else {
      DivModUnique(c + 1, m, q, r + 1);
    }
  }

  /**
   * How many of the iteration numbers `0, 1, ..., n - 1` are multiples of `m`, counted
   * one iteration at a time as the loop's `i % m == 0` test does.
   */
  function MultiplesBelow(n: nat, m: nat): nat
    requires m > 0
  {
    if n == 0 then 0 else MultiplesBelow(n - 1, m) + (if (n - 1) % m == 0 then 1 else 0)
  }

  /** The count has the closed form `ceil(n / m)`. */
  lemma {:induction false} MultiplesBelowClosedForm(n: nat, m: nat)
    requires m > 0
    ensures MultiplesBelow(n, m) == (n + m - 1) / m
  {
    if n == 0 {
      DivModUnique(m - 1, m, 0, m - 1);
    } else {
      MultiplesBelowClosedForm(n - 1, m);
      var c := n + m - 2;
      assert MultiplesBelow(n - 1, m) == c / m;
      ModSucc(c, m);
      assert c % m + 1 == m <==> (n - 1) % m == 0 by {
        var q, r := (n - 1) / m, (n - 1) % m;
        assert n - 1 == q * m + r;
        if r == 0 {
          DivModUnique(c, m, q, m - 1);
        } else {
          assert c == (q + 1) * m + (r - 1);
          DivModUnique(c, m, q + 1, r - 1);
        }
      }
    }
  }
}
