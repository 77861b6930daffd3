/** Remainders of natural numbers, for rotations and cohorts. */
module Modulo {
  lemma ModBelow(a: nat, n: nat)
    requires a < n
    ensures a % n == a
  {
  }

  lemma AtLeastOnce(n: nat, d: int)
    requires d >= 1
    ensures n * d >= n
  {
    assert n * d == n + n * (d - 1);
  }

  lemma ModUnique(a: int, q: int, r: int, n: nat)
    requires n > 0 && 0 <= r < n && a == n * q + r
    ensures a % n == r
  {
    var q', r' := a / n, a % n;
    assert n * (q - q') == r' - r;
    assert n * (q' - q) == r - r';
    if q > q' {
      AtLeastOnce(n, q - q');
    } else if q < q' {
      AtLeastOnce(n, q' - q);
    }
  }

  lemma ModStep(a: int, n: nat)
    requires n > 0
    ensures (a + n) % n == a % n
  {
    ModUnique(a + n, a / n + 1, a % n, n);
  }

  lemma ModSucc(a: int, n: nat)
    requires n > 0
    ensures (a % n + 1) % n == (a + 1) % n
  {
    if a % n + 1 < n {
      ModUnique(a + 1, a / n, a % n + 1, n);
      ModBelow(a % n + 1, n);
    } else {
      ModUnique(a + 1, a / n + 1, 0, n);
      ModUnique(n, 1, 0, n);
    }
  }

  // How far ahead the next number with a given remainder is.
  function Ahead(first: nat, target: nat, n: nat): (r: nat)
    requires target < n
    ensures r < n
  {
    var base := first % n;
    if target >= base then target - base else target - base + n
  }

  lemma AheadHits(first: nat, target: nat, n: nat)
    requires target < n
    ensures (first + Ahead(first, target, n)) % n == target
  {
    if target >= first % n {
      ModUnique(first + Ahead(first, target, n), first / n, target, n);
    } else {
      ModUnique(first + Ahead(first, target, n), first / n + 1, target, n);
    }
  }
}
