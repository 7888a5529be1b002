/** Positional arithmetic: the digits of a row-major index. */
module Radices {

  /** Two digits of a row-major index. */
  function Radix(a: nat, b: nat, n: nat): nat {
    a * n + b
  }

  lemma RadixMonotone(a: nat, b: nat, a': nat, b': nat, n: nat)
    requires a < a' && b < n
    ensures Radix(a, b, n) < Radix(a', b', n)
  {
    assert (a + 1) * n <= a' * n;
  }

  lemma RadixInjective(a: nat, b: nat, a': nat, b': nat, n: nat)
    requires b < n && b' < n && Radix(a, b, n) == Radix(a', b', n)
    ensures a == a' && b == b'
  {
    if a < a' {
      RadixMonotone(a, b, a', b', n);
    } else if a' < a {
      RadixMonotone(a', b', a, b, n);
    }
  }

  lemma RadixBound(a: nat, b: nat, m: nat, n: nat)
    requires a < m && b < n
    ensures Radix(a, b, n) < m * n
  {
    RadixMonotone(a, b, m, 0, n);
  }

  /** Division and remainder recover the digits. */
  lemma RadixDigits(a: nat, b: nat, n: nat)
    requires b < n
    ensures Radix(a, b, n) / n == a && Radix(a, b, n) % n == b
  {
    var k := Radix(a, b, n);
    assert k == Radix(k / n, k % n, n);
    RadixInjective(k / n, k % n, a, b, n);
  }

  /** Division that rounds up. */
  function CeilDiv(a: nat, b: nat): nat
    requires b > 0
  {
    (a + b - 1) / b
  }

  lemma DivAtLeast(n: nat, q: nat, k: nat)
    requires n > 0 && k >= q * n
    ensures k / n >= q
  {
    if k / n < q {
      RadixMonotone(k / n, k % n, q, 0, n);
    }
  }

  lemma DivBelow(n: nat, m: nat, k: nat)
    requires k < m * n
    ensures n > 0 && k / n < m && k == Radix(k / n, k % n, n)
  {
    assert n == 0 ==> m * n == 0;
    var q := k / n;
    assert k == Radix(q, k % n, n);
    assert q >= m ==> q * n >= m * n;
  }

  lemma Fourth(n: nat)
    requires n % 4 == 0
    ensures 2 * (n / 2) == n && 4 * (n / 4) == n
  {
    var k := n / 4;
    assert n == Radix(k, 0, 4) == Radix(2 * k, 0, 2);
    RadixDigits(2 * k, 0, 2);
  }
}
