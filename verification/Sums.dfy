/** Finite sums of exact reals. */
module Sums {
  import opened Radices

  function Sum(n: nat, f: nat -> real): real {
    if n == 0 then 0.0 else Sum(n - 1, f) + f(n - 1)
  }

  lemma {:induction false} SumSame(n: nat, f: nat -> real, g: nat -> real)
    requires forall k: nat | k < n :: f(k) == g(k)
    ensures Sum(n, f) == Sum(n, g)
  {
    if n > 0 {
      SumSame(n - 1, f, g);
    }
  }

  /** A sum cut into its first `m` and its last `n` terms. */
  lemma {:induction false} SumParts(m: nat, n: nat, f: nat -> real, g: nat -> real, h: nat -> real)
    requires forall k: nat | k < m + n :: f(k) == if k < m then g(k) else h(k - m)
    ensures Sum(m + n, f) == Sum(m, g) + Sum(n, h)
  {
    if n > 0 {
      SumParts(m, n - 1, f, g, h);
    } else {
      SumSame(m, f, g);
    }
  }

  lemma {:induction false} SumAdd(n: nat, f: nat -> real, g: nat -> real, h: nat -> real)
    requires forall k: nat | k < n :: f(k) == g(k) + h(k)
    ensures Sum(n, f) == Sum(n, g) + Sum(n, h)
  {
    if n > 0 {
      SumAdd(n - 1, f, g, h);
    }
  }

  lemma {:induction false} SumScaled(n: nat, c: real, f: nat -> real, g: nat -> real)
    requires forall k: nat | k < n :: f(k) == c * g(k)
    ensures Sum(n, f) == c * Sum(n, g)
  {
    if n > 0 {
      SumScaled(n - 1, c, f, g);
    }
  }

  lemma {:induction false} SumConstant(n: nat, c: real, f: nat -> real)
    requires forall k: nat | k < n :: f(k) == c
    ensures Sum(n, f) == n as real * c
  {
    if n > 0 {
      SumConstant(n - 1, c, f);
    }
  }

  function PlusOf(f: nat -> real, g: nat -> real): nat -> real {
    (k: nat) => f(k) + g(k)
  }

  function ScaleOf(a: real, f: nat -> real): nat -> real {
    (k: nat) => a * f(k)
  }

  function ConstantOf(a: real): nat -> real {
    (k: nat) => a
  }

  lemma SumOfPlus(n: nat, f: nat -> real, g: nat -> real)
    ensures Sum(n, PlusOf(f, g)) == Sum(n, f) + Sum(n, g)
  {
    SumAdd(n, PlusOf(f, g), f, g);
  }

  lemma SumOfScale(n: nat, a: real, f: nat -> real)
    ensures Sum(n, ScaleOf(a, f)) == a * Sum(n, f)
  {
    SumScaled(n, a, ScaleOf(a, f), f);
  }

  function Row(g: (nat, nat) -> real, a: nat): nat -> real {
    (b: nat) => g(a, b)
  }

  function Column(g: (nat, nat) -> real, b: nat): nat -> real {
    (a: nat) => g(a, b)
  }

  /** The sums of the rows of a table. */
  function RowSums(n: nat, g: (nat, nat) -> real): nat -> real {
    (a: nat) => Sum(n, Row(g, a))
  }

  function ColumnSums(m: nat, g: (nat, nat) -> real): nat -> real {
    (b: nat) => Sum(m, Column(g, b))
  }

  /** A table can be summed by rows or by columns. */
  lemma {:induction false} SumSwap(m: nat, n: nat, g: (nat, nat) -> real)
    ensures Sum(m, RowSums(n, g)) == Sum(n, ColumnSums(m, g))
  {
    if m == 0 {
      SumConstant(n, 0.0, ColumnSums(0, g));
    } else {
      SumSwap(m - 1, n, g);
      SumAdd(n, ColumnSums(m, g), ColumnSums(m - 1, g), Row(g, m - 1));
    }
  }

  /** A table summed along its row-major flattening. */
  function Flattened(n: nat, g: (nat, nat) -> real): nat -> real {
    (k: nat) => if n == 0 then 0.0 else g(k / n, k % n)
  }

  lemma FlattenedAt(n: nat, g: (nat, nat) -> real, a: nat, b: nat, k: nat)
    requires b < n && k == a * n + b
    ensures Flattened(n, g)(k) == g(a, b)
  {
    RadixDigits(a, b, n);
  }

  lemma {:induction false} SumFlattened(m: nat, n: nat, g: (nat, nat) -> real)
    ensures Sum(m * n, Flattened(n, g)) == Sum(m, RowSums(n, g))
  {
    if m > 0 {
      SumFlattened(m - 1, n, g);
      var start := (m - 1) * n;
      assert m * n == start + n;
      forall k: nat | k < start + n
        ensures Flattened(n, g)(k) == if k < start then Flattened(n, g)(k) else Row(g, m - 1)(k - start)
      {
        if k >= start {
          FlattenedAt(n, g, m - 1, k - start, k);
        }
      }
      SumParts(start, n, Flattened(n, g), Flattened(n, g), Row(g, m - 1));
    }
  }
}
