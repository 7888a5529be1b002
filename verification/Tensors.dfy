/** Dense tensors: a shape and the elements in row-major order, and the shape operations of PyTorch on them. */
module Tensors {
  import opened Radices

  datatype Tensor<+E> = Tensor(shape: seq<nat>, data: seq<E>) {
    predicate Valid() {
      |data| == Prod(shape)
    }
  }

  /** The number of elements of a tensor of the given shape. */
  function Prod(s: seq<nat>): nat {
    if s == [] then 1 else s[0] * Prod(s[1..])
  }

  predicate InBounds(idx: seq<nat>, shape: seq<nat>) {
    |idx| == |shape| && forall i | 0 <= i < |idx| :: idx[i] < shape[i]
  }

  /** Where an index lies in row-major order. */
  function Offset(shape: seq<nat>, idx: seq<nat>): (k: nat)
    requires InBounds(idx, shape)
    ensures k < Prod(shape)
  {
    if shape == [] then 0
    else
      var rest := Offset(shape[1..], idx[1..]);
      RadixBound(idx[0], rest, shape[0], Prod(shape[1..]));
      Radix(idx[0], rest, Prod(shape[1..]))
  }

  /** The index at a place of the row-major order. */
  function Unravel(shape: seq<nat>, k: nat): (idx: seq<nat>)
    requires k < Prod(shape)
    ensures InBounds(idx, shape) && Offset(shape, idx) == k
  {
    if shape == [] then []
    else
      var inner := Prod(shape[1..]);
      DivBelow(inner, shape[0], k);
      var q: nat, r: nat := k / inner, k % inner;
      var rest := Unravel(shape[1..], r);
      FirstDigit(shape, q, rest);
      [q] + rest
  }

  lemma FirstDigit(shape: seq<nat>, q: nat, rest: seq<nat>)
    requires shape != [] && q < shape[0] && InBounds(rest, shape[1..])
    ensures InBounds([q] + rest, shape)
    ensures Offset(shape, [q] + rest) == Radix(q, Offset(shape[1..], rest), Prod(shape[1..]))
  {
    assert ([q] + rest)[1..] == rest;
  }

  lemma {:induction false} UnravelOffset(shape: seq<nat>, idx: seq<nat>)
    requires InBounds(idx, shape)
    ensures Unravel(shape, Offset(shape, idx)) == idx
  {
    if shape != [] {
      UnravelOffset(shape[1..], idx[1..]);
      RadixDigits(idx[0], Offset(shape[1..], idx[1..]), Prod(shape[1..]));
      assert idx == [idx[0]] + idx[1..];
    }
  }

  lemma {:induction false} ProdConcat(s: seq<nat>, t: seq<nat>)
    ensures Prod(s + t) == Prod(s) * Prod(t)
  {
    if s == [] {
      assert s + t == t;
    } else {
      ProdConcat(s[1..], t);
      assert (s + t)[1..] == s[1..] + t;
      assert s[0] * (Prod(s[1..]) * Prod(t)) == s[0] * Prod(s[1..]) * Prod(t);
    }
  }

  lemma ProdOne(n: nat)
    ensures Prod([n]) == n
  {
    assert [n][1..] == [];
  }

  lemma ProdPair(a: nat, b: nat)
    ensures Prod([a, b]) == a * b
  {
    ProdOne(b);
    assert [a, b][1..] == [b];
  }

  /** Regrouping some dimensions keeps the number of elements. */
  lemma ProdMiddle(before: seq<nat>, mid: seq<nat>, mid': seq<nat>, after: seq<nat>)
    requires Prod(mid) == Prod(mid')
    ensures Prod(before + mid + after) == Prod(before + mid' + after)
  {
    ProdConcat(before + mid, after);
    ProdConcat(before, mid);
    ProdConcat(before + mid', after);
    ProdConcat(before, mid');
  }

  lemma {:induction false} OffsetConcat(s: seq<nat>, t: seq<nat>, i: seq<nat>, j: seq<nat>)
    requires InBounds(i, s) && InBounds(j, t)
    ensures InBounds(i + j, s + t) && Offset(s + t, i + j) == Radix(Offset(s, i), Offset(t, j), Prod(t))
  {
    if s == [] {
      assert s + t == t && i + j == j;
    } else {
      OffsetConcat(s[1..], t, i[1..], j);
      ProdConcat(s[1..], t);
      assert (s + t)[1..] == s[1..] + t && (i + j)[1..] == i[1..] + j;
      RadixAssoc(i[0], Offset(s[1..], i[1..]), Offset(t, j), Prod(s[1..]), Prod(t));
    }
  }

  lemma RadixAssoc(a: nat, b: nat, c: nat, m: nat, n: nat)
    ensures Radix(a, Radix(b, c, n), m * n) == Radix(Radix(a, b, m), c, n)
  {
    assert a * (m * n) == a * m * n;
  }

  // ---- Places of indices of a few dimensions ----

  lemma ProdTriple(a: nat, b: nat, c: nat)
    ensures Prod([a, b, c]) == a * (b * c)
  {
    ProdPair(b, c);
    assert [a, b, c][1..] == [b, c];
  }

  lemma Place2(a: nat, b: nat, i: nat, j: nat)
    requires i < a && j < b
    ensures InBounds([i, j], [a, b]) && Offset([a, b], [i, j]) == Radix(i, j, b)
  {
    ProdOne(b);
    assert [a, b][1..] == [b] && [i, j][1..] == [j] && [b][1..] == [] && [j][1..] == [];
  }

  lemma Place3(a: nat, b: nat, c: nat, i: nat, j: nat, k: nat)
    requires i < a && j < b && k < c
    ensures InBounds([i, j, k], [a, b, c]) && Offset([a, b, c], [i, j, k]) == Radix(Radix(i, j, b), k, c)
  {
    Place2(b, c, j, k);
    ProdPair(b, c);
    assert [a, b, c][1..] == [b, c] && [i, j, k][1..] == [j, k];
    RadixAssoc(i, j, k, b, c);
  }

  lemma Place4(a: nat, b: nat, c: nat, d: nat, i: nat, j: nat, k: nat, l: nat)
    requires i < a && j < b && k < c && l < d
    ensures InBounds([i, j, k, l], [a, b, c, d])
    ensures Offset([a, b, c, d], [i, j, k, l]) == Radix(Radix(Radix(i, j, b), k, c), l, d)
  {
    var rest := Radix(Radix(j, k, c), l, d);
    Place3(b, c, d, j, k, l);
    assert [a, b, c, d][1..] == [b, c, d] && [i, j, k, l][1..] == [j, k, l];
    assert Offset([a, b, c, d], [i, j, k, l]) == Radix(i, rest, Prod([b, c, d]));
    FourDigits(b, c, d, i, j, k, l);
  }

  lemma FourDigits(b: nat, c: nat, d: nat, i: nat, j: nat, k: nat, l: nat)
    ensures Radix(i, Radix(Radix(j, k, c), l, d), Prod([b, c, d])) == Radix(Radix(Radix(i, j, b), k, c), l, d)
  {
    ProdTriple(b, c, d);
    RadixAssoc(i, Radix(j, k, c), l, b * c, d);
    RadixAssoc(i, j, k, b, c);
    assert b * (c * d) == b * c * d;
  }

  function At<E>(t: Tensor<E>, idx: seq<nat>): E
    requires t.Valid() && InBounds(idx, t.shape)
  {
    t.data[Offset(t.shape, idx)]
  }

  /** Tensors that agree at every index are the same. */
  lemma SameElements<E>(s: Tensor<E>, t: Tensor<E>)
    requires s.Valid() && t.Valid() && s.shape == t.shape
    requires forall idx | InBounds(idx, s.shape) :: At(s, idx) == At(t, idx)
    ensures s == t
  {
    forall k | 0 <= k < |s.data| ensures s.data[k] == t.data[k] {
      assert At(s, Unravel(s.shape, k)) == At(t, Unravel(s.shape, k));
    }
  }
}
