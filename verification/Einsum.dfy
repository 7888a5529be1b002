/** The einsum forms that are computed as batched matrix products of reshaped operands. */
module Einsum {
  import opened Radices
  import opened ShapePrograms
  import opened Slices
  import opened Sums
  import opened Tensors
  import opened Views
  import opened Wrappers

  // ---- Batched products ----

  /** `matmul` of three-dimensional tensors with the second one transposed. */
  predicate CanBatch(a: Tensor<real>, b: Tensor<real>) {
    && a.Valid() && b.Valid() && |a.shape| == 3 && |b.shape| == 3
    && a.shape[0] == b.shape[0] && a.shape[2] == b.shape[2]
  }

  function BatchTerms(a: Tensor<real>, b: Tensor<real>, p: nat, i: nat, j: nat): nat -> real
    requires CanBatch(a, b) && p < a.shape[0] && i < a.shape[1] && j < b.shape[1]
  {
    (k: nat) => if k < a.shape[2] then At(a, [p, i, k]) * At(b, [p, j, k]) else 0.0
  }

  function BatchAt(a: Tensor<real>, b: Tensor<real>, idx: seq<nat>): real
    requires CanBatch(a, b) && InBounds(idx, [a.shape[0], a.shape[1], b.shape[1]])
  {
    Sum(a.shape[2], BatchTerms(a, b, idx[0], idx[1], idx[2]))
  }

  function BatchedMatmul(a: Tensor<real>, b: Tensor<real>): (t: Option<Tensor<real>>)
    ensures t.Some? ==> t.value.Valid()
  {
    if !CanBatch(a, b) then None
    else
      var shape := [a.shape[0], a.shape[1], b.shape[1]];
      Some(Build(shape, idx requires InBounds(idx, shape) => BatchAt(a, b, idx)))
  }

  // ---- The three forms ----

  function Viewed(t: Option<Tensor<real>>, shape: seq<nat>): Option<Tensor<real>>
    requires t.Some? ==> t.value.Valid()
  {
    match t
    case None => None
    case Some(u) => View(u, shape)
  }

  /** "mk,menk->men" */
  function MkMenkMen(x: Tensor<real>, w: Tensor<real>): Option<Tensor<real>>
    requires x.Valid() && |x.shape| == 2 && w.Valid() && |w.shape| == 4
  {
    ApplyValid(Unsqueeze(1), x);
    var a := Apply(Unsqueeze(1), x);
    var b := View(w, [w.shape[0], w.shape[1] * w.shape[2], w.shape[3]]);
    if a.None? || b.None? then None
    else Viewed(BatchedMatmul(a.value, b.value), [w.shape[0], w.shape[1], w.shape[2]])
  }

  /** "mek,menk->men" */
  function MekMenkMen(x: Tensor<real>, w: Tensor<real>): Option<Tensor<real>>
    requires x.Valid() && |x.shape| == 3 && w.Valid() && |w.shape| == 4
  {
    var a := View(x, [x.shape[0] * x.shape[1], 1, x.shape[2]]);
    var b := View(w, [w.shape[0] * w.shape[1], w.shape[2], w.shape[3]]);
    if a.None? || b.None? then None
    else Viewed(BatchedMatmul(a.value, b.value), [w.shape[0], w.shape[1], w.shape[2]])
  }

  /** "me,men->men" */
  function MeMenMen(x: Tensor<real>, w: Tensor<real>): Option<Tensor<real>>
    requires x.Valid() && |x.shape| == 2 && w.Valid() && |w.shape| == 3
  {
    var a := View(x, [x.shape[0] * x.shape[1], 1, 1]);
    var b := View(w, [w.shape[0] * w.shape[1], w.shape[2], 1]);
    if a.None? || b.None? then None
    else Viewed(BatchedMatmul(a.value, b.value), [w.shape[0], w.shape[1], w.shape[2]])
  }

  // ---- Places in row-major order ----

  /** Merging two neighbouring dimensions keeps every element in its place. */
  lemma MergedPlaces(a: nat, b: nat, c: nat, d: nat, i: nat, j: nat, k: nat, l: nat)
    requires i < a && j < b && k < c && l < d
    ensures InBounds([i, j, k, l], [a, b, c, d])
    ensures InBounds([i, Radix(j, k, c), l], [a, b * c, d]) && InBounds([Radix(i, j, b), k, l], [a * b, c, d])
    ensures Offset([a, b * c, d], [i, Radix(j, k, c), l]) == Offset([a, b, c, d], [i, j, k, l])
         == Offset([a * b, c, d], [Radix(i, j, b), k, l])
  {
    RadixBound(j, k, b, c);
    RadixBound(i, j, a, b);
    Place3(a, b * c, d, i, Radix(j, k, c), l);
    Place3(a * b, c, d, Radix(i, j, b), k, l);
    Place4(a, b, c, d, i, j, k, l);
    RadixAssoc(i, j, k, b, c);
  }

  // ---- Einstein sums ----

  /** The products that an Einstein sum adds up for one element of the result. */
  function MkTerms(x: Tensor<real>, w: Tensor<real>, m: nat, e: nat, n: nat): nat -> real
    requires x.Valid() && |x.shape| == 2 && w.Valid() && |w.shape| == 4
    requires InBounds([m, e, n], w.shape[..3]) && x.shape == [w.shape[0], w.shape[3]]
  {
    (k: nat) => if k < w.shape[3] then At(x, [m, k]) * At(w, [m, e, n, k]) else 0.0
  }

  function MekTerms(x: Tensor<real>, w: Tensor<real>, m: nat, e: nat, n: nat): nat -> real
    requires x.Valid() && |x.shape| == 3 && w.Valid() && |w.shape| == 4
    requires InBounds([m, e, n], w.shape[..3]) && x.shape == [w.shape[0], w.shape[1], w.shape[3]]
  {
    (k: nat) => if k < w.shape[3] then At(x, [m, e, k]) * At(w, [m, e, n, k]) else 0.0
  }

  /** Merging two neighbouring dimensions, and a dimension of one step after the first, keep the number of elements. */
  lemma MergedSizes(a: nat, b: nat, c: nat, d: nat)
    ensures Prod([a, b * c, d]) == Prod([a, b, c, d]) && Prod([a * b, c, d]) == Prod([a, b, c, d])
  {
    ProdPair(b, c);
    ProdPair(a, b);
    FlattenValid([a, b, c, d], 1, 2);
    FlattenValid([a, b, c, d], 0, 1);
    var s := [a, b, c, d];
    assert s[..1] == [a] && s[1..2 + 1] == [b, c] && s[2 + 1..] == [d] && s[..0] == [] && s[0..1 + 1] == [a, b] && s[1 + 1..] == [c, d];
    assert FlattenShape(s, 1, 2) == [a, b * c, d] && FlattenShape(s, 0, 1) == [a * b, c, d];
  }

  lemma OneBetween(a: nat, b: nat)
    ensures Prod([a, 1, b]) == Prod([a, b]) && UnsqueezeShape([a, b], 1) == [a, 1, b]
  {
    assert UnsqueezeShape([a, b], 1) == [a, 1, b];
    UnsqueezeValid([a, b], 1);
  }

  lemma MergedPair(a: nat, b: nat, c: nat)
    ensures Prod([a, b * c]) == Prod([a, b, c]) && Prod([a * b, c]) == Prod([a, b, c])
  {
    ProdTriple(a, b, c);
    ProdPair(a, b * c);
    ProdPair(a * b, c);
    assert a * (b * c) == a * b * c;
  }

  lemma MkMenkMenRuns(x: Tensor<real>, w: Tensor<real>) returns (a: Tensor<real>, b: Tensor<real>, p: Tensor<real>)
    requires x.Valid() && |x.shape| == 2 && w.Valid() && |w.shape| == 4 && x.shape == [w.shape[0], w.shape[3]]
    ensures a == Tensor([w.shape[0], 1, w.shape[3]], x.data)
    ensures b == Tensor([w.shape[0], w.shape[1] * w.shape[2], w.shape[3]], w.data)
    ensures CanBatch(a, b) && BatchedMatmul(a, b) == Some(p)
    ensures MkMenkMen(x, w) == Some(Tensor(w.shape[..3], p.data)) && Tensor(w.shape[..3], p.data).Valid()
  {
    var m, e, n, k := w.shape[0], w.shape[1], w.shape[2], w.shape[3];
    assert w.shape == [m, e, n, k] && w.shape[..3] == [m, e, n];
    OneBetween(m, k);
    MergedSizes(m, e, n, k);
    a := Tensor([m, 1, k], x.data);
    b := Tensor([m, e * n, k], w.data);
    p := BatchedMatmul(a, b).value;
    OneBetween(m, e * n);
    MergedPair(m, e, n);
  }

  predicate Holds(t: Tensor<real>, idx: seq<nat>, v: real) {
    t.Valid() && InBounds(idx, t.shape) && At(t, idx) == v
  }

  lemma MergedAt(w: Tensor<real>, m: nat, e: nat, n: nat, s: nat, i: nat, j: nat, l: nat, k: nat)
    requires w.Valid() && w.shape == [m, e, n, s] && i < m && j < e && l < n && k < s
    ensures InBounds([i, j, l, k], w.shape)
    ensures Holds(Tensor([m, e * n, s], w.data), [i, Radix(j, l, n), k], At(w, [i, j, l, k]))
    ensures Holds(Tensor([m * e, n, s], w.data), [Radix(i, j, e), l, k], At(w, [i, j, l, k]))
  {
    MergedSizes(m, e, n, s);
    MergedPlaces(m, e, n, s, i, j, l, k);
  }

  lemma UnsqueezedAt(x: Tensor<real>, m: nat, s: nat, i: nat, k: nat)
    requires x.Valid() && x.shape == [m, s] && i < m && k < s
    ensures InBounds([i, k], x.shape) && Holds(Tensor([m, 1, s], x.data), [i, 0, k], At(x, [i, k]))
  {
    OneBetween(m, s);
    Place3(m, 1, s, i, 0, k);
    Place2(m, s, i, k);
  }

  lemma BatchTermIs(a: Tensor<real>, b: Tensor<real>, p: nat, i: nat, j: nat, k: nat, v: real, u: real)
    requires CanBatch(a, b) && p < a.shape[0] && i < a.shape[1] && j < b.shape[1] && k < a.shape[2]
    requires Holds(a, [p, i, k], v) && Holds(b, [p, j, k], u)
    ensures BatchTerms(a, b, p, i, j)(k) == v * u
  {
  }

  lemma MkTermIs(x: Tensor<real>, w: Tensor<real>, i: nat, j: nat, l: nat, k: nat)
    requires x.Valid() && |x.shape| == 2 && w.Valid() && |w.shape| == 4 && x.shape == [w.shape[0], w.shape[3]]
    requires InBounds([i, j, l], w.shape[..3]) && InBounds([i, k], x.shape) && InBounds([i, j, l, k], w.shape)
    ensures MkTerms(x, w, i, j, l)(k) == At(x, [i, k]) * At(w, [i, j, l, k])
  {
    assert k == [i, k][1];
  }

  lemma MekTermIs(x: Tensor<real>, w: Tensor<real>, i: nat, j: nat, l: nat, k: nat)
    requires x.Valid() && |x.shape| == 3 && w.Valid() && |w.shape| == 4 && x.shape == [w.shape[0], w.shape[1], w.shape[3]]
    requires InBounds([i, j, l], w.shape[..3]) && InBounds([i, j, k], x.shape) && InBounds([i, j, l, k], w.shape)
    ensures MekTerms(x, w, i, j, l)(k) == At(x, [i, j, k]) * At(w, [i, j, l, k])
  {
    assert k == [i, j, k][2];
  }

  lemma MkTermsMatch(x: Tensor<real>, w: Tensor<real>, a: Tensor<real>, b: Tensor<real>, i: nat, j: nat, l: nat, k: nat)
    requires x.Valid() && |x.shape| == 2 && w.Valid() && |w.shape| == 4 && x.shape == [w.shape[0], w.shape[3]]
    requires InBounds([i, j, l], w.shape[..3]) && CanBatch(a, b) && k < w.shape[3]
    requires a == Tensor([w.shape[0], 1, w.shape[3]], x.data) && b == Tensor([w.shape[0], w.shape[1] * w.shape[2], w.shape[3]], w.data)
    ensures Radix(j, l, w.shape[2]) < b.shape[1]
    ensures BatchTerms(a, b, i, 0, Radix(j, l, w.shape[2]))(k) == MkTerms(x, w, i, j, l)(k)
  {
    hide Offset, Prod, At, MkTerms, BatchTerms, Holds;
    var m, e, n, s := w.shape[0], w.shape[1], w.shape[2], w.shape[3];
    assert w.shape == [m, e, n, s];
    assert [i, j, l][0] < w.shape[..3][0] && [i, j, l][1] < w.shape[..3][1] && [i, j, l][2] < w.shape[..3][2];
    RadixBound(j, l, e, n);
    MergedAt(w, m, e, n, s, i, j, l, k);
    UnsqueezedAt(x, m, s, i, k);
    MkTermIs(x, w, i, j, l, k);
    BatchTermIs(a, b, i, 0, Radix(j, l, n), k, At(x, [i, k]), At(w, [i, j, l, k]));
  }

  /** The form for "mk,menk->men" adds up what the Einstein sum adds up, for all sizes. */
  lemma MkMenkMenIsEinsum(x: Tensor<real>, w: Tensor<real>) returns (y: Tensor<real>)
    requires x.Valid() && |x.shape| == 2 && w.Valid() && |w.shape| == 4 && x.shape == [w.shape[0], w.shape[3]]
    ensures MkMenkMen(x, w) == Some(y) && y.Valid() && y.shape == w.shape[..3]
    ensures forall i: nat, j: nat, l: nat | InBounds([i, j, l], y.shape) :: At(y, [i, j, l]) == Sum(w.shape[3], MkTerms(x, w, i, j, l))
  {
    var a, b, p := MkMenkMenRuns(x, w);
    y := Tensor(w.shape[..3], p.data);
    var m, e, n, s := w.shape[0], w.shape[1], w.shape[2], w.shape[3];
    assert w.shape[..3] == [m, e, n];
    forall i: nat, j: nat, l: nat | InBounds([i, j, l], y.shape) ensures At(y, [i, j, l]) == Sum(s, MkTerms(x, w, i, j, l)) {
      assert i == [i, j, l][0] && j == [i, j, l][1] && l == [i, j, l][2];
      MkAt(x, w, a, b, p, i, j, l);
    }
  }

  /** One element of a batched product whose last two dimensions are one row of all pairs. */
  lemma MkAt(x: Tensor<real>, w: Tensor<real>, a: Tensor<real>, b: Tensor<real>, p: Tensor<real>, i: nat, j: nat, l: nat)
    requires x.Valid() && |x.shape| == 2 && w.Valid() && |w.shape| == 4 && x.shape == [w.shape[0], w.shape[3]]
    requires i < w.shape[0] && j < w.shape[1] && l < w.shape[2] && InBounds([i, j, l], w.shape[..3])
    requires a == Tensor([w.shape[0], 1, w.shape[3]], x.data) && b == Tensor([w.shape[0], w.shape[1] * w.shape[2], w.shape[3]], w.data)
    requires CanBatch(a, b) && BatchedMatmul(a, b) == Some(p) && Tensor(w.shape[..3], p.data).Valid()
    ensures At(Tensor(w.shape[..3], p.data), [i, j, l]) == Sum(w.shape[3], MkTerms(x, w, i, j, l))
  {
    hide At, BatchTerms, MkTerms;
    var m, e, n, s := w.shape[0], w.shape[1], w.shape[2], w.shape[3];
    assert w.shape[..3] == [m, e, n];
    var r := Radix(j, l, n);
    RadixBound(j, l, e, n);
    RowPlace(p, m, e, n, i, j, l);
    ProductAt(a, b, p, i, 0, r);
    forall k: nat | k < s ensures BatchTerms(a, b, i, 0, r)(k) == MkTerms(x, w, i, j, l)(k) {
      MkTermsMatch(x, w, a, b, i, j, l, k);
    }
    SumSame(s, BatchTerms(a, b, i, 0, r), MkTerms(x, w, i, j, l));
  }

  lemma ProductAt(a: Tensor<real>, b: Tensor<real>, p: Tensor<real>, i: nat, j: nat, l: nat)
    requires CanBatch(a, b) && BatchedMatmul(a, b) == Some(p) && i < a.shape[0] && j < a.shape[1] && l < b.shape[1]
    ensures p.shape == [a.shape[0], a.shape[1], b.shape[1]] && InBounds([i, j, l], p.shape)
    ensures At(p, [i, j, l]) == Sum(a.shape[2], BatchTerms(a, b, i, j, l))
  {
    assert InBounds([i, j, l], [a.shape[0], a.shape[1], b.shape[1]]);
    assert At(p, [i, j, l]) == BatchAt(a, b, [i, j, l]);
  }

  /** Merged and separate, the last two dimensions put an element in the same place. */
  lemma RowPlace(p: Tensor<real>, m: nat, e: nat, n: nat, i: nat, j: nat, l: nat)
    requires p.Valid() && p.shape == [m, 1, e * n] && Tensor([m, e, n], p.data).Valid() && i < m && j < e && l < n
    ensures InBounds([i, j, l], [m, e, n]) && InBounds([i, 0, Radix(j, l, n)], p.shape)
    ensures At(Tensor([m, e, n], p.data), [i, j, l]) == At(p, [i, 0, Radix(j, l, n)])
  {
    Place3(m, e, n, i, j, l);
    RadixBound(j, l, e, n);
    Place3(m, 1, e * n, i, 0, Radix(j, l, n));
    RadixAssoc(i, j, l, e, n);
  }

  /** Merged and separate, the first two dimensions put an element in the same place. */
  lemma BatchPlace(p: Tensor<real>, m: nat, e: nat, n: nat, i: nat, j: nat, l: nat)
    requires p.Valid() && p.shape == [m * e, 1, n] && Tensor([m, e, n], p.data).Valid() && i < m && j < e && l < n
    ensures InBounds([i, j, l], [m, e, n]) && InBounds([Radix(i, j, e), 0, l], p.shape)
    ensures At(Tensor([m, e, n], p.data), [i, j, l]) == At(p, [Radix(i, j, e), 0, l])
  {
    Place3(m, e, n, i, j, l);
    RadixBound(i, j, m, e);
    Place3(m * e, 1, n, Radix(i, j, e), 0, l);
  }

  lemma MekMenkMenRuns(x: Tensor<real>, w: Tensor<real>) returns (a: Tensor<real>, b: Tensor<real>, p: Tensor<real>)
    requires x.Valid() && |x.shape| == 3 && w.Valid() && |w.shape| == 4 && x.shape == [w.shape[0], w.shape[1], w.shape[3]]
    ensures a == Tensor([w.shape[0] * w.shape[1], 1, w.shape[3]], x.data)
    ensures b == Tensor([w.shape[0] * w.shape[1], w.shape[2], w.shape[3]], w.data)
    ensures CanBatch(a, b) && BatchedMatmul(a, b) == Some(p)
    ensures MekMenkMen(x, w) == Some(Tensor(w.shape[..3], p.data)) && Tensor(w.shape[..3], p.data).Valid()
  {
    var m, e, n, k := w.shape[0], w.shape[1], w.shape[2], w.shape[3];
    assert w.shape == [m, e, n, k] && w.shape[..3] == [m, e, n];
    MergedPair(m, e, k);
    OneBetween(m * e, k);
    MergedSizes(m, e, n, k);
    a := Tensor([m * e, 1, k], x.data);
    b := Tensor([m * e, n, k], w.data);
    p := BatchedMatmul(a, b).value;
    OneBetween(m * e, n);
    MergedPair(m, e, n);
  }

  lemma MergedUnsqueezedAt(x: Tensor<real>, m: nat, e: nat, s: nat, i: nat, j: nat, k: nat)
    requires x.Valid() && x.shape == [m, e, s] && i < m && j < e && k < s
    ensures InBounds([i, j, k], x.shape) && Holds(Tensor([m * e, 1, s], x.data), [Radix(i, j, e), 0, k], At(x, [i, j, k]))
  {
    MergedPair(m, e, s);
    OneBetween(m * e, s);
    RadixBound(i, j, m, e);
    Place3(m * e, 1, s, Radix(i, j, e), 0, k);
    Place3(m, e, s, i, j, k);
  }

  lemma MekTermsMatch(x: Tensor<real>, w: Tensor<real>, a: Tensor<real>, b: Tensor<real>, i: nat, j: nat, l: nat, k: nat)
    requires x.Valid() && |x.shape| == 3 && w.Valid() && |w.shape| == 4 && x.shape == [w.shape[0], w.shape[1], w.shape[3]]
    requires InBounds([i, j, l], w.shape[..3]) && CanBatch(a, b) && k < w.shape[3]
    requires a == Tensor([w.shape[0] * w.shape[1], 1, w.shape[3]], x.data)
    requires b == Tensor([w.shape[0] * w.shape[1], w.shape[2], w.shape[3]], w.data)
    ensures Radix(i, j, w.shape[1]) < a.shape[0] && l < b.shape[1]
    ensures BatchTerms(a, b, Radix(i, j, w.shape[1]), 0, l)(k) == MekTerms(x, w, i, j, l)(k)
  {
    hide Offset, Prod, At, MekTerms, BatchTerms, Holds;
    var m, e, n, s := w.shape[0], w.shape[1], w.shape[2], w.shape[3];
    assert w.shape == [m, e, n, s];
    assert [i, j, l][0] < w.shape[..3][0] && [i, j, l][1] < w.shape[..3][1] && [i, j, l][2] < w.shape[..3][2];
    RadixBound(i, j, m, e);
    MergedAt(w, m, e, n, s, i, j, l, k);
    MergedUnsqueezedAt(x, m, e, s, i, j, k);
    MekTermIs(x, w, i, j, l, k);
    BatchTermIs(a, b, Radix(i, j, e), 0, l, k, At(x, [i, j, k]), At(w, [i, j, l, k]));
  }

  /** The form for "mek,menk->men" adds up what the Einstein sum adds up, for all sizes. */
  lemma MekMenkMenIsEinsum(x: Tensor<real>, w: Tensor<real>) returns (y: Tensor<real>)
    requires x.Valid() && |x.shape| == 3 && w.Valid() && |w.shape| == 4 && x.shape == [w.shape[0], w.shape[1], w.shape[3]]
    ensures MekMenkMen(x, w) == Some(y) && y.Valid() && y.shape == w.shape[..3]
    ensures forall i: nat, j: nat, l: nat | InBounds([i, j, l], y.shape) :: At(y, [i, j, l]) == Sum(w.shape[3], MekTerms(x, w, i, j, l))
  {
    var a, b, p := MekMenkMenRuns(x, w);
    y := Tensor(w.shape[..3], p.data);
    var m, e, n, s := w.shape[0], w.shape[1], w.shape[2], w.shape[3];
    assert w.shape[..3] == [m, e, n];
    forall i: nat, j: nat, l: nat | InBounds([i, j, l], y.shape) ensures At(y, [i, j, l]) == Sum(s, MekTerms(x, w, i, j, l)) {
      assert i == [i, j, l][0] && j == [i, j, l][1] && l == [i, j, l][2];
      MekAt(x, w, a, b, p, i, j, l);
    }
  }

  /** One element of a batched product whose batch is all pairs of the first two dimensions. */
  lemma MekAt(x: Tensor<real>, w: Tensor<real>, a: Tensor<real>, b: Tensor<real>, p: Tensor<real>, i: nat, j: nat, l: nat)
    requires x.Valid() && |x.shape| == 3 && w.Valid() && |w.shape| == 4 && x.shape == [w.shape[0], w.shape[1], w.shape[3]]
    requires i < w.shape[0] && j < w.shape[1] && l < w.shape[2] && InBounds([i, j, l], w.shape[..3])
    requires a == Tensor([w.shape[0] * w.shape[1], 1, w.shape[3]], x.data)
    requires b == Tensor([w.shape[0] * w.shape[1], w.shape[2], w.shape[3]], w.data)
    requires CanBatch(a, b) && BatchedMatmul(a, b) == Some(p) && Tensor(w.shape[..3], p.data).Valid()
    ensures At(Tensor(w.shape[..3], p.data), [i, j, l]) == Sum(w.shape[3], MekTerms(x, w, i, j, l))
  {
    hide At, BatchTerms, MekTerms;
    var m, e, n, s := w.shape[0], w.shape[1], w.shape[2], w.shape[3];
    assert w.shape[..3] == [m, e, n];
    var r := Radix(i, j, e);
    RadixBound(i, j, m, e);
    BatchPlace(p, m, e, n, i, j, l);
    ProductAt(a, b, p, r, 0, l);
    forall k: nat | k < s ensures BatchTerms(a, b, r, 0, l)(k) == MekTerms(x, w, i, j, l)(k) {
      MekTermsMatch(x, w, a, b, i, j, l, k);
    }
    SumSame(s, BatchTerms(a, b, r, 0, l), MekTerms(x, w, i, j, l));
  }

  lemma TrailingOne(s: seq<nat>)
    ensures Prod(s + [1]) == Prod(s)
  {
    ProdConcat(s, [1]);
    ProdOne(1);
  }

  lemma TrailingOneOffset(shape: seq<nat>, idx: seq<nat>)
    requires InBounds(idx, shape)
    ensures InBounds(idx + [0], shape + [1]) && Offset(shape + [1], idx + [0]) == Offset(shape, idx)
  {
    ProdOne(1);
    OffsetConcat(shape, [1], idx, [0]);
    assert [1][1..] == [] && [0][1..] == [];
  }

  lemma TrailingOneAt(t: Tensor<real>, idx: seq<nat>)
    requires t.Valid() && InBounds(idx, t.shape)
    ensures Holds(Tensor(t.shape + [1], t.data), idx + [0], At(t, idx))
  {
    TrailingOne(t.shape);
    TrailingOneOffset(t.shape, idx);
  }

  /** The form for "me,men->men" multiplies every row with its factor, for all sizes. */
  lemma MeMenMenIsEinsum(x: Tensor<real>, w: Tensor<real>) returns (y: Tensor<real>)
    requires x.Valid() && |x.shape| == 2 && w.Valid() && |w.shape| == 3 && x.shape == w.shape[..2]
    ensures MeMenMen(x, w) == Some(y) && y.Valid() && y.shape == w.shape
    ensures forall i: nat, j: nat, l: nat | InBounds([i, j, l], w.shape) ::
              InBounds([i, j], x.shape) && At(y, [i, j, l]) == At(x, [i, j]) * At(w, [i, j, l])
  {
    var m, e, n := w.shape[0], w.shape[1], w.shape[2];
    assert x.shape == [m, e] && w.shape == [m, e, n];
    var x', w' := Tensor(x.shape + [1], x.data), Tensor(w.shape + [1], w.data);
    TrailingOne(x.shape);
    TrailingOne(w.shape);
    assert x'.shape == [m, e, 1] && w'.shape == [m, e, n, 1] && w'.shape[..3] == w.shape;
    y := MekMenkMenIsEinsum(x', w');
    forall i: nat, j: nat, l: nat | InBounds([i, j, l], w.shape)
      ensures InBounds([i, j], x.shape) && At(y, [i, j, l]) == At(x, [i, j]) * At(w, [i, j, l])
    {
      assert i == [i, j, l][0] && j == [i, j, l][1];
      OneTerm(x, w, x', w', i, j, l);
    }
  }

  lemma OneTerm(x: Tensor<real>, w: Tensor<real>, x': Tensor<real>, w': Tensor<real>, i: nat, j: nat, l: nat)
    requires x.Valid() && |x.shape| == 2 && w.Valid() && |w.shape| == 3 && x.shape == w.shape[..2]
    requires x' == Tensor(x.shape + [1], x.data) && w' == Tensor(w.shape + [1], w.data) && x'.Valid() && w'.Valid()
    requires InBounds([i, j, l], w.shape) && InBounds([i, j], x.shape) && InBounds([i, j, l], w'.shape[..3])
    requires x'.shape == [w'.shape[0], w'.shape[1], w'.shape[3]]
    ensures Sum(1, MekTerms(x', w', i, j, l)) == At(x, [i, j]) * At(w, [i, j, l])
  {
    TrailingOneAt(x, [i, j]);
    TrailingOneAt(w, [i, j, l]);
    assert [i, j] + [0] == [i, j, 0] && [i, j, l] + [0] == [i, j, l, 0];
    var terms := MekTerms(x', w', i, j, l);
    assert Sum(1, terms) == Sum(0, terms) + terms(0);
  }
}
