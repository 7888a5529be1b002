/** Tensors split along one dimension, and what it means to put their shards back together. */
module Sharding {
  import opened Radices
  import opened Tensors
  import opened Wrappers

  /** Two tensors that can be concatenated along dimension `d`. */
  predicate Joinable<E>(a: Tensor<E>, b: Tensor<E>, d: nat) {
    && a.Valid() && b.Valid() && d < |a.shape| == |b.shape|
    && b.shape == a.shape[d := b.shape[d]]
  }

  function JoinedShape<E>(a: Tensor<E>, b: Tensor<E>, d: nat): seq<nat>
    requires d < |a.shape| == |b.shape|
  {
    a.shape[d := a.shape[d] + b.shape[d]]
  }

  function JoinedAt<E>(a: Tensor<E>, b: Tensor<E>, d: nat, idx: seq<nat>): E
    requires Joinable(a, b, d) && InBounds(idx, JoinedShape(a, b, d))
  {
    if idx[d] < a.shape[d] then At(a, idx) else At(b, idx[d := idx[d] - a.shape[d]])
  }

  lemma JoinedBounds<E>(a: Tensor<E>, b: Tensor<E>, d: nat, idx: seq<nat>)
    requires Joinable(a, b, d) && InBounds(idx, JoinedShape(a, b, d))
    ensures idx[d] < a.shape[d] ==> InBounds(idx, a.shape)
    ensures idx[d] >= a.shape[d] ==> InBounds(idx[d := idx[d] - a.shape[d]], b.shape)
  {
  }

  /** `torch.cat` of two tensors, index by index. */
  function Join<E>(a: Tensor<E>, b: Tensor<E>, d: nat): (t: Tensor<E>)
    requires Joinable(a, b, d)
    ensures t.Valid() && t.shape == JoinedShape(a, b, d)
  {
    var shape := JoinedShape(a, b, d);
    Tensor(shape, seq(Prod(shape), k requires 0 <= k < Prod(shape) => JoinedAt(a, b, d, Unravel(shape, k))))
  }

  lemma JoinAt<E>(a: Tensor<E>, b: Tensor<E>, d: nat, idx: seq<nat>)
    requires Joinable(a, b, d) && InBounds(idx, JoinedShape(a, b, d))
    ensures At(Join(a, b, d), idx) == JoinedAt(a, b, d, idx)
  {
    UnravelOffset(JoinedShape(a, b, d), idx);
  }

  /** `c` is the concatenation of `a` and `b`. */
  ghost predicate Joins<E>(c: Tensor<E>, a: Tensor<E>, b: Tensor<E>, d: nat) {
    && Joinable(a, b, d) && c.Valid() && c.shape == JoinedShape(a, b, d)
    && forall idx | InBounds(idx, c.shape) :: At(c, idx) == JoinedAt(a, b, d, idx)
  }

  lemma JoinJoins<E>(a: Tensor<E>, b: Tensor<E>, d: nat)
    requires Joinable(a, b, d)
    ensures Joins(Join(a, b, d), a, b, d)
  {
    forall idx | InBounds(idx, JoinedShape(a, b, d)) ensures At(Join(a, b, d), idx) == JoinedAt(a, b, d, idx) {
      JoinAt(a, b, d, idx);
    }
  }

  lemma JoinsIsJoin<E>(c: Tensor<E>, a: Tensor<E>, b: Tensor<E>, d: nat)
    requires Joins(c, a, b, d)
    ensures c == Join(a, b, d)
  {
    JoinJoins(a, b, d);
    SameElements(c, Join(a, b, d));
  }

  /** Alternates chunks of `m` elements of `x` with chunks of `n` elements of `y`. */
  function Interleave<E>(x: seq<E>, y: seq<E>, outer: nat, m: nat, n: nat): seq<E>
    requires |x| == outer * m && |y| == outer * n
  {
    seq(outer * (m + n), k requires 0 <= k < outer * (m + n) => InterleavedAt(x, y, outer, m, n, k))
  }

  function InterleavedAt<E>(x: seq<E>, y: seq<E>, outer: nat, m: nat, n: nat, k: nat): E
    requires |x| == outer * m && |y| == outer * n && k < outer * (m + n)
  {
    DivBelow(m + n, outer, k);
    var o, r := k / (m + n), k % (m + n);
    if r < m then
      RadixBound(o, r, outer, m);
      x[Radix(o, r, m)]
    else
      RadixBound(o, r - m, outer, n);
      y[Radix(o, r - m, n)]
  }

  function Outer(shape: seq<nat>, d: nat): nat
    requires d <= |shape|
  {
    Prod(shape[..d])
  }

  /** Elements between two steps of the dimensions before `d`. */
  function Chunk(shape: seq<nat>, d: nat): nat
    requires d <= |shape|
  {
    Prod(shape[d..])
  }

  lemma OuterTimesChunk(shape: seq<nat>, d: nat)
    requires d <= |shape|
    ensures Prod(shape) == Outer(shape, d) * Chunk(shape, d)
  {
    ProdConcat(shape[..d], shape[d..]);
    assert shape == shape[..d] + shape[d..];
  }

  lemma ChunkOf(shape: seq<nat>, d: nat)
    requires d < |shape|
    ensures Chunk(shape, d) == shape[d] * Prod(shape[d + 1..])
  {
    assert shape[d..][1..] == shape[d + 1..];
  }

  /** Splits the row-major place of an index at dimension `d`. */
  lemma OffsetAround(shape: seq<nat>, idx: seq<nat>, d: nat)
    requires InBounds(idx, shape) && d < |shape|
    ensures InBounds(idx[..d], shape[..d]) && InBounds(idx[d + 1..], shape[d + 1..])
    ensures Offset(shape, idx) == Radix(Offset(shape[..d], idx[..d]),
                                        Radix(idx[d], Offset(shape[d + 1..], idx[d + 1..]), Prod(shape[d + 1..])),
                                        Chunk(shape, d))
  {
    assert InBounds(idx[d..], shape[d..]);
    OffsetConcat(shape[..d], shape[d..], idx[..d], idx[d..]);
    assert shape == shape[..d] + shape[d..] && idx == idx[..d] + idx[d..];
    assert shape[d..][1..] == shape[d + 1..] && idx[d..][1..] == idx[d + 1..];
  }

  lemma SumTimes(x: nat, y: nat, n: nat)
    ensures (x + y) * n == x * n + y * n
  {
  }

  /** Concatenation moves whole chunks: where the elements go depends only on how many steps the dimensions
      before the concatenated one take. */
  lemma JoinData<E>(a: Tensor<E>, b: Tensor<E>, d: nat)
    requires Joinable(a, b, d)
    ensures Outer(b.shape, d) == Outer(a.shape, d)
    ensures |a.data| == Outer(a.shape, d) * Chunk(a.shape, d) && |b.data| == Outer(a.shape, d) * Chunk(b.shape, d)
    ensures Join(a, b, d).data == Interleave(a.data, b.data, Outer(a.shape, d), Chunk(a.shape, d), Chunk(b.shape, d))
  {
    hide Prod, Offset, Unravel, InterleavedAt, JoinedAt;
    var shape := JoinedShape(a, b, d);
    var outer, m, n := Outer(a.shape, d), Chunk(a.shape, d), Chunk(b.shape, d);
    assert b.shape[..d] == a.shape[..d] == shape[..d];
    assert b.shape[d + 1..] == a.shape[d + 1..] == shape[d + 1..];
    OuterTimesChunk(a.shape, d);
    OuterTimesChunk(b.shape, d);
    OuterTimesChunk(shape, d);
    ChunkOf(a.shape, d);
    ChunkOf(b.shape, d);
    ChunkOf(shape, d);
    var inner := Prod(shape[d + 1..]);
    SumTimes(a.shape[d], b.shape[d], inner);
    forall k | 0 <= k < Prod(shape)
      ensures JoinedAt(a, b, d, Unravel(shape, k)) == InterleavedAt(a.data, b.data, outer, m, n, k)
    {
      JoinPlace(a, b, d, k);
    }
  }

  lemma JoinPlace<E>(a: Tensor<E>, b: Tensor<E>, d: nat, k: nat)
    requires Joinable(a, b, d) && k < Prod(JoinedShape(a, b, d))
    requires Outer(b.shape, d) == Outer(a.shape, d)
    requires |a.data| == Outer(a.shape, d) * Chunk(a.shape, d) && |b.data| == Outer(a.shape, d) * Chunk(b.shape, d)
    requires Chunk(JoinedShape(a, b, d), d) == Chunk(a.shape, d) + Chunk(b.shape, d)
    requires Prod(JoinedShape(a, b, d)) == Outer(a.shape, d) * (Chunk(a.shape, d) + Chunk(b.shape, d))
    ensures JoinedAt(a, b, d, Unravel(JoinedShape(a, b, d), k))
         == InterleavedAt(a.data, b.data, Outer(a.shape, d), Chunk(a.shape, d), Chunk(b.shape, d), k)
  {
    hide Prod, Offset, Unravel, Outer;
    var shape := JoinedShape(a, b, d);
    var idx := Unravel(shape, k);
    if idx[d] < a.shape[d] {
      LeftPlace(shape, a.shape, d, idx);
    } else {
      RightPlace(shape, b.shape, d, idx, a.shape[d]);
      ChunkOf(a.shape, d);
      assert a.shape[d + 1..] == shape[d + 1..];
    }
  }

  /** An index below the joint falls into the first part of its chunk. */
  lemma LeftPlace(shape: seq<nat>, part: seq<nat>, d: nat, idx: seq<nat>)
    requires d < |shape| && InBounds(idx, shape) && |part| == |shape| && part == shape[d := part[d]]
    requires idx[d] < part[d] <= shape[d]
    ensures InBounds(idx, part)
    ensures var m, k := Chunk(part, d), Offset(shape, idx);
      && Chunk(shape, d) > 0
      && k % Chunk(shape, d) < m
      && Offset(part, idx) == Radix(k / Chunk(shape, d), k % Chunk(shape, d), m)
  {
    assert part[..d] == shape[..d] && part[d + 1..] == shape[d + 1..];
    OffsetAround(shape, idx, d);
    OffsetAround(part, idx, d);
    ChunkOf(shape, d);
    ChunkOf(part, d);
    var low, inner := Offset(shape[d + 1..], idx[d + 1..]), Prod(shape[d + 1..]);
    RadixBound(idx[d], low, shape[d], inner);
    RadixBound(idx[d], low, part[d], inner);
    RadixDigits(Offset(shape[..d], idx[..d]), Radix(idx[d], low, inner), Chunk(shape, d));
  }

  /** A place of a whole with the given chunks is, behind the first `m` elements of its chunk, the given place of the rest. */
  predicate FallsBehind(k: nat, chunk: nat, m: nat, n: nat, place: nat) {
    chunk > 0 && k % chunk >= m && place == Radix(k / chunk, k % chunk - m, n)
  }

  /** An index past the joint falls into the second part, shifted by the length of the first. */
  lemma RightPlace(shape: seq<nat>, part: seq<nat>, d: nat, idx: seq<nat>, shift: nat)
    requires d < |shape| && InBounds(idx, shape) && |part| == |shape| && part == shape[d := part[d]]
    requires shape[d] == shift + part[d] && idx[d] >= shift
    ensures InBounds(idx[d := idx[d] - shift], part)
    ensures FallsBehind(Offset(shape, idx), Chunk(shape, d), shift * Prod(shape[d + 1..]), Chunk(part, d),
                        Offset(part, idx[d := idx[d] - shift]))
  {
    var idx' := idx[d := idx[d] - shift];
    assert part[..d] == shape[..d] && part[d + 1..] == shape[d + 1..];
    assert idx'[..d] == idx[..d] && idx'[d + 1..] == idx[d + 1..];
    OffsetAround(shape, idx, d);
    OffsetAround(part, idx', d);
    ChunkOf(shape, d);
    ChunkOf(part, d);
    var low, inner := Offset(shape[d + 1..], idx[d + 1..]), Prod(shape[d + 1..]);
    RadixBound(idx[d], low, shape[d], inner);
    RadixDigits(Offset(shape[..d], idx[..d]), Radix(idx[d], low, inner), Chunk(shape, d));
    assert Radix(idx[d], low, inner) == shift * inner + Radix(idx[d] - shift, low, inner);
  }

  /** Relabelling the shapes of two tensors commutes with concatenating them as long as the dimensions before
      the concatenated one still take the same number of steps. */
  lemma JoinReshaped<E>(a: Tensor<E>, b: Tensor<E>, d: nat, a': Tensor<E>, b': Tensor<E>, d': nat)
    requires Joinable(a, b, d) && Joinable(a', b', d')
    requires a'.data == a.data && b'.data == b.data && Outer(a'.shape, d') == Outer(a.shape, d)
    ensures Join(a', b', d').data == Join(a, b, d).data
  {
    JoinData(a, b, d);
    JoinData(a', b', d');
    InterleaveSame(a.data, b.data, Outer(a.shape, d), Chunk(a.shape, d), Chunk(b.shape, d),
                   Chunk(a'.shape, d'), Chunk(b'.shape, d'));
  }

  /** The same for whole tensors, when the concatenated dimension is scaled by a factor. */
  lemma JoinRelabelled<E>(a: Tensor<E>, b: Tensor<E>, d: nat, base: seq<nat>, d': nat, factor: nat)
    requires Joinable(a, b, d) && d' < |base| && Outer(base, d') == Outer(a.shape, d)
    requires Prod(base[d' := a.shape[d] * factor]) == Prod(a.shape)
    requires Prod(base[d' := b.shape[d] * factor]) == Prod(b.shape)
    ensures var a' := Tensor(base[d' := a.shape[d] * factor], a.data);
      var b' := Tensor(base[d' := b.shape[d] * factor], b.data);
      && Joinable(a', b', d')
      && Join(a', b', d') == Tensor(base[d' := (a.shape[d] + b.shape[d]) * factor], Join(a, b, d).data)
  {
    var a' := Tensor(base[d' := a.shape[d] * factor], a.data);
    var b' := Tensor(base[d' := b.shape[d] * factor], b.data);
    assert a'.shape[..d'] == base[..d'];
    assert b'.shape == a'.shape[d' := b'.shape[d']];
    JoinReshaped(a, b, d, a', b', d');
    assert (a.shape[d] + b.shape[d]) * factor == a.shape[d] * factor + b.shape[d] * factor;
    assert JoinedShape(a', b', d') == base[d' := (a.shape[d] + b.shape[d]) * factor];
  }

  lemma InterleaveSame<E>(x: seq<E>, y: seq<E>, outer: nat, m: nat, n: nat, m': nat, n': nat)
    requires |x| == outer * m == outer * m' && |y| == outer * n == outer * n'
    ensures Interleave(x, y, outer, m, n) == Interleave(x, y, outer, m', n')
  {
    if outer > 0 {
      SameFactor(outer, m, m');
      SameFactor(outer, n, n');
    }
  }

  lemma SameFactor(n: nat, x: nat, y: nat)
    requires n > 0 && n * x == n * y
    ensures x == y
  {
    RadixInjective(x, 0, y, 0, n);
  }

  // ---- Split tensors ----

  datatype Split<+E> = Split(shards: seq<Tensor<E>>, dim: nat) {
    /** What the constructor asserts: shapes agree except in the split dimension. */
    predicate Valid() {
      && shards != []
      && dim < |shards[0].shape|
      && forall i | 0 <= i < |shards| ::
           shards[i].Valid() && |shards[i].shape| == |shards[0].shape|
           && shards[i].shape == shards[0].shape[dim := shards[i].shape[dim]]
    }

    function Shape(): seq<nat>
      requires Valid()
    {
      shards[0].shape[dim := DimSum(shards, dim)]
    }
  }

  function DimSum<E>(shards: seq<Tensor<E>>, d: nat): nat
    requires forall i | 0 <= i < |shards| :: d < |shards[i].shape|
  {
    if shards == [] then 0 else shards[0].shape[d] + DimSum(shards[1..], d)
  }

  lemma {:induction false} SumOfEqual<E>(ts: seq<Tensor<E>>, d: nat, n: nat)
    requires forall i | 0 <= i < |ts| :: d < |ts[i].shape| && ts[i].shape[d] == n
    ensures DimSum(ts, d) == |ts| * n
  {
    if ts != [] {
      SumOfEqual(ts[1..], d, n);
      assert |ts| * n == n + |ts[1..]| * n;
    }
  }

  /** `unshard`: concatenates the shards along the split dimension. */
  function Unshard<E>(x: Split<E>): (t: Tensor<E>)
    requires x.Valid()
    ensures t.Valid() && t.shape == x.Shape()
    decreases |x.shards|
  {
    if |x.shards| == 1 then
      assert x.shards[0].shape[x.dim] + DimSum(x.shards[1..], x.dim) == x.shards[0].shape[x.dim];
      x.shards[0]
    else
      assert Split(x.shards[1..], x.dim).Valid();
      Join(x.shards[0], Unshard(Split(x.shards[1..], x.dim)), x.dim)
  }

  lemma UnshardStep<E>(shards: seq<Tensor<E>>, d: nat)
    requires Split(shards, d).Valid() && |shards| > 1
    ensures Split(shards[1..], d).Valid()
    ensures Joinable(shards[0], Unshard(Split(shards[1..], d)), d)
    ensures Unshard(Split(shards, d)) == Join(shards[0], Unshard(Split(shards[1..], d)), d)
  {
  }

  lemma ShardsShareOuter<E>(shards: seq<Tensor<E>>, d: nat)
    requires Split(shards, d).Valid() && |shards| > 1
    ensures Outer(shards[1].shape, d) == Outer(shards[0].shape, d)
  {
    assert shards[1].shape[..d] == shards[0].shape[..d];
  }

  /** Relabelling all shards leaves the elements of the whole where they are, as long as the dimensions before the
      split one still take the same number of steps. */
  lemma {:induction false} UnshardRelabelled<E>(ts: seq<Tensor<E>>, d: nat, ts': seq<Tensor<E>>, d': nat)
    requires Split(ts, d).Valid() && Split(ts', d').Valid() && |ts'| == |ts|
    requires forall i | 0 <= i < |ts| :: ts'[i].data == ts[i].data
    requires Outer(ts'[0].shape, d') == Outer(ts[0].shape, d)
    ensures Unshard(Split(ts', d')).data == Unshard(Split(ts, d)).data
  {
    if |ts| > 1 {
      UnshardStep(ts, d);
      UnshardStep(ts', d');
      ShardsShareOuter(ts, d);
      ShardsShareOuter(ts', d');
      UnshardRelabelled(ts[1..], d, ts'[1..], d');
      JoinReshaped(ts[0], Unshard(Split(ts[1..], d)), d, ts'[0], Unshard(Split(ts'[1..], d')), d');
    }
  }

  /** Where an element of a shard lies in the whole. */
  lemma {:induction false} UnshardAt<E>(ts: seq<Tensor<E>>, d: nat, i: nat, idx: seq<nat>)
    requires Split(ts, d).Valid() && i < |ts| && InBounds(idx, ts[i].shape)
    ensures InBounds(idx[d := idx[d] + DimSum(ts[..i], d)], Split(ts, d).Shape())
    ensures At(Unshard(Split(ts, d)), idx[d := idx[d] + DimSum(ts[..i], d)]) == At(ts[i], idx)
    decreases |ts|
  {
    hide At, Join, Unshard;
    if |ts| == 1 {
      UnshardOne(ts, d);
      assert idx[d := idx[d] + DimSum(ts[..0], d)] == idx;
    } else {
      UnshardStep(ts, d);
      if i == 0 {
        assert idx[d := idx[d] + DimSum(ts[..0], d)] == idx;
        JoinAt(ts[0], Unshard(Split(ts[1..], d)), d, idx);
      } else {
        UnshardAt(ts[1..], d, i - 1, idx);
        assert ts[..i][1..] == ts[1..][..i - 1];
        JoinAtRight(ts[0], Unshard(Split(ts[1..], d)), d, idx[d := idx[d] + DimSum(ts[1..][..i - 1], d)],
                    idx[d := idx[d] + DimSum(ts[..i], d)]);
      }
    }
  }

  lemma UnshardOne<E>(ts: seq<Tensor<E>>, d: nat)
    requires Split(ts, d).Valid() && |ts| == 1
    ensures Unshard(Split(ts, d)) == ts[0] && Split(ts, d).Shape() == ts[0].shape
  {
    assert DimSum(ts, d) == ts[0].shape[d];
  }

  lemma JoinAtRight<E>(a: Tensor<E>, b: Tensor<E>, d: nat, place: seq<nat>, shifted: seq<nat>)
    requires Joinable(a, b, d) && InBounds(place, b.shape) && shifted == place[d := place[d] + a.shape[d]]
    ensures InBounds(shifted, JoinedShape(a, b, d)) && At(Join(a, b, d), shifted) == At(b, place)
  {
    hide At, Join;
    assert InBounds(shifted, JoinedShape(a, b, d));
    JoinAt(a, b, d, shifted);
    assert shifted[d := shifted[d] - a.shape[d]] == place;
  }

  lemma {:induction false} UnshardLength<E>(ts: seq<Tensor<E>>, d: nat, size: nat)
    requires Split(ts, d).Valid() && forall i | 0 <= i < |ts| :: |ts[i].data| == size
    ensures |Unshard(Split(ts, d)).data| == |ts| * size
  {
    if |ts| > 1 {
      UnshardStep(ts, d);
      UnshardLength(ts[1..], d, size);
      JoinLength(ts[0], Unshard(Split(ts[1..], d)), d);
      assert |ts| * size == size + |ts[1..]| * size;
    }
  }

  lemma JoinLength<E>(a: Tensor<E>, b: Tensor<E>, d: nat)
    requires Joinable(a, b, d)
    ensures |Join(a, b, d).data| == |a.data| + |b.data|
  {
    JoinData(a, b, d);
    var outer, m, n := Outer(a.shape, d), Chunk(a.shape, d), Chunk(b.shape, d);
    assert outer * (m + n) == outer * m + outer * n;
  }

  // ---- Empty shards ----

  /** All shards but one are empty. */
  predicate OnlyShard<E>(ts: seq<Tensor<E>>, d: nat, j: nat) {
    j < |ts| && forall i | 0 <= i < |ts| :: d < |ts[i].shape| && (i != j ==> ts[i].shape[d] == 0)
  }

  lemma {:induction false} SumOfNone<E>(ts: seq<Tensor<E>>, d: nat)
    requires forall i | 0 <= i < |ts| :: d < |ts[i].shape|
    ensures DimSum(ts, d) == 0 <==> forall i | 0 <= i < |ts| :: ts[i].shape[d] == 0
  {
    if ts != [] {
      SumOfNone(ts[1..], d);
      assert forall i | 0 < i < |ts| :: ts[i] == ts[1..][i - 1];
    }
  }

  lemma {:induction false} SumOfOnly<E>(ts: seq<Tensor<E>>, d: nat, j: nat)
    requires j < |ts| && forall i | 0 <= i < |ts| :: d < |ts[i].shape|
    ensures DimSum(ts, d) == ts[j].shape[d] <==> OnlyShard(ts, d, j)
  {
    if j == 0 {
      SumOfNone(ts[1..], d);
      assert forall i | 0 < i < |ts| :: ts[i] == ts[1..][i - 1];
    } else {
      SumOfOnly(ts[1..], d, j - 1);
      assert forall i | 0 < i < |ts| :: ts[i] == ts[1..][i - 1];
      SumAtLeast(ts[1..], d, j - 1);
    }
  }

  lemma {:induction false} SumAtLeast<E>(ts: seq<Tensor<E>>, d: nat, j: nat)
    requires j < |ts| && forall i | 0 <= i < |ts| :: d < |ts[i].shape|
    ensures DimSum(ts, d) >= ts[j].shape[d]
  {
    if j > 0 {
      SumAtLeast(ts[1..], d, j - 1);
    }
  }

  lemma {:induction false} SingleStep<E>(ts: seq<Tensor<E>>, d: nat) returns (j: nat)
    requires (forall i | 0 <= i < |ts| :: d < |ts[i].shape|) && DimSum(ts, d) == 1
    ensures OnlyShard(ts, d, j) && ts[j].shape[d] == 1
  {
    if ts[0].shape[d] == 1 {
      j := 0;
    } else {
      j := SingleStep(ts[1..], d);
      j := j + 1;
    }
    SumOfOnly(ts, d, j);
  }

  lemma OnlyShardWhole<E>(ts: seq<Tensor<E>>, d: nat, j: nat)
    requires Split(ts, d).Valid() && OnlyShard(ts, d, j)
    ensures Unshard(Split(ts, d)) == ts[j]
  {
    hide At, Unshard;
    SumOfOnly(ts, d, j);
    SumOfNone(ts[..j], d);
    forall idx | InBounds(idx, ts[j].shape) ensures At(Unshard(Split(ts, d)), idx) == At(ts[j], idx) {
      UnshardAt(ts, d, j, idx);
      assert idx[d := idx[d] + 0] == idx;
    }
    SameElements(Unshard(Split(ts, d)), ts[j]);
  }

  /** The constructor of a split tensor. */
  function MakeSplit<E>(shards: seq<Tensor<E>>, dim: int): Option<Split<E>> {
    if dim >= 0 && Split(shards, dim).Valid() then Some(Split(shards, dim)) else None
  }
}
