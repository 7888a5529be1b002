/** When elementwise operands are cut in the same places, and what happens if they are not. */
module Alignment {
  import opened Elementwise
  import opened Radices
  import opened ShardedElementwise
  import opened ShardedOps
  import opened Sharding
  import opened Slices
  import opened Tensors
  import opened Wrappers

  // ---- Shards that are not empty ----

  predicate NonEmptySplit(x: Split<real>)
    requires x.Valid()
  {
    forall i | 0 <= i < |x.shards| :: x.shards[i].shape[x.dim] > 0
  }

  /** No shard is empty along the split dimension. */
  predicate NonEmpty(x: AnyTensor)
    requires x.Valid()
  {
    x.Sharded? ==> NonEmptySplit(x.split)
  }

  /** Every shard of the first is at most as long as that of the second. */
  predicate SizesAtMost(ys: seq<Tensor<real>>, e: nat, xs: seq<Tensor<real>>, d: nat) {
    |ys| == |xs| && forall i | 0 <= i < |ys| :: e < |ys[i].shape| && d < |xs[i].shape| && ys[i].shape[e] <= xs[i].shape[d]
  }

  lemma {:induction false} EqualSums(ys: seq<Tensor<real>>, e: nat, xs: seq<Tensor<real>>, d: nat)
    requires SizesAtMost(ys, e, xs, d)
    ensures DimSum(ys, e) <= DimSum(xs, d)
    ensures DimSum(ys, e) == DimSum(xs, d) ==> SameSizes(xs, d, ys, e)
  {
    if ys != [] {
      EqualSums(ys[1..], e, xs[1..], d);
      if DimSum(ys, e) == DimSum(xs, d) {
        forall i | 0 <= i < |ys| ensures ys[i].shape[e] == xs[i].shape[d] {
          assert i > 0 ==> ys[i] == ys[1..][i - 1] && xs[i] == xs[1..][i - 1];
        }
      }
    }
  }

  lemma {:induction false} AtLeastOneEach(ys: seq<Tensor<real>>, e: nat)
    requires forall i | 0 <= i < |ys| :: e < |ys[i].shape| && ys[i].shape[e] >= 1
    ensures DimSum(ys, e) >= |ys|
  {
    if ys != [] {
      AtLeastOneEach(ys[1..], e);
    }
  }

  /** What the sizes of shards that combine have in common with those of the results. */
  predicate Combine(xs: seq<Tensor<real>>, d: nat, ys: seq<Tensor<real>>, e: nat, zs: seq<Tensor<real>>) {
    && |xs| == |ys| == |zs|
    && forall k | 0 <= k < |xs| :: d < |xs[k].shape| && e < |ys[k].shape| && d < |zs[k].shape|
         && Agree(xs[k].shape[d], ys[k].shape[e]) && zs[k].shape[d] == Wider(xs[k].shape[d], ys[k].shape[e])
  }

  /** A shard of a single step that is repeated for several steps of the other operand. */
  predicate Repeated(xs: seq<Tensor<real>>, d: nat, ys: seq<Tensor<real>>, e: nat, k: nat) {
    k < |xs| && k < |ys| && d < |xs[k].shape| && e < |ys[k].shape| && xs[k].shape[d] == 1 && ys[k].shape[e] >= 2
  }

  /** If the operands have as many steps as the result, and no shard is repeated, they are cut in the same places. */
  lemma SameUnlessRepeated(xs: seq<Tensor<real>>, d: nat, ys: seq<Tensor<real>>, e: nat, zs: seq<Tensor<real>>)
    requires Combine(xs, d, ys, e, zs)
    requires DimSum(xs, d) == DimSum(ys, e) == DimSum(zs, d)
    requires forall k | 0 <= k < |xs| :: !Repeated(xs, d, ys, e, k) && !Repeated(ys, e, xs, d, k)
    ensures SameSizes(xs, d, ys, e)
  {
    forall k | 0 <= k < |xs| ensures zs[k].shape[d] <= xs[k].shape[d] && zs[k].shape[d] <= ys[k].shape[e] {
      assert !Repeated(xs, d, ys, e, k) && !Repeated(ys, e, xs, d, k);
    }
    EqualSums(zs, d, xs, d);
    EqualSums(zs, d, ys, e);
  }

  lemma SameIfNonEmpty(xs: seq<Tensor<real>>, d: nat, ys: seq<Tensor<real>>, e: nat, zs: seq<Tensor<real>>)
    requires Combine(xs, d, ys, e, zs)
    requires DimSum(xs, d) == DimSum(ys, e) == DimSum(zs, d)
    requires forall k | 0 <= k < |xs| :: xs[k].shape[d] > 0 && ys[k].shape[e] > 0
    ensures SameSizes(xs, d, ys, e)
  {
    EqualSums(xs, d, zs, d);
    EqualSums(ys, e, zs, d);
  }

  lemma SplitsAligned(f: (real, real) -> real, x: Split<real>, y: Split<real>, z: AnyTensor)
    requires x.Valid() && y.Valid() && ZipSplits(f, x, y) == Some(z) && NonEmptySplit(x) && NonEmptySplit(y)
    ensures !Misaligned(x, y)
  {
    hide ZipSplits, Unshard, Zip, Compatible, BroadcastShape;
    SplitsCombined(f, x, y, z);
    if Misaligned(x, y) {
      ResultSizes(f, x, y, z.split.shards);
      SameIfNonEmpty(x.shards, x.dim, y.shards, y.dim, z.split.shards);
    }
  }

  /** All shares have the rounded-down size. */
  lemma SharesAre(t: Tensor<real>, d: nat, n: nat, u: Split<real>)
    requires t.Valid() && d < |t.shape| && n > 0 && ReshardReplicated(t, d, n) == Some(u)
    ensures u.Valid() && u.dim == d && |u.shards| == n
    ensures forall i | 0 <= i < n :: u.shards[i].shape[d] == t.shape[d] / n
    ensures u.Shape() == t.shape[d := Covered(t.shape[d], n)]
  {
    hide At;
    ShareShapes(t, d, n);
    SharesShape(t, d, n, u);
  }

  /** A share of a dimension of which something is covered is not empty. */
  lemma SharesNonEmpty(t: Tensor<real>, d: nat, n: nat, u: Split<real>)
    requires t.Valid() && d < |t.shape| && n > 0 && ReshardReplicated(t, d, n) == Some(u)
    ensures u.Valid() && (u.Shape()[u.dim] > 0 ==> NonEmptySplit(u))
  {
    SharesAre(t, d, n, u);
    assert t.shape[d] / n == 0 ==> Covered(t.shape[d], n) == 0;
  }

  lemma {:induction false} BoundsRise(n: nat, size: nat)
    requires n > 0 && size > 0
    ensures forall i | 0 < i < |SplitBounds(n, size)| :: SplitBounds(n, size)[i - 1] < SplitBounds(n, size)[i]
  {
    if n > size {
      BoundsRise(n - size, size);
      var rest := SplitBounds(n - size, size);
      forall i | 0 < i < |SplitBounds(n, size)| ensures SplitBounds(n, size)[i - 1] < SplitBounds(n, size)[i] {
        assert i > 1 ==> rest[i - 2] < rest[i - 1];
      }
    }
  }

  /** A nonempty dimension has nonempty pieces. */
  lemma PiecesNonEmpty(t: Tensor<real>, d: nat, n: nat, u: Split<real>)
    requires t.Valid() && SplitTensor(t, d, n) == Some(u) && t.shape[d] > 0
    ensures u.Valid() && NonEmptySplit(u)
  {
    SplitThenUnshard(t, d, n);
    SplitParts(t, d, n);
    CeilDivStep(t.shape[d], n);
    BoundsRise(t.shape[d], CeilDiv(t.shape[d], n));
    var bounds := SplitBounds(t.shape[d], CeilDiv(t.shape[d], n));
    forall i | 0 <= i < n ensures u.shards[i].shape[d] > 0 {
      assert bounds[i + 1 - 1] < bounds[i + 1];
    }
  }

  lemma SomeSteps(x: Split<real>)
    requires x.Valid() && NonEmptySplit(x)
    ensures x.Shape()[x.dim] >= |x.shards| > 0
  {
    AtLeastOneEach(x.shards, x.dim);
  }

  lemma PlainAligned(f: (real, real) -> real, x: Split<real>, y: Tensor<real>, u: Split<real>, z: AnyTensor)
    requires x.Valid() && y.Valid() && NonEmptySplit(x) && SplitTensor(y, x.dim, |x.shards|) == Some(u)
    requires u.Valid() && ZipSplits(f, x, u) == Some(z)
    ensures !Misaligned(x, u)
  {
    hide ZipSplits;
    SplitThenUnshard(y, x.dim, |x.shards|);
    if Misaligned(x, u) {
      SomeSteps(x);
      PiecesNonEmpty(y, x.dim, |x.shards|, u);
      SplitsAligned(f, x, u, z);
      assert false;
    }
  }

  lemma SharesAligned(f: (real, real) -> real, x: Split<real>, y: Tensor<real>, u: Split<real>, z: AnyTensor)
    requires x.Valid() && y.Valid() && NonEmptySplit(x) && ReshardReplicated(y, x.dim, |x.shards|) == Some(u)
    requires u.Valid() && (ZipSplits(f, x, u) == Some(z) || ZipSplits(f, u, x) == Some(z))
    ensures !Misaligned(x, u) || ZipSplits(f, x, u) != Some(z)
    ensures !Misaligned(u, x) || ZipSplits(f, u, x) != Some(z)
  {
    hide ZipSplits;
    SomeSteps(x);
    SharesNonEmpty(y, x.dim, |x.shards|, u);
    if ZipSplits(f, x, u) == Some(z) && NonEmptySplit(u) {
      SplitsAligned(f, x, u, z);
    }
    if ZipSplits(f, u, x) == Some(z) && NonEmptySplit(u) {
      SplitsAligned(f, u, x, z);
    }
  }

  lemma NotCrossed(f: (real, real) -> real, x: AnyTensor, y: AnyTensor, z: AnyTensor)
    requires x.Valid() && y.Valid() && NonEmpty(x) && NonEmpty(y) && BinaryAny(f, x, y) == Some(z)
    ensures !Crossed(x, y)
  {
    hide ZipSplits, Misaligned, ReshardReplicated, SplitTensor, Split.Valid;
    match (x, y)
    case (Sharded(s), Sharded(u)) => SplitsAligned(f, s, u, z);
    case (Sharded(s), Plain(b)) =>
      SplitThenUnshard(b, s.dim, |s.shards|);
      PlainAligned(f, s, b, SplitTensor(b, s.dim, |s.shards|).value, z);
    case (Sharded(s), Replicated(b, m)) =>
      if !RepeatsAlong(s, b) {
        SharesAligned(f, s, b, ReshardReplicated(b, s.dim, m).value, z);
      }
    case (Replicated(a, m), Sharded(s)) => SharesAligned(f, s, a, ReshardReplicated(a, s.dim, m).value, z);
    case _ =>
  }

  /** Steps that are dropped although the wholes have matching sizes must meet a single step or none. */
  lemma DroppedSizes(size: nat, n: nat, other: nat)
    requires n > 0 && Drops(size, n, other) && Agree(size, other) && Agree(Covered(size, n), other)
    ensures n > 1 && other <= 1
  {
    var c := Covered(size, n);
    if c == 1 {
      CoversAll(size, n, c);
    }
  }

  lemma CombinableSizes(x: Split<real>, y: Tensor<real>, u: Split<real>)
    requires x.Valid() && y.Valid() && NonEmptySplit(x) && ReshardReplicated(y, x.dim, |x.shards|) == Some(u) && u.Valid()
    requires |u.Shape()| == |x.Shape()|
    requires Compatible(x.Shape(), u.Shape()) || Compatible(u.Shape(), x.Shape())
    requires Compatible(x.Shape(), y.shape) || Compatible(y.shape, x.Shape())
    ensures !Drops(y.shape[x.dim], |x.shards|, x.Shape()[x.dim])
  {
    var d, n := x.dim, |x.shards|;
    SomeSteps(x);
    SharesAre(y, d, n, u);
    assert Agree(y.shape[d], x.Shape()[d]) by {
      if Compatible(x.Shape(), y.shape) {
        DimSizes(x.Shape(), y.shape, d, d);
      } else {
        DimSizes(y.shape, x.Shape(), d, d);
      }
    }
    assert Agree(u.Shape()[d], x.Shape()[d]) by {
      if Compatible(x.Shape(), u.Shape()) {
        DimSizes(x.Shape(), u.Shape(), d, d);
      } else {
        DimSizes(u.Shape(), x.Shape(), d, d);
      }
    }
    if Drops(y.shape[d], n, x.Shape()[d]) {
      DroppedSizes(y.shape[d], n, x.Shape()[d]);
    }
  }

  lemma NothingLost(f: (real, real) -> real, x: AnyTensor, y: AnyTensor, z: AnyTensor)
    requires x.Valid() && y.Valid() && NonEmpty(x) && NonEmpty(y) && BinaryAny(f, x, y) == Some(z)
    requires Broadcasts(x.Meaning(), y.Meaning())
    ensures !Loses(x, y)
  {
    hide Unshard, Compatible, Drops, ReshardReplicated, SplitTensor;
    match (x, y)
    case (Sharded(s), Replicated(b, m)) =>
      if !RepeatsAlong(s, b) {
        SplitsRight(f, s, ReshardReplicated(b, s.dim, m).value, z);
        SharesAre(b, s.dim, m, ReshardReplicated(b, s.dim, m).value);
        CombinableSizes(s, b, ReshardReplicated(b, s.dim, m).value);
      }
    case (Replicated(a, m), Sharded(s)) =>
      SplitsRight(f, ReshardReplicated(a, s.dim, m).value, s, z);
      SharesAre(a, s.dim, m, ReshardReplicated(a, s.dim, m).value);
      CombinableSizes(s, a, ReshardReplicated(a, s.dim, m).value);
    case _ =>
  }

  /** Operands without empty shards that are combined at all are cut in the same places, and steps are dropped exactly if
      the operands could not be combined as wholes. */
  lemma NonEmptyAligned(f: (real, real) -> real, x: AnyTensor, y: AnyTensor, z: AnyTensor, n: nat)
    requires x.Valid() && y.Valid() && x.Fits(n) && y.Fits(n) && NonEmpty(x) && NonEmpty(y) && BinaryAny(f, x, y) == Some(z)
    ensures !Crossed(x, y) && (Loses(x, y) <==> !Broadcasts(x.Meaning(), y.Meaning()))
  {
    NotCrossed(f, x, y, z);
    BinarySound(f, x, y, z, n);
    if Loses(x, y) && Broadcasts(x.Meaning(), y.Meaning()) {
      NothingLost(f, x, y, z);
      assert false;
    }
  }

  // ---- What a repeated shard does ----

  const FIRST := (a: real, b: real) => a
  const SECOND := (a: real, b: real) => b

  predicate Distinct(data: seq<real>) {
    forall i, j | 0 <= i < j < |data| :: data[i] != data[j]
  }

  lemma DistinctAt(t: Tensor<real>, i: seq<nat>, j: seq<nat>)
    requires t.Valid() && Distinct(t.data) && InBounds(i, t.shape) && InBounds(j, t.shape) && i != j
    ensures At(t, i) != At(t, j)
  {
    UnravelOffset(t.shape, i);
    UnravelOffset(t.shape, j);
  }

  predicate Positive(shape: seq<nat>) {
    forall k | 0 <= k < |shape| :: shape[k] > 0
  }

  /** Neighbours along a dimension in which the operand has a single step meet the same element of it. */
  lemma SamePick(t: Tensor<real>, d: nat, e: nat, idx: seq<nat>, idx': seq<nat>)
    requires e < |t.shape| <= |idx| && t.shape[e] == 1 && d == e + |idx| - |t.shape| && idx' == idx[d := 1]
    ensures Pick(t, idx') == Pick(t, idx)
  {
    assert Low(t.shape, idx') == Low(t.shape, idx);
  }

  lemma DifferentLows(s: seq<nat>, r: seq<nat>, d: nat, e: nat, g: seq<nat>, g': seq<nat>)
    requires |s| <= |r| == |g| == |g'| && e < |s| && d == e + |r| - |s| && s[e] != 1 && g[d] != g'[d]
    ensures Low(s, g) != Low(s, g')
  {
    assert Low(s, g)[e] != Low(s, g')[e];
  }

  lemma DifferentPicks(t: Tensor<real>, r: seq<nat>, d: nat, e: nat, g: seq<nat>, g': seq<nat>)
    requires t.Valid() && Stretches(t.shape, r) && InBounds(g, r) && InBounds(g', r) && Distinct(t.data)
    requires e < |t.shape| && d == e + |r| - |t.shape| && t.shape[e] != 1 && g[d] != g'[d]
    ensures Pick(t, g) != Pick(t, g')
  {
    hide At, Pick, Stretches, Distinct;
    Picked(t, r, g);
    Picked(t, r, g');
    DifferentLows(t.shape, r, d, e, g, g');
    DistinctAt(t, Low(t.shape, g), Low(t.shape, g'));
  }

  /** Two equal elements of one shard of a result, and where they lie in the whole. */
  lemma EqualElements(zs: seq<Tensor<real>>, d: nat, k: nat, idx: seq<nat>) returns (g: seq<nat>, g': seq<nat>)
    requires Split(zs, d).Valid() && k < |zs| && InBounds(idx, zs[k].shape) && InBounds(idx[d := 1], zs[k].shape) && idx[d] == 0
    requires At(zs[k], idx) == At(zs[k], idx[d := 1])
    ensures InBounds(g, Split(zs, d).Shape()) && InBounds(g', Split(zs, d).Shape()) && g[d] != g'[d]
    ensures At(Unshard(Split(zs, d)), g) == At(Unshard(Split(zs, d)), g')
  {
    hide At, Unshard;
    UnshardAt(zs, d, k, idx);
    UnshardAt(zs, d, k, idx[d := 1]);
    g, g' := idx[d := 0 + DimSum(zs[..k], d)], idx[d := 1][d := 1 + DimSum(zs[..k], d)];
  }

  /** The shards of a result are as long as the result in the other dimensions. */
  lemma ShardInBounds(f: (real, real) -> real, x: Split<real>, y: Split<real>, zs: seq<Tensor<real>>, k: nat) returns (idx: seq<nat>)
    requires Combined(f, x, y, zs) && |y.Shape()| <= |x.Shape()| && k < |zs| && zs[k].shape[x.dim] >= 2
    requires Positive(x.Shape()) && Positive(y.Shape())
    ensures InBounds(idx, zs[k].shape) && InBounds(idx[x.dim := 1], zs[k].shape) && idx[x.dim] == 0
  {
    hide Compatible, Zip, BroadcastShape;
    idx := seq(|zs[k].shape|, _ => 0);
    assert zs[k] == Zip(f, x.shards[k], y.shards[k]);
    forall c | 0 <= c < |idx| ensures zs[k].shape[c] > 0 {
      if c != x.dim {
        OtherDimension(x, y, k, c);
        PositiveBroadcast(x.Shape(), y.Shape(), c);
      }
    }
  }

  lemma PositiveBroadcast(s: seq<nat>, t: seq<nat>, c: nat)
    requires Positive(s) && Positive(t) && c < Max(|s|, |t|)
    ensures BroadcastShape(s, t)[c] > 0
  {
  }

  /** If a shard of the first operand is repeated, the operation that returns its first operand is wrong. */
  lemma FirstWrong(x: Split<real>, y: Split<real>, zs: seq<Tensor<real>>, k: nat)
    requires Combined(FIRST, x, y, zs) && Misaligned(x, y) && Repeated(x.shards, x.dim, y.shards, y.dim, k)
    requires Positive(x.Shape()) && Positive(y.Shape()) && Distinct(Unshard(x).data)
    ensures !Right(FIRST, Unshard(x), Unshard(y), Unshard(Split(zs, x.dim)))
  {
    hide At, Unshard, Zip, Pick, Compatible, BroadcastShape;
    ResultSizes(FIRST, x, y, zs);
    var idx := ShardInBounds(FIRST, x, y, zs, k);
    assert zs[k] == Zip(FIRST, x.shards[k], y.shards[k]);
    SamePick(x.shards[k], x.dim, x.dim, idx, idx[x.dim := 1]);
    ZippedAt(FIRST, x.shards[k], y.shards[k], idx);
    ZippedAt(FIRST, x.shards[k], y.shards[k], idx[x.dim := 1]);
    var g, g' := EqualElements(zs, x.dim, k, idx);
    BothStretch(x.Shape(), y.Shape());
    DifferentPicks(Unshard(x), BroadcastShape(x.Shape(), y.Shape()), x.dim, x.dim, g, g');
    ZippedAt(FIRST, Unshard(x), Unshard(y), g);
    ZippedAt(FIRST, Unshard(x), Unshard(y), g');
  }

  lemma SecondWrong(x: Split<real>, y: Split<real>, zs: seq<Tensor<real>>, k: nat)
    requires Combined(SECOND, x, y, zs) && Misaligned(x, y) && Repeated(y.shards, y.dim, x.shards, x.dim, k)
    requires Positive(x.Shape()) && Positive(y.Shape()) && Distinct(Unshard(y).data)
    ensures !Right(SECOND, Unshard(x), Unshard(y), Unshard(Split(zs, x.dim)))
  {
    hide At, Unshard, Zip, Pick, Compatible, BroadcastShape;
    ResultSizes(SECOND, x, y, zs);
    var idx := ShardInBounds(SECOND, x, y, zs, k);
    assert zs[k] == Zip(SECOND, x.shards[k], y.shards[k]);
    SamePick(y.shards[k], x.dim, y.dim, idx, idx[x.dim := 1]);
    ZippedAt(SECOND, x.shards[k], y.shards[k], idx);
    ZippedAt(SECOND, x.shards[k], y.shards[k], idx[x.dim := 1]);
    var g, g' := EqualElements(zs, x.dim, k, idx);
    BothStretch(x.Shape(), y.Shape());
    DifferentPicks(Unshard(y), BroadcastShape(x.Shape(), y.Shape()), x.dim, y.dim, g, g');
    ZippedAt(SECOND, Unshard(x), Unshard(y), g);
    ZippedAt(SECOND, Unshard(x), Unshard(y), g');
  }

  /** For nonempty operands with distinct elements, that are not cut in the same places, one of the two operations that
      return an operand is wrong. */
  lemma MisalignedWrong(x: Split<real>, y: Split<real>, zs: seq<Tensor<real>>, zs': seq<Tensor<real>>)
    requires Combined(FIRST, x, y, zs) && Combined(SECOND, x, y, zs') && Misaligned(x, y)
    requires Positive(x.Shape()) && Positive(y.Shape()) && Distinct(Unshard(x).data) && Distinct(Unshard(y).data)
    ensures !Right(FIRST, Unshard(x), Unshard(y), Unshard(Split(zs, x.dim)))
         || !Right(SECOND, Unshard(x), Unshard(y), Unshard(Split(zs', x.dim)))
  {
    hide Combined, Misaligned, Repeated, Right, Distinct, Positive, Unshard;
    var k := RepeatedShard(FIRST, x, y, zs);
    if Repeated(x.shards, x.dim, y.shards, y.dim, k) {
      FirstWrong(x, y, zs, k);
    } else {
      SecondWrong(x, y, zs', k);
    }
  }

  lemma RepeatedShard(f: (real, real) -> real, x: Split<real>, y: Split<real>, zs: seq<Tensor<real>>) returns (k: nat)
    requires Combined(f, x, y, zs) && Misaligned(x, y)
    ensures Repeated(x.shards, x.dim, y.shards, y.dim, k) || Repeated(y.shards, y.dim, x.shards, x.dim, k)
  {
    hide Repeated, Compatible, Zip, BroadcastShape;
    ResultSizes(f, x, y, zs);
    if k' :| 0 <= k' < |x.shards| && (Repeated(x.shards, x.dim, y.shards, y.dim, k') || Repeated(y.shards, y.dim, x.shards, x.dim, k')) {
      k := k';
    } else {
      SameUnlessRepeated(x.shards, x.dim, y.shards, y.dim, zs);
    }
  }

  // ---- The condition is exact ----

  /** For nonempty operands with distinct elements: the operations that return one of the operands are both right, if and
      only if the operands are cut in the same places and no steps are dropped. */
  lemma RightUnlessCrossed(x: AnyTensor, y: AnyTensor, z: AnyTensor, z': AnyTensor, n: nat)
    requires x.Valid() && y.Valid() && x.Fits(n) && y.Fits(n)
    requires BinaryAny(FIRST, x, y) == Some(z) && BinaryAny(SECOND, x, y) == Some(z')
    requires Positive(x.Meaning().shape) && Positive(y.Meaning().shape) && Distinct(x.Meaning().data) && Distinct(y.Meaning().data)
    ensures z.Valid() && z'.Valid()
    ensures Right(FIRST, x.Meaning(), y.Meaning(), z.Meaning()) && Right(SECOND, x.Meaning(), y.Meaning(), z'.Meaning())
       <==> Aligned(x, y)
  {
    hide Right, Loses, Crossed, BinaryAny, Distinct, Positive;
    BinarySound(FIRST, x, y, z, n);
    BinarySound(SECOND, x, y, z', n);
    if !Loses(x, y) && Crossed(x, y) {
      CrossedWrong(x, y, z, z');
    }
  }

  lemma CrossedWrong(x: AnyTensor, y: AnyTensor, z: AnyTensor, z': AnyTensor)
    requires x.Valid() && y.Valid() && z.Valid() && z'.Valid()
    requires BinaryAny(FIRST, x, y) == Some(z) && BinaryAny(SECOND, x, y) == Some(z') && !Loses(x, y) && Crossed(x, y)
    requires Positive(x.Meaning().shape) && Positive(y.Meaning().shape) && Distinct(x.Meaning().data) && Distinct(y.Meaning().data)
    ensures !Right(FIRST, x.Meaning(), y.Meaning(), z.Meaning()) || !Right(SECOND, x.Meaning(), y.Meaning(), z'.Meaning())
  {
    hide Right, Distinct, Positive, Unshard, ReshardReplicated, SplitTensor, ZipSplits, Misaligned;
    match (x, y)
    case (Sharded(s), Sharded(u)) => SplitsWrong(s, u, z, z');
    case (Sharded(s), Plain(b)) =>
      SplitThenUnshard(b, s.dim, |s.shards|);
      SplitsWrong(s, SplitTensor(b, s.dim, |s.shards|).value, z, z');
    case (Sharded(s), Replicated(b, m)) =>
      SharesWhole(b, s.dim, m, ReshardReplicated(b, s.dim, m).value, s);
      SplitsWrong(s, ReshardReplicated(b, s.dim, m).value, z, z');
    case (Replicated(a, m), Sharded(s)) =>
      SharesWhole(a, s.dim, m, ReshardReplicated(a, s.dim, m).value, s);
      SplitsWrong(ReshardReplicated(a, s.dim, m).value, s, z, z');
    case _ =>
  }

  lemma SharesWhole(t: Tensor<real>, d: nat, n: nat, u: Split<real>, x: Split<real>)
    requires t.Valid() && x.Valid() && d < |t.shape| && n > 0 && ReshardReplicated(t, d, n) == Some(u) && x.dim == d
    requires Positive(Unshard(x).shape) && !Drops(t.shape[d], n, x.Shape()[d])
    ensures u.Valid() && Unshard(u) == t
  {
    hide ReshardReplicated, Unshard;
    SharesShape(t, d, n, u);
  }

  lemma SplitsWrong(x: Split<real>, y: Split<real>, z: AnyTensor, z': AnyTensor)
    requires x.Valid() && y.Valid() && z.Valid() && z'.Valid()
    requires ZipSplits(FIRST, x, y) == Some(z) && ZipSplits(SECOND, x, y) == Some(z') && Misaligned(x, y)
    requires Positive(Unshard(x).shape) && Positive(Unshard(y).shape) && Distinct(Unshard(x).data) && Distinct(Unshard(y).data)
    ensures !Right(FIRST, Unshard(x), Unshard(y), z.Meaning()) || !Right(SECOND, Unshard(x), Unshard(y), z'.Meaning())
  {
    hide Right, Distinct, Positive, ZipSplits, Misaligned, Combined;
    SplitsCombined(FIRST, x, y, z);
    SplitsCombined(SECOND, x, y, z');
    MisalignedWrong(x, y, z.split.shards, z'.split.shards);
  }

  lemma PairShape(x: Split<real>, m: nat, n: nat)
    requires x.Valid() && x.dim == 0 && |x.shards| == 2 && x.shards[0].shape == [m] && x.shards[1].shape == [n]
    ensures x.Shape() == [m + n]
  {
    assert x.shards[1..][0] == x.shards[1] && x.shards[1..][1..] == [];
    assert DimSum(x.shards[1..], 0) == n;
  }

  /** A replicated vector of three in two shares: its third element is dropped, and the combination with a vector of two is
      carried out although the wholes do not match. */
  lemma ThirdElementDropped(f: (real, real) -> real, x: Split<real>, y: Tensor<real>) returns (z: AnyTensor)
    requires x.Valid() && x.dim == 0 && |x.shards| == 2 && x.shards[0].shape == x.shards[1].shape == [1]
    requires y.Valid() && y.shape == [3]
    ensures BinaryAny(f, Sharded(x), Replicated(y, 2)) == Some(z) && z.Valid() && !Broadcasts(Unshard(x), y)
  {
    hide Unshard;
    PairShape(x, 1, 1);
    assert DimAt(x.Shape(), 1, 0) == 2 && DimAt(y.shape, 1, 0) == 3;
    var u := ReshardReplicated(y, 0, 2).value;
    SharesAre(y, 0, 2, u);
    ShareShapes(y, 0, 2);
    assert SameSizes(x.shards, 0, u.shards, 0);
    SameShape(x.shards[0].shape);
    z := SplitsRun(f, x, u);
  }

  /** Shards of two elements and none, combined with shards of one element each: the second element meets the first of the
      other operand. */
  lemma SecondMeetsFirst(x: Split<real>, y: Split<real>) returns (z: AnyTensor)
    requires x.Valid() && x.dim == 0 && |x.shards| == 2 && x.shards[0].shape == [2] && x.shards[1].shape == [0]
    requires y.Valid() && y.dim == 0 && |y.shards| == 2 && y.shards[0].shape == y.shards[1].shape == [1]
    requires Distinct(Unshard(y).data)
    ensures BinaryAny(SECOND, Sharded(x), Sharded(y)) == Some(z) && z.Valid()
    ensures Broadcasts(Unshard(x), Unshard(y)) && z.Meaning() != Zip(SECOND, Unshard(x), Unshard(y))
  {
    hide Unshard, Right;
    z := TwoAndNoneRun(x, y);
    SplitsCombined(SECOND, x, y, z);
    assert Repeated(y.shards, 0, x.shards, 0, 0) && Misaligned(x, y);
    SecondWrong(x, y, z.split.shards, 0);
    SplitsRight(SECOND, x, y, z);
    NotZip(SECOND, Unshard(x), Unshard(y), z.Meaning());
  }

  lemma NotZip(f: (real, real) -> real, x: Tensor<real>, y: Tensor<real>, z: Tensor<real>)
    requires Broadcasts(x, y) && !Right(f, x, y, z)
    ensures z != Zip(f, x, y)
  {
  }

  lemma TwoAndNoneRun(x: Split<real>, y: Split<real>) returns (z: AnyTensor)
    requires x.Valid() && x.dim == 0 && |x.shards| == 2 && x.shards[0].shape == [2] && x.shards[1].shape == [0]
    requires y.Valid() && y.dim == 0 && |y.shards| == 2 && y.shards[0].shape == y.shards[1].shape == [1]
    ensures x.Shape() == y.Shape() == [2] && ZipSplits(SECOND, x, y) == Some(z) && z.Valid()
  {
    hide Unshard, At, Zip, Prod, Compatible, BroadcastShape, DimSum, DimAt;
    PairShape(x, 2, 0);
    PairShape(y, 1, 1);
    OneStep(x.shards[0].shape, y.shards[0].shape);
    OneStep(x.shards[1].shape, y.shards[1].shape);
    ZipsRun(SECOND, x.shards, y.shards);
    var zs := ZipEach(SECOND, x.shards, y.shards).value;
    assert zs[0].shape == [2] && zs[1].shape == [0];
    PairShape(Split(zs, 0), 2, 0);
    SameShape(x.Shape());
    z := Sharded(Split(zs, 0));
  }

  lemma OneStep(s: seq<nat>, t: seq<nat>)
    requires |s| == |t| == 1 && t[0] == 1
    ensures Compatible(s, t) && BroadcastShape(s, t) == s
  {
  }
}
