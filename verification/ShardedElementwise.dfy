/** Elementwise operations on two sharded tensors: exactly when they mean the operation on what the operands stand for. */
module ShardedElementwise {
  import opened Elementwise
  import opened ShardedOps
  import opened Sharding
  import opened Slices
  import opened Tensors
  import opened Wrappers

  // ---- Shards in pairs ----

  predicate ZipProducts(f: (real, real) -> real, xs: seq<Tensor<real>>, ys: seq<Tensor<real>>, zs: seq<Tensor<real>>) {
    |zs| == |xs| == |ys| && forall k | 0 <= k < |xs| :: Broadcasts(xs[k], ys[k]) && zs[k] == Zip(f, xs[k], ys[k])
  }

  /** The shards of two operands have the same sizes along dimensions that correspond. */
  predicate SameSizes(xs: seq<Tensor<real>>, i: nat, ys: seq<Tensor<real>>, j: nat) {
    && |ys| == |xs|
    && forall k | 0 <= k < |xs| :: i < |xs[k].shape| && j < |ys[k].shape| && ys[k].shape[j] == xs[k].shape[i]
  }

  lemma {:induction false} SameSums(xs: seq<Tensor<real>>, i: nat, ys: seq<Tensor<real>>, j: nat)
    requires SameSizes(xs, i, ys, j)
    ensures DimSum(ys, j) == DimSum(xs, i)
  {
    if xs != [] {
      SameSums(xs[1..], i, ys[1..], j);
    }
  }

  lemma ZipsValid(f: (real, real) -> real, xs: seq<Tensor<real>>, i: nat, ys: seq<Tensor<real>>, j: nat, zs: seq<Tensor<real>>, d: nat)
    requires Split(xs, i).Valid() && Split(ys, j).Valid() && ZipProducts(f, xs, ys, zs) && SameSizes(xs, i, ys, j)
    requires i + |ys[0].shape| == j + |xs[0].shape| && d == BroadcastDim(xs[0].shape, ys[0].shape, i)
    ensures Split(zs, d).Valid() && zs[0] == Zip(f, xs[0], ys[0]) && ZipProducts(f, xs[1..], ys[1..], zs[1..])
  {
    hide Compatible;
    forall k | 0 <= k < |zs| ensures zs[k].Valid() && zs[k].shape == zs[0].shape[d := xs[k].shape[i]] {
      assert zs[0] == Zip(f, xs[0], ys[0]) && zs[k] == Zip(f, xs[k], ys[k]);
      ShapesUpdated(xs[0].shape, ys[0].shape, i, j, xs[k].shape[i]);
    }
  }

  /** Operands that are cut in the same places. */
  lemma {:induction false} ZipsSound(f: (real, real) -> real, xs: seq<Tensor<real>>, i: nat, ys: seq<Tensor<real>>, j: nat, zs: seq<Tensor<real>>, d: nat)
    requires Split(xs, i).Valid() && Split(ys, j).Valid() && ZipProducts(f, xs, ys, zs) && SameSizes(xs, i, ys, j)
    requires i + |ys[0].shape| == j + |xs[0].shape| && d == BroadcastDim(xs[0].shape, ys[0].shape, i)
    ensures Split(zs, d).Valid() && Broadcasts(Unshard(Split(xs, i)), Unshard(Split(ys, j)))
    ensures Unshard(Split(zs, d)) == Zip(f, Unshard(Split(xs, i)), Unshard(Split(ys, j)))
    decreases |xs|
  {
    hide At, Broadcasts, Join, Zip, BroadcastShape;
    ZipsValid(f, xs, i, ys, j, zs, d);
    if |xs| > 1 {
      UnshardStep(xs, i);
      UnshardStep(ys, j);
      UnshardStep(zs, d);
      ZipsSound(f, xs[1..], i, ys[1..], j, zs[1..], d);
      SameSums(xs[1..], i, ys[1..], j);
      ZipOfJoins(f, xs[0], Unshard(Split(xs[1..], i)), i, ys[0], Unshard(Split(ys[1..], j)), j, d);
    }
  }

  /** A second operand that does not change along the split dimension. */
  lemma {:induction false} ZipsWholeSound(f: (real, real) -> real, xs: seq<Tensor<real>>, i: nat, y: Tensor<real>, zs: seq<Tensor<real>>, d: nat)
    requires Split(xs, i).Valid() && ZipProducts(f, xs, Copies(y, |xs|), zs)
    requires d == BroadcastDim(xs[0].shape, y.shape, i) && Whole(y.shape, Max(|xs[0].shape|, |y.shape|), d)
    ensures Split(zs, d).Valid() && Broadcasts(Unshard(Split(xs, i)), y)
    ensures Unshard(Split(zs, d)) == Zip(f, Unshard(Split(xs, i)), y)
    decreases |xs|
  {
    hide At, Broadcasts, Join, Zip, BroadcastShape, Whole;
    WholeValid(f, xs, i, y, zs, d);
    if |xs| > 1 {
      UnshardStep(xs, i);
      UnshardStep(zs, d);
      ZipsWholeSound(f, xs[1..], i, y, zs[1..], d);
      ZipOfJoinAndWhole(f, xs[0], Unshard(Split(xs[1..], i)), i, y, d);
    }
  }

  lemma WholeValid(f: (real, real) -> real, xs: seq<Tensor<real>>, i: nat, y: Tensor<real>, zs: seq<Tensor<real>>, d: nat)
    requires Split(xs, i).Valid() && ZipProducts(f, xs, Copies(y, |xs|), zs)
    requires d == BroadcastDim(xs[0].shape, y.shape, i) && Whole(y.shape, Max(|xs[0].shape|, |y.shape|), d)
    ensures Split(zs, d).Valid() && Broadcasts(xs[0], y) && zs[0] == Zip(f, xs[0], y)
    ensures ZipProducts(f, xs[1..], Copies(y, |xs[1..]|), zs[1..])
  {
    hide Compatible, Whole;
    assert Copies(y, |xs|)[0] == y;
    forall k | 0 <= k < |zs| ensures zs[k].Valid() && zs[k].shape == zs[0].shape[d := xs[k].shape[i]] {
      assert Copies(y, |xs|)[k] == y;
      assert zs[0] == Zip(f, xs[0], y) && zs[k] == Zip(f, xs[k], y);
      ShapeUpdated(xs[0].shape, y.shape, i, xs[k].shape[i]);
    }
    assert Copies(y, |xs|)[1..] == Copies(y, |xs[1..]|);
  }

  // ---- Split operands ----

  /** The shards of the operands combine, and their results make a tensor of the shape that the wholes would give. */
  predicate Combined(f: (real, real) -> real, x: Split<real>, y: Split<real>, zs: seq<Tensor<real>>) {
    && x.Valid() && y.Valid() && ZipProducts(f, x.shards, y.shards, zs)
    && BroadcastDim(x.Shape(), y.Shape(), x.dim) == BroadcastDim(y.Shape(), x.Shape(), y.dim)
    && Compatible(x.Shape(), y.Shape())
    && Split(zs, x.dim).Valid() && Split(zs, x.dim).Shape() == BroadcastShape(x.Shape(), y.Shape())
  }

  lemma SplitsCombined(f: (real, real) -> real, x: Split<real>, y: Split<real>, z: AnyTensor)
    requires x.Valid() && y.Valid() && ZipSplits(f, x, y) == Some(z)
    ensures z.Valid() && z.Sharded? && z.split.dim == x.dim && z.Fits(|x.shards|) && Combined(f, x, y, z.split.shards)
  {
    hide Compatible, Zip, BroadcastShape, Unshard;
  }

  /** The result is what it should be. */
  predicate Right(f: (real, real) -> real, x: Tensor<real>, y: Tensor<real>, z: Tensor<real>) {
    Broadcasts(x, y) && z == Zip(f, x, y)
  }

  lemma OneShardRight(f: (real, real) -> real, x: Split<real>, y: Split<real>, zs: seq<Tensor<real>>)
    requires Combined(f, x, y, zs) && |x.shards| == 1
    ensures Right(f, Unshard(x), Unshard(y), Unshard(Split(zs, x.dim)))
  {
    UnshardOne(x.shards, x.dim);
    UnshardOne(y.shards, y.dim);
    UnshardOne(zs, x.dim);
  }

  /** Results that are put together along another dimension than the operands are empty. */
  lemma HigherRankRight(f: (real, real) -> real, x: Split<real>, y: Split<real>, zs: seq<Tensor<real>>)
    requires Combined(f, x, y, zs) && |x.shards| > 1 && |y.Shape()| > |x.Shape()|
    ensures Right(f, Unshard(x), Unshard(y), Unshard(Split(zs, x.dim)))
  {
    hide Zip, BroadcastShape, Unshard, Compatible;
    var r := BroadcastShape(x.Shape(), y.Shape());
    forall k | 0 <= k < |zs| ensures zs[k].shape[x.dim] == r[x.dim] {
      OtherDimension(x, y, k, x.dim);
      assert zs[k] == Zip(f, x.shards[k], y.shards[k]);
    }
    SumOfEqual(zs, x.dim, r[x.dim]);
    NoSteps(|zs|, r[x.dim]);
    EmptyTensors(Unshard(Split(zs, x.dim)), Zip(f, Unshard(x), Unshard(y)), x.dim);
  }

  lemma NoSteps(n: nat, m: nat)
    requires n > 1 && n * m == m
    ensures m == 0
  {
    assert n * m == m + (n - 1) * m;
  }

  lemma OtherDimension(x: Split<real>, y: Split<real>, k: nat, c: nat)
    requires x.Valid() && y.Valid() && k < |x.shards| == |y.shards| && c < Max(|x.Shape()|, |y.Shape()|)
    requires BroadcastDim(x.Shape(), y.Shape(), x.dim) == BroadcastDim(y.Shape(), x.Shape(), y.dim) != c
    ensures BroadcastShape(x.shards[k].shape, y.shards[k].shape)[c] == BroadcastShape(x.Shape(), y.Shape())[c]
  {
    assert x.shards[k].shape == x.Shape()[x.dim := x.shards[k].shape[x.dim]];
    assert y.shards[k].shape == y.Shape()[y.dim := y.shards[k].shape[y.dim]];
  }

  lemma EmptyTensors(a: Tensor<real>, b: Tensor<real>, k: nat)
    requires a.Valid() && b.Valid() && a.shape == b.shape && k < |a.shape| && a.shape[k] == 0
    ensures a == b
  {
    forall idx | InBounds(idx, a.shape) ensures At(a, idx) == At(b, idx) {
      assert idx[k] < a.shape[k];
    }
    SameElements(a, b);
  }

  lemma SameSizesRight(f: (real, real) -> real, x: Split<real>, y: Split<real>, zs: seq<Tensor<real>>)
    requires Combined(f, x, y, zs) && |y.Shape()| <= |x.Shape()| && SameSizes(x.shards, x.dim, y.shards, y.dim)
    ensures Right(f, Unshard(x), Unshard(y), Unshard(Split(zs, x.dim)))
  {
    hide Zip, BroadcastShape, Unshard, Compatible;
    ZipsSound(f, x.shards, x.dim, y.shards, y.dim, zs, x.dim);
  }

  /** Operands that are cut in the same places combine if their first shards do. */
  lemma SplitsRun(f: (real, real) -> real, x: Split<real>, y: Split<real>) returns (z: AnyTensor)
    requires x.Valid() && y.Valid() && |y.Shape()| <= |x.Shape()| && SameSizes(x.shards, x.dim, y.shards, y.dim)
    requires y.dim + |x.Shape()| == x.dim + |y.Shape()| && Compatible(x.shards[0].shape, y.shards[0].shape)
    ensures ZipSplits(f, x, y) == Some(z) && z.Valid() && z.Sharded? && z.split.dim == x.dim && |z.split.shards| == |x.shards|
    ensures forall k | 0 <= k < |x.shards| :: z.split.shards[k].shape == BroadcastShape(x.shards[k].shape, y.shards[k].shape)
    ensures Right(f, Unshard(x), Unshard(y), z.Meaning())
  {
    hide Compatible, Zip, BroadcastShape, Unshard;
    forall k | 0 <= k < |x.shards| ensures Broadcasts(x.shards[k], y.shards[k]) {
      ShapesUpdated(x.shards[0].shape, y.shards[0].shape, x.dim, y.dim, x.shards[k].shape[x.dim]);
    }
    ZipsRun(f, x.shards, y.shards);
    var zs := ZipEach(f, x.shards, y.shards).value;
    ZipsSound(f, x.shards, x.dim, y.shards, y.dim, zs, x.dim);
    z := Sharded(Split(zs, x.dim));
  }

  // ---- A dimension of a single step ----

  lemma OnlyShardRight(f: (real, real) -> real, x: Split<real>, y: Split<real>, zs: seq<Tensor<real>>, j: nat)
    requires Combined(f, x, y, zs) && OnlyShard(x.shards, x.dim, j) && OnlyShard(y.shards, y.dim, j) && OnlyShard(zs, x.dim, j)
    ensures Right(f, Unshard(x), Unshard(y), Unshard(Split(zs, x.dim)))
  {
    OnlyShardWhole(x.shards, x.dim, j);
    OnlyShardWhole(y.shards, y.dim, j);
    OnlyShardWhole(zs, x.dim, j);
  }

  /** The steps of the results along the split dimension. */
  lemma ResultSizes(f: (real, real) -> real, x: Split<real>, y: Split<real>, zs: seq<Tensor<real>>)
    requires Combined(f, x, y, zs) && |y.Shape()| <= |x.Shape()|
    ensures Agree(x.Shape()[x.dim], y.Shape()[y.dim]) && DimSum(zs, x.dim) == Wider(x.Shape()[x.dim], y.Shape()[y.dim])
    ensures forall k | 0 <= k < |zs| ::
      && Agree(x.shards[k].shape[x.dim], y.shards[k].shape[y.dim])
      && zs[k].shape[x.dim] == Wider(x.shards[k].shape[x.dim], y.shards[k].shape[y.dim])
  {
    hide Agree, Wider;
    DimSizes(x.Shape(), y.Shape(), x.dim, y.dim);
    forall k | 0 <= k < |zs|
      ensures Agree(x.shards[k].shape[x.dim], y.shards[k].shape[y.dim])
      ensures zs[k].shape[x.dim] == Wider(x.shards[k].shape[x.dim], y.shards[k].shape[y.dim])
    {
      assert zs[k] == Zip(f, x.shards[k], y.shards[k]);
      DimSizes(x.shards[k].shape, y.shards[k].shape, x.dim, y.dim);
    }
  }

  lemma DimSizes(s: seq<nat>, t: seq<nat>, i: nat, j: nat)
    requires Compatible(s, t) && |t| <= |s| && i < |s| && j < |t| && i + |t| == j + |s|
    ensures Agree(s[i], t[j]) && BroadcastShape(s, t)[i] == Wider(s[i], t[j])
  {
    var rank := Max(|s|, |t|);
    assert DimAt(s, rank, i) == s[i] && DimAt(t, rank, i) == t[j];
    assert Agree(DimAt(s, rank, i), DimAt(t, rank, i));
  }

  lemma SingleStepRight(f: (real, real) -> real, x: Split<real>, y: Split<real>, zs: seq<Tensor<real>>)
    requires Combined(f, x, y, zs) && |y.Shape()| <= |x.Shape()| && (x.Shape()[x.dim] == 1 || y.Shape()[y.dim] == 1)
    ensures Right(f, Unshard(x), Unshard(y), Unshard(Split(zs, x.dim)))
  {
    hide Combined, Right, Split.Valid, Compatible;
    var j := OneNonempty(f, x, y, zs);
    OnlyShardRight(f, x, y, zs, j);
  }

  lemma OneNonempty(f: (real, real) -> real, x: Split<real>, y: Split<real>, zs: seq<Tensor<real>>) returns (j: nat)
    requires Combined(f, x, y, zs) && |y.Shape()| <= |x.Shape()| && (x.Shape()[x.dim] == 1 || y.Shape()[y.dim] == 1)
    ensures OnlyShard(x.shards, x.dim, j) && OnlyShard(y.shards, y.dim, j) && OnlyShard(zs, x.dim, j)
  {
    ResultSizes(f, x, y, zs);
    if y.Shape()[y.dim] == 1 {
      j := FollowsSingle(y.shards, y.dim, x.shards, x.dim, zs, x.dim);
    } else {
      j := FollowsSingle(x.shards, x.dim, y.shards, y.dim, zs, x.dim);
    }
  }

  /** Where one operand has its single step, the other one has all its steps. */
  lemma FollowsSingle(ts: seq<Tensor<real>>, d: nat, us: seq<Tensor<real>>, e: nat, zs: seq<Tensor<real>>, c: nat) returns (j: nat)
    requires |ts| == |us| == |zs|
    requires forall k | 0 <= k < |ts| :: d < |ts[k].shape| && e < |us[k].shape| && c < |zs[k].shape|
    requires forall k | 0 <= k < |ts| :: ts[k].shape[d] == 1 ==> zs[k].shape[c] == us[k].shape[e]
    requires forall k | 0 <= k < |ts| :: ts[k].shape[d] == 0 ==> zs[k].shape[c] == 0
    requires DimSum(ts, d) == 1 && DimSum(zs, c) == DimSum(us, e)
    ensures OnlyShard(ts, d, j) && OnlyShard(us, e, j) && OnlyShard(zs, c, j)
  {
    j := SingleStep(ts, d);
    SumOfOnly(zs, c, j);
    SumOfOnly(us, e, j);
  }

  // ---- When the result is right ----

  /** Several shards of tensors of the same size, more than a single step, that are not cut in the same places. */
  predicate Misaligned(x: Split<real>, y: Split<real>)
    requires x.Valid() && y.Valid()
  {
    && |x.shards| > 1 && |y.Shape()| <= |x.Shape()| && x.Shape()[x.dim] == y.Shape()[y.dim] != 1
    && !SameSizes(x.shards, x.dim, y.shards, y.dim)
  }

  lemma CombinedRight(f: (real, real) -> real, x: Split<real>, y: Split<real>, zs: seq<Tensor<real>>)
    requires Combined(f, x, y, zs) && !Misaligned(x, y)
    ensures Right(f, Unshard(x), Unshard(y), Unshard(Split(zs, x.dim)))
  {
    hide Right, Zip, BroadcastShape, Unshard, Compatible;
    if |x.shards| == 1 {
      OneShardRight(f, x, y, zs);
    } else if |y.Shape()| > |x.Shape()| {
      HigherRankRight(f, x, y, zs);
    } else if SameSizes(x.shards, x.dim, y.shards, y.dim) {
      SameSizesRight(f, x, y, zs);
    } else {
      ResultSizes(f, x, y, zs);
      SingleStepRight(f, x, y, zs);
    }
  }

  // ---- Operands that are made split ones ----

  /** Rounded-down shares of one operand drop steps that the result needs. */
  predicate Drops(size: nat, n: nat, other: nat)
    requires n > 0
  {
    size % n != 0 && (size == 1 ==> other != 0)
  }

  /** Then the sizes do not match, or the result has too few steps. */
  lemma DropsSteps(size: nat, n: nat, other: nat)
    requires n > 0 && Drops(size, n, other) && Agree(size, other) && Agree(Covered(size, n), other)
    ensures Wider(Covered(size, n), other) != Wider(size, other) && Wider(other, Covered(size, n)) != Wider(other, size)
  {
    var c := Covered(size, n);
    if c == 1 {
      CoversAll(size, n, c);
    }
  }

  /** The shares of an operand, if they are taken, drop steps. */
  predicate Loses(x: AnyTensor, y: AnyTensor)
    requires x.Valid() && y.Valid()
  {
    match (x, y)
    case (Sharded(s), Replicated(b, n)) =>
      !RepeatsAlong(s, b) && s.dim < |b.shape| && Drops(b.shape[s.dim], n, s.Shape()[s.dim])
    case (Replicated(a, n), Sharded(s)) => s.dim < |a.shape| && Drops(a.shape[s.dim], n, s.Shape()[s.dim])
    case _ => false
  }

  /** The operands are combined shard by shard, but they are not cut in the same places. */
  predicate Crossed(x: AnyTensor, y: AnyTensor)
    requires x.Valid() && y.Valid()
  {
    match (x, y)
    case (Sharded(s), Sharded(u)) => Misaligned(s, u)
    case (Sharded(s), Plain(b)) =>
      var u := SplitTensor(b, s.dim, |s.shards|);
      u.Some? && Misaligned(s, u.value)
    case (Sharded(s), Replicated(b, n)) =>
      var u := ReshardReplicated(b, s.dim, n);
      !RepeatsAlong(s, b) && u.Some? && Misaligned(s, u.value)
    case (Replicated(a, n), Sharded(s)) =>
      var u := ReshardReplicated(a, s.dim, n);
      u.Some? && Misaligned(u.value, s)
    case _ => false
  }

  predicate Aligned(x: AnyTensor, y: AnyTensor)
    requires x.Valid() && y.Valid()
  {
    !Loses(x, y) && !Crossed(x, y)
  }

  /** Every elementwise operation that the dispatch carries out is the operation on what its operands stand for, unless the
      operands are not cut in the same places or shares drop steps; in the latter case it never is. */
  lemma BinarySound(f: (real, real) -> real, x: AnyTensor, y: AnyTensor, z: AnyTensor, n: nat)
    requires x.Valid() && y.Valid() && x.Fits(n) && y.Fits(n) && BinaryAny(f, x, y) == Some(z)
    ensures z.Valid() && z.Fits(n)
    ensures Aligned(x, y) ==> Right(f, x.Meaning(), y.Meaning(), z.Meaning())
    ensures Loses(x, y) ==> !Right(f, x.Meaning(), y.Meaning(), z.Meaning())
  {
    hide Unshard, Zip, Compatible, ReshardReplicated, SplitTensor;
    match (x, y)
    case (Sharded(s), Sharded(u)) => SplitsRight(f, s, u, z);
    case (Sharded(s), Plain(b)) =>
      SplitThenUnshard(b, s.dim, |s.shards|);
      SplitsRight(f, s, SplitTensor(b, s.dim, |s.shards|).value, z);
    case (Sharded(s), Replicated(b, m)) =>
      if RepeatsAlong(s, b) {
        ZipsWholeSound(f, s.shards, s.dim, b, z.split.shards, z.split.dim);
      } else {
        SplitAndShares(f, s, b, m, ReshardReplicated(b, s.dim, m).value, z);
      }
    case (Replicated(a, m), Sharded(s)) => SharesAndSplit(f, a, m, ReshardReplicated(a, s.dim, m).value, s, z);
    case _ =>
  }

  lemma SplitsRight(f: (real, real) -> real, x: Split<real>, y: Split<real>, z: AnyTensor)
    requires x.Valid() && y.Valid() && ZipSplits(f, x, y) == Some(z)
    ensures z.Valid() && z.Fits(|x.shards|)
    ensures BroadcastDim(x.Shape(), y.Shape(), x.dim) == BroadcastDim(y.Shape(), x.Shape(), y.dim)
    ensures z.Meaning().shape == BroadcastShape(x.Shape(), y.Shape()) && Compatible(x.Shape(), y.Shape())
    ensures !Misaligned(x, y) ==> Right(f, Unshard(x), Unshard(y), z.Meaning())
  {
    hide Right;
    SplitsCombined(f, x, y, z);
    if !Misaligned(x, y) {
      CombinedRight(f, x, y, z.split.shards);
    }
  }

  lemma SplitAndShares(f: (real, real) -> real, x: Split<real>, y: Tensor<real>, n: nat, u: Split<real>, z: AnyTensor)
    requires x.Valid() && y.Valid() && n == |x.shards| && x.dim < |y.shape| && ReshardReplicated(y, x.dim, n) == Some(u) && u.Valid()
    requires ZipSplits(f, x, u) == Some(z) && !RepeatsAlong(x, y)
    ensures z.Valid() && z.Fits(n)
    ensures !Drops(y.shape[x.dim], n, x.Shape()[x.dim]) && !Misaligned(x, u) ==> Right(f, Unshard(x), y, z.Meaning())
    ensures Drops(y.shape[x.dim], n, x.Shape()[x.dim]) ==> !Right(f, Unshard(x), y, z.Meaning())
  {
    hide Unshard, Zip, ReshardReplicated, Compatible, BroadcastShape;
    SplitsRight(f, x, u, z);
    ReshardedShape(y, x.dim, n, u);
    if Drops(y.shape[x.dim], n, x.Shape()[x.dim]) && Compatible(x.Shape(), y.shape) {
      DimSizes(x.Shape(), y.shape, x.dim, x.dim);
      DimSizes(x.Shape(), u.Shape(), x.dim, x.dim);
      DropsSteps(y.shape[x.dim], n, x.Shape()[x.dim]);
    }
  }

  lemma SharesAndSplit(f: (real, real) -> real, x: Tensor<real>, n: nat, u: Split<real>, y: Split<real>, z: AnyTensor)
    requires x.Valid() && y.Valid() && n == |y.shards| > 0 && y.dim < |x.shape| && ReshardReplicated(x, y.dim, n) == Some(u) && u.Valid()
    requires ZipSplits(f, u, y) == Some(z)
    ensures z.Valid() && z.Fits(n)
    ensures !Drops(x.shape[y.dim], n, y.Shape()[y.dim]) && !Misaligned(u, y) ==> Right(f, x, Unshard(y), z.Meaning())
    ensures Drops(x.shape[y.dim], n, y.Shape()[y.dim]) ==> !Right(f, x, Unshard(y), z.Meaning())
  {
    hide Unshard, Right, ReshardReplicated, Compatible, BroadcastShape, ZipSplits, Misaligned, Split.Valid, AnyTensor.Fits;
    SplitsRight(f, u, y, z);
    SharesShape(x, y.dim, n, u);
    if Drops(x.shape[y.dim], n, y.Shape()[y.dim]) {
      ShapeLost(f, x, Unshard(y), y.dim, n, u.Shape(), z.Meaning());
    } else if x.shape[y.dim] % n != 0 {
      EmptyShares(f, x, y, u, z);
    }
  }

  lemma SharesShape(t: Tensor<real>, d: nat, n: nat, u: Split<real>)
    requires t.Valid() && d < |t.shape| && n > 0 && ReshardReplicated(t, d, n) == Some(u)
    ensures u.Valid() && u.dim == d && u.Shape() == t.shape[d := Covered(t.shape[d], n)]
    ensures t.shape[d] % n == 0 ==> Unshard(u) == t
  {
    ReshardedShape(t, d, n, u);
  }

  lemma ShapeLost(f: (real, real) -> real, x: Tensor<real>, y: Tensor<real>, d: nat, n: nat, shape: seq<nat>, z: Tensor<real>)
    requires d < |x.shape| == |y.shape| && n > 0 && Drops(x.shape[d], n, y.shape[d])
    requires shape == x.shape[d := Covered(x.shape[d], n)] && Compatible(shape, y.shape) && z.shape == BroadcastShape(shape, y.shape)
    ensures !Right(f, x, y, z)
  {
    hide Compatible, BroadcastShape;
    if Compatible(x.shape, y.shape) {
      DimSizes(x.shape, y.shape, d, d);
      DimSizes(shape, y.shape, d, d);
      DropsSteps(x.shape[d], n, y.shape[d]);
    }
  }

  /** A single step that meets none may be dropped. */
  lemma EmptyShares(f: (real, real) -> real, x: Tensor<real>, y: Split<real>, u: Split<real>, z: AnyTensor)
    requires x.Valid() && y.Valid() && z.Valid() && u.Valid() && |x.shape| == |y.Shape()| && u.Shape() == x.shape[y.dim := 0]
    requires x.shape[y.dim] == 1 && y.Shape()[y.dim] == 0 && Compatible(u.Shape(), y.Shape())
    requires z.Meaning().shape == BroadcastShape(u.Shape(), y.Shape())
    ensures Right(f, x, Unshard(y), z.Meaning())
  {
    hide Unshard, Zip, Compatible, BroadcastShape;
    NoStepMet(x.shape, y.Shape(), y.dim);
    EmptyTensors(z.Meaning(), Zip(f, x, Unshard(y)), y.dim);
  }

  lemma NoStepMet(s: seq<nat>, t: seq<nat>, d: nat)
    requires d < |s| == |t| && s[d] == 1 && t[d] == 0 && Compatible(s[d := 0], t)
    ensures Compatible(s, t) && BroadcastShape(s, t) == BroadcastShape(s[d := 0], t) && BroadcastShape(s, t)[d] == 0
  {
    forall k | 0 <= k < |s| ensures Agree(DimAt(s, |s|, k), DimAt(t, |s|, k)) {
      assert Agree(DimAt(s[d := 0], |s|, k), DimAt(t, |s|, k));
    }
  }
}
