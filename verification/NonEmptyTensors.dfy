/** Sharded tensors without empty dimensions: the operations on them give such tensors. */
module NonEmptyTensors {
  import opened Alignment
  import opened Elementwise
  import opened Products
  import opened ShardedElementwise
  import opened ShardedOps
  import opened Sharding
  import opened Slices
  import opened Tensors
  import opened Wrappers

  predicate AllPositive(ts: seq<Tensor<real>>) {
    forall i | 0 <= i < |ts| :: Positive(ts[i].shape)
  }

  /** No shard has an empty dimension. */
  predicate PositiveAny(x: AnyTensor) {
    match x
    case Plain(t) => Positive(t.shape)
    case Replicated(t, _) => Positive(t.shape)
    case Sharded(s) => AllPositive(s.shards)
    case Unreduced(ts) => AllPositive(ts)
  }

  lemma PositiveIsNonEmpty(x: AnyTensor)
    requires x.Valid() && PositiveAny(x)
    ensures NonEmpty(x) && Positive(x.Meaning().shape)
  {
    hide Unshard;
    if x.Sharded? {
      assert Positive(x.split.shards[0].shape);
      forall i | 0 <= i < |x.split.shards| ensures x.split.shards[i].shape[x.split.dim] > 0 {
        assert Positive(x.split.shards[i].shape);
      }
      SomeSteps(x.split);
    } else if x.Unreduced? {
      assert Positive(x.parts[0].shape);
    }
  }

  // ---- Products ----

  lemma ProductPositive(a: Tensor<real>, b: Tensor<real>)
    requires CanMatmul(a, b) && Positive(b.shape) && forall k | 0 <= k < Last(a.shape) :: a.shape[k] > 0
    ensures Positive(Matmul(a, b).shape)
  {
  }

  predicate RowsPositive(ls: seq<Tensor<real>>) {
    forall i, k | 0 <= i < |ls| && 0 <= k < |ls[i].shape| - 1 :: ls[i].shape[k] > 0
  }

  lemma ProductsPositive(ls: seq<Tensor<real>>, rs: seq<Tensor<real>>)
    requires RowsPositive(ls) && AllPositive(rs) && MatmulEach(ls, rs).Some?
    ensures AllPositive(MatmulEach(ls, rs).value)
  {
    var ps := MatmulEach(ls, rs).value;
    forall i | 0 <= i < |ps| ensures Positive(ps[i].shape) {
      ProductPositive(ls[i], rs[i]);
    }
  }

  lemma PositiveRows(ts: seq<Tensor<real>>)
    requires AllPositive(ts)
    ensures RowsPositive(ts)
  {
    forall i, k | 0 <= i < |ts| && 0 <= k < |ts[i].shape| - 1 ensures ts[i].shape[k] > 0 {
      assert Positive(ts[i].shape);
    }
  }

  lemma SharesRowsPositive(t: Tensor<real>, n: nat)
    requires t.Valid() && t.shape != [] && n > 0 && Positive(t.shape)
    ensures ReshardReplicated(t, Last(t.shape), n).Some? && RowsPositive(ReshardReplicated(t, Last(t.shape), n).value.shards)
  {
    ShareShapes(t, Last(t.shape), n);
  }

  lemma SplitsPositive(l: Split<real>, r: Split<real>, y: AnyTensor)
    requires l.Valid() && r.Valid() && |r.shards[0].shape| == 2 && MatmulSplits(l, r) == Some(y)
    requires RowsPositive(l.shards) && AllPositive(r.shards)
    ensures PositiveAny(y)
  {
    hide Unshard;
    if l.dim == Last(l.shards[0].shape) && r.dim == 0 {
      ProductsPositive(l.shards, r.shards);
    } else {
      PositiveIsNonEmpty(Sharded(r));
      ProductsPositive(l.shards, Copies(Unshard(r), |l.shards|));
    }
  }

  lemma MatmulPositive(l: AnyTensor, r: AnyTensor, y: AnyTensor)
    requires l.Valid() && r.Valid() && |r.Meaning().shape| == 2 && MatmulAny(l, r) == Some(y) && PositiveAny(l) && PositiveAny(r)
    ensures PositiveAny(y)
  {
    hide Unshard, MatmulSplits, ReshardReplicated, RowsPositive;
    match (l, r)
    case (Plain(a), Plain(b)) => ProductPositive(a, b);
    case (Plain(a), Sharded(s)) => ColumnsPositive(a, s, y);
    case (Sharded(s), Plain(b)) => RowProductsPositive(s, b, |s.shards|, y);
    case (Sharded(s), Replicated(b, n)) => RowProductsPositive(s, b, n, y);
    case (Sharded(s), Sharded(u)) =>
      PositiveRows(s.shards);
      SplitsPositive(s, u, y);
    case (Replicated(a, n), Sharded(s)) =>
      if s.dim == 1 {
        ColumnsPositive(a, s, y);
      } else {
        SharesRowsPositive(a, n);
        SplitsPositive(ReshardReplicated(a, Last(a.shape), n).value, s, y);
      }
    case _ =>
  }

  lemma ColumnsPositive(a: Tensor<real>, s: Split<real>, y: AnyTensor)
    requires s.Valid() && MatmulColumns(a, s) == Some(y) && Positive(a.shape) && AllPositive(s.shards)
    ensures PositiveAny(y)
  {
    PositiveRows(Copies(a, |s.shards|));
    ProductsPositive(Copies(a, |s.shards|), s.shards);
  }

  lemma RowProductsPositive(s: Split<real>, b: Tensor<real>, n: nat, y: AnyTensor)
    requires s.Valid() && MatmulRows(s, Copies(b, n)) == Some(y) && AllPositive(s.shards) && Positive(b.shape)
    ensures PositiveAny(y)
  {
    PositiveRows(s.shards);
    ProductsPositive(s.shards, Copies(b, n));
  }

  // ---- Elementwise operations ----

  lemma ZipPositive(s: seq<nat>, t: seq<nat>)
    requires Positive(s) && Positive(t)
    ensures Positive(BroadcastShape(s, t))
  {
    forall c | 0 <= c < Max(|s|, |t|) ensures BroadcastShape(s, t)[c] > 0 {
      PositiveBroadcast(s, t, c);
    }
  }

  lemma ZipsPositive(f: (real, real) -> real, xs: seq<Tensor<real>>, ys: seq<Tensor<real>>)
    requires AllPositive(xs) && AllPositive(ys) && ZipEach(f, xs, ys).Some?
    ensures AllPositive(ZipEach(f, xs, ys).value)
  {
    var zs := ZipEach(f, xs, ys).value;
    forall i | 0 <= i < |zs| ensures Positive(zs[i].shape) {
      ZipPositive(xs[i].shape, ys[i].shape);
    }
  }

  lemma PiecesPositive(t: Tensor<real>, d: nat, n: nat, u: Split<real>)
    requires t.Valid() && SplitTensor(t, d, n) == Some(u) && Positive(t.shape)
    ensures AllPositive(u.shards)
  {
    PiecesNonEmpty(t, d, n, u);
    SplitParts(t, d, n);
  }

  lemma SharesPositive(t: Tensor<real>, d: nat, n: nat, u: Split<real>)
    requires t.Valid() && d < |t.shape| && n > 0 && ReshardReplicated(t, d, n) == Some(u) && Positive(t.shape) && t.shape[d] % n == 0
    ensures AllPositive(u.shards)
  {
    ShareShapes(t, d, n);
    assert t.shape[d] / n > 0;
  }

  lemma ZipSplitsPositive(f: (real, real) -> real, x: Split<real>, y: Split<real>, z: AnyTensor)
    requires x.Valid() && y.Valid() && ZipSplits(f, x, y) == Some(z) && AllPositive(x.shards) && AllPositive(y.shards)
    ensures PositiveAny(z)
  {
    hide Compatible, Unshard, BroadcastShape;
    ZipsPositive(f, x.shards, y.shards);
  }

  lemma NothingDropped(x: Split<real>, y: Tensor<real>, n: nat, u: Split<real>)
    requires x.Valid() && y.Valid() && x.dim < |y.shape| && n > 0 && ReshardReplicated(y, x.dim, n) == Some(u)
    requires AllPositive(x.shards) && Positive(y.shape) && !Drops(y.shape[x.dim], n, x.Shape()[x.dim])
    ensures AllPositive(u.shards)
  {
    hide Unshard, ReshardReplicated;
    PositiveIsNonEmpty(Sharded(x));
    SharesPositive(y, x.dim, n, u);
  }

  lemma BinaryPositive(f: (real, real) -> real, x: AnyTensor, y: AnyTensor, z: AnyTensor)
    requires x.Valid() && y.Valid() && BinaryAny(f, x, y) == Some(z) && PositiveAny(x) && PositiveAny(y) && !Loses(x, y)
    ensures PositiveAny(z)
  {
    hide Unshard, ReshardReplicated, SplitTensor, ZipSplits, AllPositive, Positive, Drops;
    match (x, y)
    case (Sharded(s), Sharded(u)) => ZipSplitsPositive(f, s, u, z);
    case (Sharded(s), Plain(b)) =>
      SplitThenUnshard(b, s.dim, |s.shards|);
      PiecesPositive(b, s.dim, |s.shards|, SplitTensor(b, s.dim, |s.shards|).value);
      ZipSplitsPositive(f, s, SplitTensor(b, s.dim, |s.shards|).value, z);
    case (Sharded(s), Replicated(b, m)) =>
      if RepeatsAlong(s, b) {
        CopiesPositive(b, m);
        ZipsPositive(f, s.shards, Copies(b, m));
      } else {
        NothingDropped(s, b, m, ReshardReplicated(b, s.dim, m).value);
        ZipSplitsPositive(f, s, ReshardReplicated(b, s.dim, m).value, z);
      }
    case (Replicated(a, m), Sharded(s)) =>
      NothingDropped(s, a, m, ReshardReplicated(a, s.dim, m).value);
      ZipSplitsPositive(f, ReshardReplicated(a, s.dim, m).value, s, z);
    case (Plain(a), Plain(b)) => ZipPositive(a.shape, b.shape);
    case (Plain(a), Replicated(b, _)) => ZipPositive(a.shape, b.shape);
    case (Replicated(a, _), Plain(b)) => ZipPositive(a.shape, b.shape);
    case (Replicated(a, _), Replicated(b, _)) => ZipPositive(a.shape, b.shape);
    case (Replicated(a, _), Unreduced(_)) =>
      PositiveIsNonEmpty(y);
      ZipPositive(a.shape, y.Meaning().shape);
    case _ =>
  }

  lemma CopiesPositive(t: Tensor<real>, n: nat)
    requires Positive(t.shape)
    ensures AllPositive(Copies(t, n))
  {
  }

  lemma UnaryPositive(f: real -> real, x: AnyTensor, y: AnyTensor)
    requires x.Valid() && UnaryAny(f, x) == Some(y) && PositiveAny(x)
    ensures PositiveAny(y)
  {
  }
}
