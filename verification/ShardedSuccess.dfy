/** When products and elementwise operations on sharded tensors succeed. */
module ShardedSuccess {
  import opened BatchedProducts
  import opened Elementwise
  import opened Products
  import Radices
  import opened ShapePrograms
  import opened ShardedElementwise
  import opened ShardedOps
  import opened Sharding
  import opened Slices
  import opened Tensors
  import opened Wrappers

  // ---- Products ----

  predicate AllFit(ls: seq<Tensor<real>>, rs: seq<Tensor<real>>) {
    |ls| == |rs| && forall i | 0 <= i < |ls| :: CanMatmul(ls[i], rs[i])
  }

  lemma {:induction false} MatmulEachIff(ls: seq<Tensor<real>>, rs: seq<Tensor<real>>)
    requires |ls| == |rs|
    ensures MatmulEach(ls, rs).Some? <==> AllFit(ls, rs)
  {
    hide CanMatmul;
    if ls != [] {
      MatmulEachIff(ls[1..], rs[1..]);
      if AllFit(ls[1..], rs[1..]) && CanMatmul(ls[0], rs[0]) {
        forall i | 0 <= i < |ls| ensures CanMatmul(ls[i], rs[i]) {
          assert i > 0 ==> ls[i] == ls[1..][i - 1] && rs[i] == rs[1..][i - 1];
        }
      }
    }
  }

  lemma RowsSucceed(l: Split<real>, r: Tensor<real>)
    requires l.Valid() && r.Valid()
    ensures MatmulRows(l, Copies(r, |l.shards|)).Some? <==> l.dim < Last(l.Shape()) && CanMatmul(Unshard(l), r)
  {
    hide Unshard;
    var rs := Copies(r, |l.shards|);
    MatmulEachIff(l.shards, rs);
    if l.dim < Last(l.Shape()) {
      assert forall i | 0 <= i < |l.shards| :: CanMatmul(l.shards[i], rs[i]) <==> CanMatmul(Unshard(l), r);
      assert AllFit(l.shards, rs) <==> CanMatmul(l.shards[0], rs[0]) && CanMatmul(Unshard(l), r);
      if AllFit(l.shards, rs) {
        RowsValid(l.shards, l.dim, r, MatmulEach(l.shards, rs).value);
      }
    }
  }

  lemma ColumnsSucceed(l: Tensor<real>, r: Split<real>)
    requires l.Valid() && r.Valid() && |r.Shape()| == 2
    ensures MatmulColumns(l, r).Some? <==> r.dim == 1 && CanMatmul(l, Unshard(r))
  {
    hide Unshard;
    var ls := Copies(l, |r.shards|);
    MatmulEachIff(ls, r.shards);
    if r.dim == 1 {
      assert forall i | 0 <= i < |r.shards| :: CanMatmul(ls[i], r.shards[i]) <==> CanMatmul(l, Unshard(r));
      assert AllFit(ls, r.shards) <==> CanMatmul(ls[0], r.shards[0]) && CanMatmul(l, Unshard(r));
      if AllFit(ls, r.shards) {
        ColumnsValid(l, r.shards, MatmulEach(ls, r.shards).value);
      }
    }
  }

  /** Both operands are cut along the summed dimension, in the same places. */
  predicate CutAlike(l: Split<real>, r: Split<real>)
    requires l.Valid() && r.Valid()
  {
    |l.Shape()| >= 2 && l.dim == Last(l.Shape()) && r.dim == 0 && SameSizes(l.shards, l.dim, r.shards, 0)
  }

  lemma SplitsSucceed(l: Split<real>, r: Split<real>)
    requires l.Valid() && r.Valid() && |r.Shape()| == 2 && |l.shards| == |r.shards|
    ensures MatmulSplits(l, r).Some? <==> CutAlike(l, r) || (l.dim < Last(l.Shape()) && r.dim == 1 && CanMatmul(Unshard(l), Unshard(r)))
  {
    hide Unshard;
    if l.dim == Last(l.Shape()) && r.dim == 0 {
      MatmulEachIff(l.shards, r.shards);
      assert AllFit(l.shards, r.shards) <==> CutAlike(l, r) by {
        assert forall i | 0 <= i < |l.shards| :: l.shards[i].Valid() && r.shards[i].Valid();
        assert AllFit(l.shards, r.shards) ==> CanMatmul(l.shards[0], r.shards[0]);
      }
      if AllFit(l.shards, r.shards) {
        InnerValid(l.shards, r.shards, MatmulEach(l.shards, r.shards).value);
      }
    } else {
      RowsSucceed(l, Unshard(r));
    }
  }

  /** A replicated operand is cut into shares as long as the parts of the other. */
  predicate SharesAlike(a: Tensor<real>, s: Split<real>)
    requires s.Valid()
  {
    |a.shape| >= 2 && s.dim == 0
    && forall i | 0 <= i < |s.shards| :: s.shards[i].shape[0] == a.shape[Last(a.shape)] / |s.shards|
  }

  lemma SharesSucceed(a: Tensor<real>, s: Split<real>)
    requires a.Valid() && s.Valid() && |s.Shape()| == 2 && s.dim == 0
    ensures MatmulAny(Replicated(a, |s.shards|), Sharded(s)).Some? <==> SharesAlike(a, s)
  {
    hide Unshard;
    if a.shape != [] {
      var d, n := Last(a.shape), |s.shards|;
      var x := ReshardReplicated(a, d, n).value;
      ShareShapes(a, d, n);
      SharesShape(a, d, n, x);
      SplitsSucceed(x, s);
      assert CutAlike(x, s) <==> SharesAlike(a, s) by {
        assert forall i | 0 <= i < n :: x.shards[i].shape[d] == a.shape[d] / n;
      }
    }
  }

  /** When a product is carried out, for each combination of kinds. */
  predicate Multiplies(l: AnyTensor, r: AnyTensor)
    requires l.Valid() && r.Valid() && |r.Meaning().shape| == 2
  {
    match (l, r)
    case (Plain(a), Plain(b)) => CanMatmul(a, b)
    case (Plain(a), Sharded(s)) => s.dim == 1 && CanMatmul(a, r.Meaning())
    case (Sharded(s), Plain(b)) => s.dim < Last(s.Shape()) && CanMatmul(l.Meaning(), b)
    case (Sharded(s), Replicated(b, _)) => s.dim < Last(s.Shape()) && CanMatmul(l.Meaning(), b)
    case (Sharded(s), Sharded(u)) => CutAlike(s, u) || (s.dim < Last(s.Shape()) && u.dim == 1 && CanMatmul(l.Meaning(), r.Meaning()))
    case (Replicated(a, _), Sharded(s)) => if s.dim == 1 then CanMatmul(a, r.Meaning()) else SharesAlike(a, s)
    case _ => false
  }

  lemma MatmulSucceeds(l: AnyTensor, r: AnyTensor, n: nat)
    requires l.Valid() && r.Valid() && l.Fits(n) && r.Fits(n) && |r.Meaning().shape| == 2
    ensures MatmulAny(l, r).Some? <==> Multiplies(l, r)
  {
    hide Unshard, CanMatmul, MatmulRows, MatmulColumns, MatmulSplits;
    match (l, r)
    case (Plain(a), Sharded(s)) => ColumnsSucceed(a, s);
    case (Sharded(s), Plain(b)) => RowsSucceed(s, b);
    case (Sharded(s), Replicated(b, _)) => RowsSucceed(s, b);
    case (Sharded(s), Sharded(u)) => SplitsSucceed(s, u);
    case (Replicated(a, _), Sharded(s)) =>
      if s.dim == 1 {
        ColumnsSucceed(a, s);
        NoRows(a, s);
      } else {
        SharesSucceed(a, s);
      }
    case _ =>
  }

  lemma NoRows(a: Tensor<real>, s: Split<real>)
    requires a.Valid() && s.Valid() && |s.Shape()| == 2
    ensures a.shape == [] ==> !CanMatmul(a, Unshard(s))
  {
    hide Unshard;
  }

  // ---- Elementwise operations ----

  predicate EvenSplit(x: Split<real>)
    requires x.Valid()
  {
    forall i | 0 <= i < |x.shards| :: x.shards[i].shape[x.dim] == x.Shape()[x.dim] / |x.shards|
  }

  lemma EvenDivides(x: Split<real>)
    requires x.Valid() && EvenSplit(x)
    ensures x.Shape()[x.dim] % |x.shards| == 0
  {
    hide Unshard;
    var n := x.Shape()[x.dim] / |x.shards|;
    SumOfEqual(x.shards, x.dim, n);
    Radices.RadixDigits(n, 0, |x.shards|);
  }

  /** Both operands are split in the same places of the shape that they have in common. */
  predicate SplitAlike(x: Split<real>, y: Split<real>)
    requires x.Valid() && y.Valid()
  {
    && |y.Shape()| <= |x.Shape()| && y.dim + |x.Shape()| == x.dim + |y.Shape()|
    && SameSizes(x.shards, x.dim, y.shards, y.dim)
  }

  lemma SplitsCombine(f: (real, real) -> real, x: Split<real>, y: Split<real>)
    requires x.Valid() && y.Valid() && SplitAlike(x, y) && Compatible(x.Shape(), y.Shape())
    ensures ZipSplits(f, x, y).Some?
  {
    hide Unshard, ZipSplits, Compatible;
    assert x.shards[0].shape == x.Shape()[x.dim := x.shards[0].shape[x.dim]];
    assert y.shards[0].shape == y.Shape()[y.dim := y.shards[0].shape[y.dim]];
    ShapesUpdated(x.Shape(), y.Shape(), x.dim, y.dim, x.shards[0].shape[x.dim]);
    var z := SplitsRun(f, x, y);
  }

  /** The share of an operand that has the dimension in full is cut as evenly split shards are. */
  lemma SharesAreAlike(x: Split<real>, t: Tensor<real>, u: Split<real>)
    requires x.Valid() && t.Valid() && |t.shape| == |x.Shape()| && t.shape[x.dim] == x.Shape()[x.dim] && EvenSplit(x)
    requires ReshardReplicated(t, x.dim, |x.shards|) == Some(u)
    ensures u.Valid() && Unshard(u) == t && u.Shape() == t.shape && SplitAlike(x, u) && SplitAlike(u, x)
  {
    hide Unshard;
    EvenDivides(x);
    ShareShapes(t, x.dim, |x.shards|);
    SharesShape(t, x.dim, |x.shards|, u);
  }

  lemma CopiesCombine(f: (real, real) -> real, x: Split<real>, y: Tensor<real>)
    requires x.Valid() && RepeatsAlong(x, y) && Broadcasts(Unshard(x), y)
    ensures AsSplit(ZipEach(f, x.shards, Copies(y, |x.shards|)), BroadcastDim(x.Shape(), y.shape, x.dim)).Some?
  {
    hide Unshard, Compatible, Whole, Zip, BroadcastShape;
    var ys := Copies(y, |x.shards|);
    forall i | 0 <= i < |x.shards| ensures Broadcasts(x.shards[i], ys[i]) {
      assert x.shards[i].shape == x.Shape()[x.dim := x.shards[i].shape[x.dim]];
      ShapeUpdated(x.Shape(), y.shape, x.dim, x.shards[i].shape[x.dim]);
    }
    ZipsRun(f, x.shards, ys);
    WholeValid(f, x.shards, x.dim, y, ZipEach(f, x.shards, ys).value, BroadcastDim(x.Shape(), y.shape, x.dim));
  }

  /** Operands that are cut alike, or of which one can be brought to the parts of the other. */
  predicate Combinable(x: AnyTensor, y: AnyTensor)
    requires x.Valid() && y.Valid()
  {
    match (x, y)
    case (Sharded(s), Sharded(u)) => SplitAlike(s, u)
    case (Sharded(s), Plain(b)) =>
      var u := SplitTensor(b, s.dim, |s.shards|);
      u.Some? && |b.shape| == |s.Shape()| && SameSizes(s.shards, s.dim, u.value.shards, s.dim)
    case (Sharded(s), Replicated(b, _)) =>
      b.shape != [] && (RepeatsAlong(s, b) || (|b.shape| == |s.Shape()| && b.shape[s.dim] == s.Shape()[s.dim] && EvenSplit(s)))
    case (Replicated(a, _), Sharded(s)) => |a.shape| == |s.Shape()| && a.shape[s.dim] == s.Shape()[s.dim] && EvenSplit(s)
    case (Plain(_), Plain(_)) => true
    case (Plain(_), Replicated(_, _)) => true
    case (Replicated(_, _), Plain(_)) => true
    case (Replicated(_, _), Replicated(_, _)) => true
    case (Replicated(_, _), Unreduced(_)) => true
    case _ => false
  }

  /** Operands that can be combined as wholes, and are cut alike or can be, are combined. */
  lemma BinarySucceeds(f: (real, real) -> real, x: AnyTensor, y: AnyTensor, n: nat)
    requires x.Valid() && y.Valid() && x.Fits(n) && y.Fits(n)
    requires Broadcasts(x.Meaning(), y.Meaning()) && Combinable(x, y)
    ensures BinaryAny(f, x, y).Some?
  {
    hide Unshard, Compatible, ZipSplits, SplitTensor, ReshardReplicated, RepeatsAlong;
    match (x, y)
    case (Sharded(s), Sharded(u)) => SplitsCombine(f, s, u);
    case (Sharded(s), Plain(b)) =>
      SplitThenUnshard(b, s.dim, |s.shards|);
      SplitsCombine(f, s, SplitTensor(b, s.dim, |s.shards|).value);
    case (Sharded(s), Replicated(b, _)) =>
      if RepeatsAlong(s, b) {
        CopiesCombine(f, s, b);
      } else {
        SharesExist(b, s.dim, |s.shards|);
        SharesAreAlike(s, b, ReshardReplicated(b, s.dim, |s.shards|).value);
        SplitsCombine(f, s, ReshardReplicated(b, s.dim, |s.shards|).value);
      }
    case (Replicated(a, _), Sharded(s)) =>
      SharesExist(a, s.dim, |s.shards|);
      SharesAreAlike(s, a, ReshardReplicated(a, s.dim, |s.shards|).value);
      SplitsCombine(f, ReshardReplicated(a, s.dim, |s.shards|).value, s);
    case _ =>
  }

  lemma SharesExist(t: Tensor<real>, d: nat, n: nat)
    requires t.Valid() && d < |t.shape| && n > 0
    ensures ReshardReplicated(t, d, n).Some?
  {
  }

  // ---- Batched products ----

  /** Tensors whose batches are cut in the same places are multiplied if they can be as wholes. */
  lemma BatchesSucceed(l: Split<real>, r: Split<real>)
    requires l.Valid() && r.Valid() && |l.Shape()| == |r.Shape()| > 2 && l.dim == r.dim && l.dim + 2 < |l.Shape()|
    requires SameSizes(l.shards, l.dim, r.shards, r.dim) && CanBatch(l.Shape(), r.Shape())
    ensures BatchSplits(l, r).Some?
  {
    hide Unshard, CanBatch, BatchMatmul, BatchShape;
    SameSums(l.shards, l.dim, r.shards, r.dim);
    forall i | 0 <= i < |l.shards| ensures CanBatchMatmul(l.shards[i], r.shards[i]) {
      assert l.shards[i].shape == l.Shape()[l.dim := l.shards[i].shape[l.dim]];
      assert r.shards[i].shape == r.Shape()[r.dim := r.shards[i].shape[r.dim]];
      BatchUpdated(l.Shape(), r.Shape(), l.dim, l.shards[i].shape[l.dim]);
    }
    BatchesRun(l.shards, r.shards);
    BatchesValid(l.shards, r.shards, l.dim, BatchEach(l.shards, r.shards).value);
  }
}
