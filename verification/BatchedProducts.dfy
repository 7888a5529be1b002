/** Batched matrix products of tensors that are split along the same dimension. */
module BatchedProducts {
  import opened Alignment
  import opened DenseValues
  import opened Elementwise
  import opened NonEmptyTensors
  import opened ShardedElementwise
  import opened ShardedOps
  import opened Sharding
  import opened Slices
  import opened Sums
  import opened Tensors
  import opened Wrappers

  /** The dimensions before those of the matrices. */
  function Batch(s: seq<nat>): seq<nat>
    requires |s| >= 2
  {
    s[..|s| - 2]
  }

  /** Matrices in the last two dimensions; the dimensions before them are broadcast. */
  predicate CanBatch(s: seq<nat>, t: seq<nat>) {
    |s| == |t| >= 2 && s[|s| - 1] == t[|s| - 2] && Compatible(Batch(s), Batch(t))
  }

  function BatchShape(s: seq<nat>, t: seq<nat>): (r: seq<nat>)
    requires CanBatch(s, t)
    ensures |r| == |s|
  {
    BroadcastShape(Batch(s), Batch(t)) + [s[|s| - 2], t[|s| - 1]]
  }

  /** Term `k` of the product at `idx`: row element times column element. */
  function BatchTerm(a: Tensor<real>, b: Tensor<real>, idx: seq<nat>, k: nat): real
    requires |idx| >= 2
  {
    Pick(a, idx[|idx| - 1 := k]) * Pick(b, idx[|idx| - 2 := k])
  }

  function BatchTerms(a: Tensor<real>, b: Tensor<real>, idx: seq<nat>): nat -> real
    requires |idx| >= 2
  {
    (k: nat) => BatchTerm(a, b, idx, k)
  }

  function BatchDot(a: Tensor<real>, b: Tensor<real>, n: nat, idx: seq<nat>): real {
    if |idx| >= 2 then Sum(n, BatchTerms(a, b, idx)) else 0.0
  }

  function BatchMatmul(a: Tensor<real>, b: Tensor<real>): (t: Tensor<real>)
    requires a.Valid() && b.Valid() && CanBatch(a.shape, b.shape)
    ensures t.Valid() && t.shape == BatchShape(a.shape, b.shape)
    ensures forall idx | InBounds(idx, t.shape) :: At(t, idx) == BatchDot(a, b, a.shape[|a.shape| - 1], idx)
  {
    Build(BatchShape(a.shape, b.shape), idx => BatchDot(a, b, a.shape[|a.shape| - 1], idx))
  }

  /** What an operand with matrices in the last two dimensions contributes at an index. */
  lemma MatrixPick(t: Tensor<real>, batch: seq<nat>, idx: seq<nat>)
    requires t.Valid() && |t.shape| == |idx| >= 2 && Stretches(Batch(t.shape), batch) && InBounds(idx[..|idx| - 2], batch)
    requires idx[|idx| - 2] < t.shape[|idx| - 2] && idx[|idx| - 1] < t.shape[|idx| - 1]
    ensures var i := Low(Batch(t.shape), idx[..|idx| - 2]) + [idx[|idx| - 2], idx[|idx| - 1]];
      InBounds(i, t.shape) && Pick(t, idx) == At(t, i)
  {
    LowBounds(Batch(t.shape), batch, idx[..|idx| - 2]);
    assert Low(t.shape, idx) == Low(Batch(t.shape), idx[..|idx| - 2]) + [idx[|idx| - 2], idx[|idx| - 1]];
  }

  /** The elements that a term multiplies. */
  lemma TermMeans(a: Tensor<real>, b: Tensor<real>, idx: seq<nat>, k: nat)
    requires a.Valid() && b.Valid() && CanBatch(a.shape, b.shape) && InBounds(idx, BatchShape(a.shape, b.shape))
    requires k < a.shape[|a.shape| - 1]
    ensures var i, j := Low(Batch(a.shape), idx[..|idx| - 2]) + [idx[|idx| - 2], k], Low(Batch(b.shape), idx[..|idx| - 2]) + [k, idx[|idx| - 1]];
      InBounds(i, a.shape) && InBounds(j, b.shape) && BatchTerm(a, b, idx, k) == At(a, i) * At(b, j)
  {
    hide At, Pick, Compatible, Stretches;
    BothStretch(Batch(a.shape), Batch(b.shape));
    var batch := BroadcastShape(Batch(a.shape), Batch(b.shape));
    assert InBounds(idx[..|idx| - 2], batch);
    var i, j := idx[|idx| - 1 := k], idx[|idx| - 2 := k];
    assert i[..|idx| - 2] == idx[..|idx| - 2] == j[..|idx| - 2];
    MatrixPick(a, batch, i);
    MatrixPick(b, batch, j);
  }

  /** An element of a batched product: the row of one matrix times the column of the other, of the matrices that the batch index
      selects; a batch dimension of a single step is repeated. */
  lemma BatchElement(a: Tensor<real>, b: Tensor<real>, idx: seq<nat>)
    requires a.Valid() && b.Valid() && CanBatch(a.shape, b.shape) && InBounds(idx, BatchShape(a.shape, b.shape))
    ensures var r := |idx|;
      At(BatchMatmul(a, b), idx) == Sum(a.shape[r - 1], (k: nat) =>
        Value(a, Low(a.shape[..r - 2], idx[..r - 2]) + [idx[r - 2], k]) * Value(b, Low(b.shape[..r - 2], idx[..r - 2]) + [k, idx[r - 1]]))
  {
    hide At, Compatible, BatchTerm;
    var r := |idx|;
    var f := (k: nat) =>
        Value(a, Low(a.shape[..r - 2], idx[..r - 2]) + [idx[r - 2], k]) * Value(b, Low(b.shape[..r - 2], idx[..r - 2]) + [k, idx[r - 1]]);
    forall k: nat | k < a.shape[r - 1] ensures BatchTerms(a, b, idx)(k) == f(k) {
      TermMeans(a, b, idx, k);
      ValueAt(a, Low(Batch(a.shape), idx[..r - 2]) + [idx[r - 2], k]);
      ValueAt(b, Low(Batch(b.shape), idx[..r - 2]) + [k, idx[r - 1]]);
    }
    SumSame(a.shape[r - 1], BatchTerms(a, b, idx), f);
  }

  // ---- Cutting a batch dimension ----

  lemma BatchUpdated(s: seq<nat>, t: seq<nat>, d: nat, n: nat)
    requires CanBatch(s, t) && d < |s| - 2 && t[d] == s[d]
    ensures var r := BatchShape(s, t);
      && r[d] == s[d]
      && CanBatch(s[d := n], t[d := n]) && BatchShape(s[d := n], t[d := n]) == r[d := n]
      && CanBatch(s[d := s[d] + n], t[d := s[d] + n]) && BatchShape(s[d := s[d] + n], t[d := s[d] + n]) == r[d := s[d] + n]
  {
    hide Compatible, BroadcastShape;
    CutShapes(Batch(s), Batch(t), d, d, n);
    assert Batch(s[d := n]) == Batch(s)[d := n] && Batch(t[d := n]) == Batch(t)[d := n];
    assert Batch(s[d := s[d] + n]) == Batch(s)[d := s[d] + n] && Batch(t[d := s[d] + n]) == Batch(t)[d := s[d] + n];
  }

  lemma BatchStretches(s: seq<nat>, t: seq<nat>)
    requires CanBatch(s, t)
    ensures Stretches(s, BatchShape(s, t)[|s| - 1 := s[|s| - 1]]) && Stretches(t, BatchShape(s, t)[|t| - 2 := t[|t| - 2]])
  {
    BothStretch(Batch(s), Batch(t));
    var r, batch := BatchShape(s, t), BroadcastShape(Batch(s), Batch(t));
    forall c | 0 <= c < |s| - 2
      ensures s[c] == 1 || s[c] == r[c]
      ensures t[c] == 1 || t[c] == r[c]
    {
      assert DimAt(Batch(s), |batch|, c) == s[c] && DimAt(Batch(t), |batch|, c) == t[c];
    }
  }

  /** A term of the product of concatenations is a term of the product of their parts. */
  lemma TermOfJoins(a: Tensor<real>, a': Tensor<real>, b: Tensor<real>, b': Tensor<real>, c: Tensor<real>, e: Tensor<real>,
                    d: nat, m: nat, r: seq<nat>, n: nat, idx: seq<nat>, k: nat)
    requires InBounds(idx, r) && d + 2 < |r| && k < n
    requires Follows(c, a, a', r[|r| - 1 := n], d, m) && Follows(e, b, b', r[|r| - 2 := n], d, m)
    ensures BatchTerm(c, e, idx, k) == if idx[d] < m then BatchTerm(a, b, idx, k) else BatchTerm(a', b', idx[d := idx[d] - m], k)
  {
    hide Pick;
    var i, j := idx[|idx| - 1 := k], idx[|idx| - 2 := k];
    assert InBounds(i, r[|r| - 1 := n]) && InBounds(j, r[|r| - 2 := n]);
    assert Pick(c, i) == PickPart(a, a', d, m, i) && Pick(e, j) == PickPart(b, b', d, m, j);
    if idx[d] >= m {
      var idx' := idx[d := idx[d] - m];
      assert i[d := i[d] - m] == idx'[|idx| - 1 := k] && j[d := j[d] - m] == idx'[|idx| - 2 := k];
    }
  }

  lemma DotOfJoins(a: Tensor<real>, a': Tensor<real>, b: Tensor<real>, b': Tensor<real>, c: Tensor<real>, e: Tensor<real>,
                   d: nat, m: nat, r: seq<nat>, n: nat, idx: seq<nat>)
    requires InBounds(idx, r) && d + 2 < |r|
    requires Follows(c, a, a', r[|r| - 1 := n], d, m) && Follows(e, b, b', r[|r| - 2 := n], d, m)
    ensures BatchDot(c, e, n, idx) == if idx[d] < m then BatchDot(a, b, n, idx) else BatchDot(a', b', n, idx[d := idx[d] - m])
  {
    hide BatchTerm, Follows;
    var part := if idx[d] < m then BatchTerms(a, b, idx) else BatchTerms(a', b', idx[d := idx[d] - m]);
    forall k: nat | k < n ensures BatchTerms(c, e, idx)(k) == part(k) {
      TermOfJoins(a, a', b, b', c, e, d, m, r, n, idx, k);
    }
    SumSame(n, BatchTerms(c, e, idx), part);
  }

  ghost predicate IsBatchProduct(p: Tensor<real>, a: Tensor<real>, b: Tensor<real>) {
    && a.Valid() && b.Valid() && CanBatch(a.shape, b.shape) && p.Valid() && p.shape == BatchShape(a.shape, b.shape)
    && forall idx | InBounds(idx, p.shape) :: At(p, idx) == BatchDot(a, b, a.shape[|a.shape| - 1], idx)
  }

  lemma BatchJoins(a: Tensor<real>, a': Tensor<real>, b: Tensor<real>, b': Tensor<real>, c: Tensor<real>, e: Tensor<real>, d: nat,
                   p: Tensor<real>, p': Tensor<real>, q: Tensor<real>)
    requires IsBatchProduct(p, a, b) && IsBatchProduct(p', a', b') && IsBatchProduct(q, c, e) && d < |a.shape| - 2
    requires Joinable(a, a', d) && Joinable(p, p', d) && q.shape == JoinedShape(p, p', d) && p.shape[d] == a.shape[d]
    requires c.shape[|c.shape| - 1] == a.shape[|a.shape| - 1] && |c.shape| == |a.shape|
    requires Follows(c, a, a', q.shape[|q.shape| - 1 := a.shape[|a.shape| - 1]], d, a.shape[d])
    requires Follows(e, b, b', q.shape[|q.shape| - 2 := a.shape[|a.shape| - 1]], d, a.shape[d])
    ensures Joins(q, p, p', d)
  {
    hide At, BatchDot, Follows, Compatible;
    var m, n := a.shape[d], a.shape[|a.shape| - 1];
    forall idx | InBounds(idx, q.shape) ensures At(q, idx) == JoinedAt(p, p', d, idx) {
      JoinedBounds(p, p', d, idx);
      DotOfJoins(a, a', b, b', c, e, d, m, q.shape, n, idx);
    }
  }

  /** Batches can be multiplied separately. */
  lemma BatchOfJoins(a: Tensor<real>, a': Tensor<real>, b: Tensor<real>, b': Tensor<real>, d: nat)
    requires Joinable(a, a', d) && Joinable(b, b', d) && CanBatch(a.shape, b.shape) && d < |a.shape| - 2
    requires b.shape[d] == a.shape[d] && b'.shape[d] == a'.shape[d]
    ensures CanBatch(a'.shape, b'.shape) && CanBatch(Join(a, a', d).shape, Join(b, b', d).shape)
    ensures Joinable(BatchMatmul(a, b), BatchMatmul(a', b'), d)
    ensures BatchMatmul(Join(a, a', d), Join(b, b', d)) == Join(BatchMatmul(a, b), BatchMatmul(a', b'), d)
  {
    hide At, BatchDot, Follows, Compatible, BatchShape, Join, Stretches, BatchMatmul, Prod, Batch;
    BatchUpdated(a.shape, b.shape, d, a'.shape[d]);
    var c, e := Join(a, a', d), Join(b, b', d);
    var p, p', q := BatchMatmul(a, b), BatchMatmul(a', b'), BatchMatmul(c, e);
    var last := |a.shape| - 1;
    BatchStretches(c.shape, e.shape);
    JoinFollows(a, a', d, q.shape[last := a.shape[last]], d);
    JoinFollows(b, b', d, q.shape[last - 1 := b.shape[last - 1]], d);
    BatchJoins(a, a', b, b', c, e, d, p, p', q);
    JoinsIsJoin(q, p, p', d);
  }

  // ---- Split operands ----

  predicate CanBatchMatmul(a: Tensor<real>, b: Tensor<real>) {
    a.Valid() && b.Valid() && CanBatch(a.shape, b.shape)
  }

  /** Multiplies shards in pairs. */
  function BatchEach(ls: seq<Tensor<real>>, rs: seq<Tensor<real>>): (ps: Option<seq<Tensor<real>>>)
    requires |ls| == |rs|
    ensures ps.Some? ==> BatchProducts(ls, rs, ps.value)
  {
    if ls == [] then Some([])
    else if !CanBatchMatmul(ls[0], rs[0]) then None
    else
      match BatchEach(ls[1..], rs[1..])
      case None => None
      case Some(rest) => Some([BatchMatmul(ls[0], rs[0])] + rest)
  }

  predicate BatchProducts(ls: seq<Tensor<real>>, rs: seq<Tensor<real>>, ps: seq<Tensor<real>>) {
    |ps| == |ls| == |rs| && forall k | 0 <= k < |ls| :: CanBatchMatmul(ls[k], rs[k]) && ps[k] == BatchMatmul(ls[k], rs[k])
  }

  /** `matmul` of split tensors of the same rank, more than two, with the same split dimension. */
  function BatchSplits(l: Split<real>, r: Split<real>): (y: Option<AnyTensor>)
    requires l.Valid() && r.Valid() && |l.Shape()| == |r.Shape()| > 2 && l.dim == r.dim
    ensures y.Some? ==> y.value.Valid()
  {
    if |l.shards| != |r.shards| then None else AsSplit(BatchEach(l.shards, r.shards), l.dim)
  }

  lemma BatchesValid(ls: seq<Tensor<real>>, rs: seq<Tensor<real>>, d: nat, ps: seq<Tensor<real>>)
    requires Split(ls, d).Valid() && Split(rs, d).Valid() && d < |ls[0].shape| - 2 && |rs[0].shape| == |ls[0].shape|
    requires BatchProducts(ls, rs, ps) && SameSizes(ls, d, rs, d)
    ensures Split(ps, d).Valid() && ps[0] == BatchMatmul(ls[0], rs[0]) && BatchProducts(ls[1..], rs[1..], ps[1..])
  {
    hide CanBatch, BatchShape, BatchMatmul;
    forall k | 0 <= k < |ps| ensures ps[k].Valid() && ps[k].shape == ps[0].shape[d := ls[k].shape[d]] {
      assert CanBatchMatmul(ls[0], rs[0]) && ps[0] == BatchMatmul(ls[0], rs[0]);
      assert CanBatchMatmul(ls[k], rs[k]) && ps[k] == BatchMatmul(ls[k], rs[k]);
      BatchUpdated(ls[0].shape, rs[0].shape, d, ls[k].shape[d]);
    }
  }

  lemma {:induction false} BatchesSound(ls: seq<Tensor<real>>, rs: seq<Tensor<real>>, d: nat, ps: seq<Tensor<real>>)
    requires Split(ls, d).Valid() && Split(rs, d).Valid() && d < |ls[0].shape| - 2 && |rs[0].shape| == |ls[0].shape|
    requires BatchProducts(ls, rs, ps) && SameSizes(ls, d, rs, d)
    ensures Split(ps, d).Valid() && CanBatchMatmul(Unshard(Split(ls, d)), Unshard(Split(rs, d)))
    ensures Unshard(Split(ps, d)) == BatchMatmul(Unshard(Split(ls, d)), Unshard(Split(rs, d)))
    decreases |ls|
  {
    hide At, Join, CanBatch, BatchShape, BatchMatmul;
    BatchesValid(ls, rs, d, ps);
    assert CanBatchMatmul(ls[0], rs[0]);
    if |ls| > 1 {
      UnshardStep(ls, d);
      UnshardStep(rs, d);
      UnshardStep(ps, d);
      BatchesSound(ls[1..], rs[1..], d, ps[1..]);
      SameSums(ls[1..], d, rs[1..], d);
      BatchOfJoins(ls[0], Unshard(Split(ls[1..], d)), rs[0], Unshard(Split(rs[1..], d)), d);
    }
  }

  // ---- When the product is the product of the wholes ----

  predicate BatchRight(l: Tensor<real>, r: Tensor<real>, y: Tensor<real>) {
    CanBatchMatmul(l, r) && y == BatchMatmul(l, r)
  }

  /** A batch dimension is split, in the same places, or there is only one shard. */
  predicate BatchesAligned(l: Split<real>, r: Split<real>)
    requires l.Valid() && r.Valid()
  {
    |l.shards| == 1 || (l.dim + 2 < |l.Shape()| && SameSizes(l.shards, l.dim, r.shards, r.dim))
  }

  lemma SplitBatches(l: Split<real>, r: Split<real>, y: AnyTensor)
    requires l.Valid() && r.Valid() && |l.Shape()| == |r.Shape()| > 2 && l.dim == r.dim && BatchSplits(l, r) == Some(y)
    ensures y.Valid() && y.Sharded? && y.split.dim == l.dim && BatchProducts(l.shards, r.shards, y.split.shards)
  {
  }

  lemma AlignedBatches(l: Split<real>, r: Split<real>, ps: seq<Tensor<real>>)
    requires l.Valid() && r.Valid() && |l.Shape()| == |r.Shape()| > 2 && l.dim == r.dim && BatchProducts(l.shards, r.shards, ps)
    requires Split(ps, l.dim).Valid() && BatchesAligned(l, r)
    ensures BatchRight(Unshard(l), Unshard(r), Unshard(Split(ps, l.dim)))
  {
    hide Unshard, BatchMatmul, CanBatch;
    if |l.shards| == 1 {
      UnshardOne(l.shards, l.dim);
      UnshardOne(r.shards, r.dim);
      UnshardOne(ps, l.dim);
      assert CanBatchMatmul(l.shards[0], r.shards[0]);
    } else {
      BatchesSound(l.shards, r.shards, l.dim, ps);
    }
  }

  /** With a dimension of the matrices split, the wholes have no product. */
  lemma NoProduct(l: Split<real>, r: Split<real>, ps: seq<Tensor<real>>)
    requires l.Valid() && r.Valid() && |l.Shape()| == |r.Shape()| > 2 && l.dim == r.dim && BatchProducts(l.shards, r.shards, ps)
    requires |l.shards| > 1 && l.dim + 2 >= |l.Shape()| && NonEmptySplit(l) && NonEmptySplit(r)
    ensures !CanBatch(l.Shape(), r.Shape())
  {
    hide BatchMatmul, Compatible;
    var last := |l.Shape()| - 1;
    assert forall k | 0 <= k < |ps| :: CanBatchMatmul(l.shards[k], r.shards[k]);
    if l.dim == last {
      var n := r.Shape()[last - 1];
      SumOfEqual(l.shards, last, n);
      assert n == l.shards[0].shape[last] > 0;
      MoreThanOne(|l.shards|, n);
    } else {
      var n := l.Shape()[last];
      SumOfEqual(r.shards, last - 1, n);
      assert n == r.shards[0].shape[last - 1] > 0;
      MoreThanOne(|r.shards|, n);
    }
  }

  lemma MoreThanOne(m: nat, n: nat)
    requires m > 1 && n > 0
    ensures m * n > n
  {
    assert m * n == n + (m - 1) * n;
  }

  lemma BatchSizes(l: Split<real>, r: Split<real>, ps: seq<Tensor<real>>)
    requires l.Valid() && r.Valid() && |l.Shape()| == |r.Shape()| && l.dim == r.dim && l.dim + 2 < |l.Shape()|
    requires BatchProducts(l.shards, r.shards, ps)
    ensures Combine(l.shards, l.dim, r.shards, r.dim, ps)
  {
    hide Compatible, BatchMatmul, Agree, Wider;
    forall k | 0 <= k < |ps|
      ensures l.dim < |ps[k].shape| && Agree(l.shards[k].shape[l.dim], r.shards[k].shape[r.dim])
      ensures ps[k].shape[l.dim] == Wider(l.shards[k].shape[l.dim], r.shards[k].shape[r.dim])
    {
      assert CanBatchMatmul(l.shards[k], r.shards[k]) && ps[k] == BatchMatmul(l.shards[k], r.shards[k]);
      DimSizes(Batch(l.shards[k].shape), Batch(r.shards[k].shape), l.dim, r.dim);
    }
  }

  lemma EqualSteps(s: seq<nat>, t: seq<nat>, d: nat)
    requires CanBatch(s, t) && d + 2 < |s| && s[d] > 1 && t[d] > 1
    ensures s[d] == t[d] == BatchShape(s, t)[d]
  {
    DimSizes(Batch(s), Batch(t), d, d);
  }

  /** A product of the right shape has its batches cut in the same places. */
  lemma RightIsAligned(l: Split<real>, r: Split<real>, ps: seq<Tensor<real>>)
    requires l.Valid() && r.Valid() && |l.Shape()| == |r.Shape()| && l.dim == r.dim && l.dim + 2 < |l.Shape()|
    requires BatchProducts(l.shards, r.shards, ps) && Split(ps, l.dim).Valid() && |l.shards| > 1
    requires NonEmptySplit(l) && NonEmptySplit(r)
    requires CanBatch(l.Shape(), r.Shape()) && Split(ps, l.dim).Shape() == BatchShape(l.Shape(), r.Shape())
    ensures SameSizes(l.shards, l.dim, r.shards, r.dim)
  {
    hide CanBatch, CanBatchMatmul, BatchShape, BatchMatmul, Unshard;
    SomeSteps(l);
    SomeSteps(r);
    EqualSteps(l.Shape(), r.Shape(), l.dim);
    BatchSizes(l, r, ps);
    SameIfNonEmpty(l.shards, l.dim, r.shards, r.dim, ps);
  }

  /** A batched product of split tensors that is carried out is the batched product of the wholes if one batch dimension
      is split in the same places, and, for nonempty shards, only then. */
  lemma BatchSplitsRight(l: Split<real>, r: Split<real>, y: AnyTensor)
    requires l.Valid() && r.Valid() && |l.Shape()| == |r.Shape()| > 2 && l.dim == r.dim && BatchSplits(l, r) == Some(y)
    ensures y.Valid() && y.Fits(|l.shards|)
    ensures BatchesAligned(l, r) ==> BatchRight(Unshard(l), Unshard(r), y.Meaning())
    ensures NonEmptySplit(l) && NonEmptySplit(r) && BatchRight(Unshard(l), Unshard(r), y.Meaning()) ==> BatchesAligned(l, r)
  {
    hide CanBatch, BatchMatmul, BatchShape, Unshard;
    SplitBatches(l, r, y);
    if BatchesAligned(l, r) {
      AlignedBatches(l, r, y.split.shards);
    } else if NonEmptySplit(l) && NonEmptySplit(r) {
      if l.dim + 2 >= |l.Shape()| {
        NoProduct(l, r, y.split.shards);
      } else if BatchRight(Unshard(l), Unshard(r), y.Meaning()) {
        RightIsAligned(l, r, y.split.shards);
      }
    }
  }

  lemma OneByOne(s: seq<nat>)
    requires s == [1, 1, 1]
    ensures CanBatch(s, s) && BatchShape(s, s) == s
  {
    assert Batch(s) == [1];
    SameShape([1]);
  }

  /** Matrices of two rows and one column, one row in each shard, are multiplied although two by one times two by one is no
      product. */
  lemma RowsTimesRows(l: Split<real>, r: Split<real>) returns (y: AnyTensor)
    requires l.Valid() && r.Valid() && l.dim == r.dim == 1 && |l.shards| == |r.shards| == 2
    requires forall k | 0 <= k < 2 :: l.shards[k].shape == r.shards[k].shape == [1, 1, 1]
    ensures BatchSplits(l, r) == Some(y) && y.Valid() && !CanBatch(l.Shape(), r.Shape())
  {
    hide Unshard, BatchMatmul, CanBatch, BatchShape, Prod;
    OneByOne([1, 1, 1]);
    assert forall k | 0 <= k < 2 :: CanBatchMatmul(l.shards[k], r.shards[k]);
    BatchesRun(l.shards, r.shards);
    var ps := BatchEach(l.shards, r.shards).value;
    assert forall k | 0 <= k < 2 :: ps[k].shape == [1, 1, 1];
    y := Sharded(Split(ps, 1));
    NoProduct(l, r, ps);
  }

  lemma {:induction false} BatchesRun(ls: seq<Tensor<real>>, rs: seq<Tensor<real>>)
    requires |ls| == |rs| && forall k | 0 <= k < |ls| :: CanBatchMatmul(ls[k], rs[k])
    ensures BatchEach(ls, rs).Some?
  {
    if ls != [] {
      BatchesRun(ls[1..], rs[1..]);
    }
  }
}
