/** Shape operations with dimensions of either sign: exactly when the tracked split dimension is the right one. */
module TrackedDims {
  import opened Radices
  import opened ShapePrograms
  import opened Sharding
  import opened Tensors
  import opened Views
  import opened Wrappers

  /** The operation with its dimensions counted from the front. */
  function Resolved(op: Op, rank: nat): Op {
    match op
    case Flatten(start, end) => Flatten(Resolve(start, rank), Resolve(end, rank))
    case Unflatten(dim, sizes) => Unflatten(Resolve(dim, rank), sizes)
    case Transpose(dim0, dim1) => Transpose(Resolve(dim0, rank), Resolve(dim1, rank))
    case Unsqueeze(_) => op
  }

  /** With its dimensions counted from the front the operation would be accepted, and put the split dimension where the
      operation as it is written does. */
  predicate Tracks(op: Op, dim: nat, rank: nat) {
    AcceptsDim(Resolved(op, rank), dim, rank) && TrackedDim(op, dim, rank) == TrackedDim(Resolved(op, rank), dim, rank)
  }

  // ---- Operations that track ----

  lemma ApplyResolved<E>(op: Op, t: Tensor<E>, u: Tensor<E>)
    requires t.Valid() && u.Valid() && |u.shape| == |t.shape| && Apply(op, t).Some?
    ensures Supported(Resolved(op, |t.shape|)) && Apply(Resolved(op, |t.shape|), u) == Apply(op, u)
  {
  }

  /** Whenever an operation that tracks succeeds, it means the operation on the whole tensor. */
  lemma TracksSound<E>(op: Op, x: Split<E>, y: Split<E>)
    requires x.Valid() && ApplySplit(op, x) == Some(y) && Tracks(op, x.dim, |x.Shape()|)
    ensures Apply(op, Unshard(x)) == Some(Unshard(y))
  {
    hide Apply, Unshard, Resolved, Supported, AcceptsDim, TrackedDim;
    var rank := |x.Shape()|;
    SplitShards(op, x, y);
    forall i | 0 <= i < |x.shards| ensures AppliesTo(Resolved(op, rank), x.shards[i], y.shards[i]) {
      ApplyResolved(op, x.shards[i], x.shards[i]);
    }
    ApplyResolved(op, x.shards[0], Unshard(x));
    ShardsCommute(Resolved(op, rank), x.shards, x.dim, y.shards, y.dim);
  }

  lemma SplitShards<E>(op: Op, x: Split<E>, y: Split<E>)
    requires x.Valid() && ApplySplit(op, x) == Some(y)
    ensures y.Valid() && |y.shards| == |x.shards| && y.dim == TrackedDim(op, x.dim, |x.Shape()|)
    ensures forall i | 0 <= i < |x.shards| :: Apply(op, x.shards[i]) == Some(y.shards[i])
  {
  }

  /** Every operation of a program tracks. */
  predicate TracksAll<E>(program: seq<Op>, x: Split<E>)
    requires x.Valid()
  {
    program == []
    || (Tracks(program[0], x.dim, |x.Shape()|)
        && match ApplySplit(program[0], x)
           case None => true
           case Some(y) => TracksAll(program[1..], y))
  }

  lemma {:induction false} ProgramTracks<E>(program: seq<Op>, x: Split<E>)
    requires x.Valid() && TracksAll(program, x) && RunSplit(program, x).Some?
    ensures Run(program, Unshard(x)) == Some(Unshard(RunSplit(program, x).value))
  {
    hide Unshard, Apply;
    if program != [] {
      var y := ApplySplit(program[0], x).value;
      TracksSound(program[0], x, y);
      ProgramTracks(program[1..], y);
    }
  }

  // ---- Operations that do not ----

  predicate Distinct<E(==)>(data: seq<E>) {
    forall i, j | 0 <= i < j < |data| :: data[i] != data[j]
  }

  predicate AllPositive<E>(ts: seq<Tensor<E>>) {
    forall i | 0 <= i < |ts| :: Positive(ts[i].shape)
  }

  /** The result is put together in another place than where the expected shape differs from that of a shard. */
  lemma PlaceDiffers<E>(y: Split<E>, expected: seq<nat>, place: nat)
    requires y.Valid() && |y.shards| >= 2 && Positive(y.shards[1].shape) && y.dim != place
    requires |expected| == |y.shards[0].shape| && forall k | 0 <= k < |expected| && k != place :: expected[k] == y.shards[0].shape[k]
    ensures Unshard(y).shape != expected
  {
    hide Unshard;
    DimSumOfTwo(y.shards, y.dim);
  }

  lemma PositiveData<E>(t: Tensor<E>)
    requires t.Valid() && |t.data| > 0
    ensures Positive(t.shape)
  {
    hide Prod;
    forall k | 0 <= k < |t.shape| ensures t.shape[k] > 0 {
      if t.shape[k] == 0 {
        ProdZero(t.shape, k);
      }
    }
  }

  lemma ResultPositive<E>(op: Op, t: Tensor<E>, u: Tensor<E>)
    requires t.Valid() && Positive(t.shape) && Apply(op, t) == Some(u)
    ensures u.Valid() && Positive(u.shape)
  {
    hide Prod;
    ApplyValid(op, t);
    if op.Transpose? {
      TransposedPositive(t, op, u);
    } else {
      ProdPositive(t.shape);
      PositiveData(u);
    }
  }

  lemma TransposedPositive<E>(t: Tensor<E>, op: Op, u: Tensor<E>)
    requires t.Valid() && Positive(t.shape) && op.Transpose? && Apply(op, t) == Some(u)
    ensures Positive(u.shape)
  {
    hide Prod;
  }

  /** Unflattening the split dimension of several shards: the whole is too long for the sizes. */
  lemma UnflattenedSplitDim<E>(op: Op, x: Split<E>, y: Split<E>)
    requires x.Valid() && |x.shards| >= 2 && AllPositive(x.shards) && ApplySplit(op, x) == Some(y)
    requires op.Unflatten? && Resolve(op.dim, |x.Shape()|) == x.dim
    ensures Apply(op, Unshard(x)) == None
  {
    hide Unshard, Prod;
    SplitShards(op, x, y);
    forall i | 0 <= i < |x.shards| ensures x.shards[i].shape[x.dim] == Prod(op.sizes) {
      assert Apply(op, x.shards[i]).Some?;
    }
    assert Positive(x.shards[0].shape);
    SumOfEqual(x.shards, x.dim, Prod(op.sizes));
    Larger(|x.shards|, Prod(op.sizes));
  }

  lemma Larger(m: nat, n: nat)
    requires m >= 2 && n > 0
    ensures m * n > n
  {
    assert m * n == n + (m - 1) * n;
  }

  lemma UnflattenMisplaced<E>(op: Op, x: Split<E>, y: Split<E>)
    requires x.Valid() && |x.shards| >= 2 && AllPositive(x.shards) && ApplySplit(op, x) == Some(y)
    requires op.Unflatten? && !Tracks(op, x.dim, |x.Shape()|)
    ensures Apply(op, Unshard(x)) != Some(Unshard(y))
  {
    hide Unshard, Prod;
    var rank := |x.Shape()|;
    var d := Resolve(op.dim, rank);
    SplitShards(op, x, y);
    ResultPositive(op, x.shards[1], y.shards[1]);
    assert Apply(op, x.shards[0]) == Some(y.shards[0]);
    if d == x.dim {
      UnflattenedSplitDim(op, x, y);
    } else if Apply(op, Unshard(x)).Some? {
      UnflattenShapes(x.shards[0].shape, x.Shape()[x.dim], x.dim, d, op.sizes);
      PlaceDiffers(y, UnflattenShape(x.Shape(), d, op.sizes), TrackedDim(Resolved(op, rank), x.dim, rank));
    }
  }

  /** Flattening dimensions around the one that changes changes the flattened dimension only. */
  lemma FlattenInside(shape: seq<nat>, n: nat, d: nat, s: nat, e: nat)
    requires s < d <= e < |shape|
    ensures var r := FlattenShape(shape, s, e);
      FlattenShape(shape[d := n], s, e) == r[s := Prod(shape[d := n][s..e + 1])]
  {
    hide Prod;
  }

  /** The dimension of the flattened shape that the split dimension goes into. */
  function FlattenPlace(d: nat, s: nat, e: nat): (place: nat)
    requires s <= e
  {
    if d <= s then d else if d <= e then s else d - (e - s)
  }

  lemma FlattenMisplaced<E>(op: Op, x: Split<E>, y: Split<E>, s: nat, e: nat)
    requires x.Valid() && |x.shards| >= 2 && AllPositive(x.shards) && ApplySplit(op, x) == Some(y) && op.Flatten?
    requires s == Resolve(op.start, |x.Shape()|) && e == Resolve(op.end, |x.Shape()|) && s <= e < |x.Shape()|
    requires y.dim != FlattenPlace(x.dim, s, e)
    ensures Apply(op, Unshard(x)) != Some(Unshard(y))
  {
    hide Unshard, Prod;
    SplitShards(op, x, y);
    ResultPositive(op, x.shards[1], y.shards[1]);
    assert Apply(op, x.shards[0]) == Some(y.shards[0]);
    var first, n := x.shards[0].shape, x.Shape()[x.dim];
    if s < x.dim <= e {
      FlattenInside(first, n, x.dim, s, e);
    } else {
      FlattenShapes(first, n, x.dim, s, e);
    }
    PlaceDiffers(y, FlattenShape(x.Shape(), s, e), FlattenPlace(x.dim, s, e));
  }

  // ---- The split dimension is flattened ----

  lemma LongerChunks(o: nat, m: nat, o': nat, m': nat)
    requires o * m == o' * m' && o > o' && m > 0
    ensures o' > 0 && m' > m
  {
    assert o * m > 0;
    if m' <= m {
      SmallerProduct(o', m', o, m);
      assert false;
    }
  }

  lemma SmallerProduct(a: nat, b: nat, c: nat, d: nat)
    requires a < c && b <= d && d > 0
    ensures a * b < c * d
  {
    assert a * b <= a * d;
    assert c * d == a * d + (c - a) * d;
  }

  lemma FirstOfSecond<E>(a: seq<E>, b: seq<E>, o: nat, m: nat, n: nat)
    requires |a| == o * m && |b| == o * n && o >= 2 && m > 0 && n > 0
    ensures m < |a| && m + n < o * (m + n) && Interleave(a, b, o, m, n)[m + n] == a[m]
  {
    RadixBound(1, 0, o, m);
    RadixBound(1, 0, o, m + n);
    RadixDigits(1, 0, m + n);
  }

  lemma StillFirst<E>(a: seq<E>, b: seq<E>, o: nat, m: nat, n: nat, k: nat)
    requires |a| == o * m && |b| == o * n && o > 0 && k < m
    ensures k < |a| && k < o * (m + n) && Interleave(a, b, o, m, n)[k] == a[k]
  {
    RadixBound(0, k, o, m);
    RadixBound(0, k, o, m + n);
    RadixDigits(0, k, m + n);
  }

  /** Taking turns in longer chunks gives another order. */
  lemma InterleaveDiffers<E>(a: seq<E>, b: seq<E>, o: nat, m: nat, n: nat, b': seq<E>, o': nat, m': nat, n': nat)
    requires |a| == o * m == o' * m' && |b| == o * n && |b'| == o' * n' && o > o' && m > 0 && n > 0
    requires Distinct(Interleave(a, b, o, m, n))
    ensures Interleave(a, b, o, m, n) != Interleave(a, b', o', m', n')
  {
    LongerChunks(o, m, o', m');
    FirstOfSecond(a, b, o, m, n);
    StillFirst(a, b', o', m', n', m);
  }

  lemma PositiveChunk(shape: seq<nat>, d: nat)
    requires Positive(shape) && d <= |shape|
    ensures Chunk(shape, d) > 0 && Outer(shape, d) > 0
  {
    hide Prod;
    ProdPositive(shape[d..]);
    ProdPositive(shape[..d]);
  }

  /** Shards that are put together with fewer steps before the split dimension give another order. */
  lemma FewerStepsDiffer<E>(ts: seq<Tensor<E>>, d: nat, ts': seq<Tensor<E>>, d': nat)
    requires Split(ts, d).Valid() && Split(ts', d').Valid() && |ts'| == |ts| >= 2 && AllPositive(ts)
    requires ts'[0].data == ts[0].data && Outer(ts'[0].shape, d') < Outer(ts[0].shape, d)
    requires Distinct(Unshard(Split(ts, d)).data)
    ensures Unshard(Split(ts', d')).data != Unshard(Split(ts, d)).data
  {
    hide Prod, At, Unshard, Outer, Chunk, Distinct;
    UnshardStep(ts, d);
    UnshardStep(ts', d');
    var rest, rest' := Unshard(Split(ts[1..], d)), Unshard(Split(ts'[1..], d'));
    JoinData(ts[0], rest, d);
    JoinData(ts'[0], rest', d');
    assert Positive(ts[0].shape);
    PositiveChunk(ts[0].shape, d);
    RestPositive(ts, d);
    PositiveChunk(rest.shape, d);
    InterleaveDiffers(ts[0].data, rest.data, Outer(ts[0].shape, d), Chunk(ts[0].shape, d), Chunk(rest.shape, d),
                      rest'.data, Outer(ts'[0].shape, d'), Chunk(ts'[0].shape, d'), Chunk(rest'.shape, d'));
  }

  lemma RestPositive<E>(ts: seq<Tensor<E>>, d: nat)
    requires Split(ts, d).Valid() && |ts| >= 2 && AllPositive(ts) && Split(ts[1..], d).Valid()
    ensures Positive(Unshard(Split(ts[1..], d)).shape)
  {
    hide Unshard;
    assert Positive(ts[1].shape) && ts[1..][0] == ts[1];
    SumAtLeast(ts[1..], d, 0);
  }

  /** The steps before the flattened dimension, and before the split one among those that are flattened. */
  lemma InsideOuter(shape: seq<nat>, d: nat, s: nat, e: nat)
    requires s < d <= e < |shape|
    ensures Outer(FlattenShape(shape, s, e), s) == Outer(shape, s)
    ensures Outer(shape, d) == Outer(shape, s) * Prod(shape[s..d])
  {
    hide Prod;
    assert FlattenShape(shape, s, e)[..s] == shape[..s];
    ProdConcat(shape[..s], shape[s..d]);
    assert shape[..d] == shape[..s] + shape[s..d];
  }

  /** Several steps of other dimensions before the split one are flattened with it: the result is block-cyclic. */
  lemma FlattenedDiffers<E>(op: Op, x: Split<E>, y: Split<E>, s: nat, e: nat)
    requires x.Valid() && |x.shards| >= 2 && AllPositive(x.shards) && ApplySplit(op, x) == Some(y) && op.Flatten?
    requires s == Resolve(op.start, |x.Shape()|) && e == Resolve(op.end, |x.Shape()|) && s < x.dim <= e < |x.Shape()|
    requires y.dim == s && Prod(x.Shape()[s..x.dim]) != 1 && Distinct(Unshard(x).data)
    ensures Apply(op, Unshard(x)) != Some(Unshard(y))
  {
    hide Prod, Unshard, Outer;
    SplitShards(op, x, y);
    var first := x.shards[0].shape;
    assert Apply(op, x.shards[0]) == Some(y.shards[0]) && Positive(first);
    assert first[s..x.dim] == x.Shape()[s..x.dim];
    InsideOuter(first, x.dim, s, e);
    ProdPositive(first[s..x.dim]);
    PositiveChunk(first, s);
    MoreSteps(Outer(first, s), Prod(first[s..x.dim]));
    FewerStepsDiffer(x.shards, x.dim, y.shards, y.dim);
  }

  lemma MoreSteps(o: nat, n: nat)
    requires o > 0 && n > 1
    ensures o < o * n
  {
    assert o * n == o + o * (n - 1);
  }

  /** Only dimensions of a single step before the split one are flattened with it: nothing moves. */
  lemma FlattenedOnes<E>(op: Op, x: Split<E>, y: Split<E>, s: nat, e: nat)
    requires x.Valid() && AllPositive(x.shards) && ApplySplit(op, x) == Some(y) && op.Flatten?
    requires s == Resolve(op.start, |x.Shape()|) && e == Resolve(op.end, |x.Shape()|) && s < x.dim <= e < |x.Shape()|
    requires y.dim == s && Prod(x.Shape()[s..x.dim]) == 1
    ensures Apply(op, Unshard(x)) == Some(Unshard(y))
  {
    hide Prod, Unshard, Outer;
    SplitShards(op, x, y);
    var first := x.shards[0].shape;
    forall i | 0 <= i < |x.shards| ensures y.shards[i].data == x.shards[i].data {
      assert Apply(op, x.shards[i]) == Some(y.shards[i]);
    }
    assert Apply(op, x.shards[0]) == Some(y.shards[0]);
    assert first[s..x.dim] == x.Shape()[s..x.dim];
    InsideOuter(first, x.dim, s, e);
    UnshardRelabelled(x.shards, x.dim, y.shards, y.dim);
    FlattenedShape(op, x, y, s, e);
  }

  lemma FlattenedShape<E>(op: Op, x: Split<E>, y: Split<E>, s: nat, e: nat)
    requires x.Valid() && AllPositive(x.shards) && ApplySplit(op, x) == Some(y) && op.Flatten?
    requires s == Resolve(op.start, |x.Shape()|) && e == Resolve(op.end, |x.Shape()|) && s < x.dim <= e < |x.Shape()|
    requires y.dim == s && Unshard(y).data == Unshard(x).data
    ensures y.Shape() == FlattenShape(x.Shape(), s, e)
  {
    hide Prod, Unshard;
    SplitShards(op, x, y);
    assert Apply(op, x.shards[0]) == Some(y.shards[0]);
    var expected := FlattenShape(x.Shape(), s, e);
    FlattenInside(x.shards[0].shape, x.Shape()[x.dim], x.dim, s, e);
    FlattenValid(x.Shape(), s, e);
    WholePositive(x);
    ProdPositive(x.Shape());
    PositiveData(Tensor(expected, Unshard(x).data));
    assert y.Shape() == expected[s := y.Shape()[s]];
    OneDimension(expected, s, y.Shape()[s]);
  }

  lemma WholePositive<E>(x: Split<E>)
    requires x.Valid() && AllPositive(x.shards)
    ensures Positive(x.Shape())
  {
    assert Positive(x.shards[0].shape);
    SumAtLeast(x.shards, x.dim, 0);
  }

  // ---- The exact condition ----

  /** Only dimensions of a single step before the split one are flattened with it. */
  predicate FlattensOnes(op: Op, dim: nat, shape: seq<nat>) {
    op.Flatten?
    && var s, e := Resolve(op.start, |shape|), Resolve(op.end, |shape|);
    0 <= s < dim <= e < |shape| && TrackedDim(op, dim, |shape|) == s && Prod(shape[s..dim]) == 1
  }

  lemma FlattenExact<E>(op: Op, x: Split<E>, y: Split<E>)
    requires x.Valid() && |x.shards| >= 2 && AllPositive(x.shards) && Distinct(Unshard(x).data)
    requires ApplySplit(op, x) == Some(y) && op.Flatten?
    ensures Apply(op, Unshard(x)) == Some(Unshard(y)) <==> Tracks(op, x.dim, |x.Shape()|) || FlattensOnes(op, x.dim, x.Shape())
  {
    hide Prod, Unshard, Distinct;
    SplitShards(op, x, y);
    var s, e := Resolve(op.start, |x.Shape()|), Resolve(op.end, |x.Shape()|);
    assert Apply(op, x.shards[0]).Some?;
    if Tracks(op, x.dim, |x.Shape()|) {
      TracksSound(op, x, y);
    } else if y.dim != FlattenPlace(x.dim, s, e) {
      FlattenMisplaced(op, x, y, s, e);
    } else if Prod(x.Shape()[s..x.dim]) == 1 {
      FlattenedOnes(op, x, y, s, e);
    } else {
      FlattenedDiffers(op, x, y, s, e);
    }
  }

  /** For at least two shards without empty dimensions and distinct elements, an operation that succeeds is right exactly if the
      split dimension is tracked to its place, or is flattened with nothing but single steps before it. */
  lemma OpExact<E>(op: Op, x: Split<E>, y: Split<E>)
    requires x.Valid() && |x.shards| >= 2 && AllPositive(x.shards) && Distinct(Unshard(x).data)
    requires ApplySplit(op, x) == Some(y)
    ensures Apply(op, Unshard(x)) == Some(Unshard(y)) <==> Tracks(op, x.dim, |x.Shape()|) || FlattensOnes(op, x.dim, x.Shape())
  {
    hide Prod, Unshard, Distinct, Apply;
    if op.Flatten? {
      FlattenExact(op, x, y);
    } else if Tracks(op, x.dim, |x.Shape()|) {
      TracksSound(op, x, y);
    } else if op.Unflatten? {
      UnflattenMisplaced(op, x, y);
    } else if op.Transpose? {
      assert forall i | 0 <= i < |x.shards| :: Positive(x.shards[i].shape);
      TransposeTracks(x, op.dim0, op.dim1);
    }
  }

  /** Two rows split by columns, flattened as `(-3, -2)`: the elements of each shard stay together instead of those of each row. */
  lemma ColumnsStayTogether<E>(x: Split<E>) returns (y: Split<E>)
    requires x.Valid() && x.dim == 1 && |x.shards| == 2 && x.shards[0].shape == x.shards[1].shape == [2, 1, 1]
    requires Distinct(Unshard(x).data)
    ensures ApplySplit(Flatten(-3, -2), x) == Some(y) && Apply(Flatten(-3, -2), Unshard(x)) != Some(Unshard(y))
  {
    hide Unshard, Distinct;
    assert AllPositive(x.shards);
    y := ColumnsFlattened(x);
    var op := Flatten(-3, -2);
    assert x.Shape() == [2, x.Shape()[1], 1];
    assert x.Shape()[0..1] == [2];
    ProdOne(2);
    OpExact(op, x, y);
  }

  lemma ColumnsFlattened<E>(x: Split<E>) returns (y: Split<E>)
    requires x.Valid() && x.dim == 1 && |x.shards| == 2 && x.shards[0].shape == x.shards[1].shape == [2, 1, 1]
    ensures ApplySplit(Flatten(-3, -2), x) == Some(y)
  {
    hide Unshard;
    var op := Flatten(-3, -2);
    assert forall t | t in x.shards :: t.Valid();
    forall i | 0 <= i < 2 ensures Apply(op, x.shards[i]) == Some(Tensor([2, 1], x.shards[i].data)) && Prod([2, 1]) == |x.shards[i].data| {
      RowFlattened(x.shards[i]);
    }
    AppliesEach(op, x.shards);
    var ts := ApplyAll(op, x.shards).value;
    assert forall i | 0 <= i < 2 :: ts[i] == Tensor([2, 1], x.shards[i].data);
    y := Split(ts, 0);
  }

  lemma RowFlattened<E>(t: Tensor<E>)
    requires t.Valid() && t.shape == [2, 1, 1]
    ensures Apply(Flatten(-3, -2), t) == Some(Tensor([2, 1], t.data)) && Prod([2, 1]) == |t.data|
  {
    assert [2, 1, 1][0..2] == [2, 1] && [2, 1, 1][..0] == [] && [2, 1, 1][2..] == [1];
    ProdPair(2, 1);
    FlattenValid([2, 1, 1], 0, 1);
    assert FlattenShape([2, 1, 1], 0, 1) == [2, 1];
  }

  lemma {:induction false} AppliesEach<E>(op: Op, ts: seq<Tensor<E>>)
    requires (forall t | t in ts :: t.Valid()) && forall i | 0 <= i < |ts| :: Apply(op, ts[i]).Some?
    ensures ApplyAll(op, ts).Some?
  {
    if ts != [] {
      AppliesEach(op, ts[1..]);
    }
  }
}
