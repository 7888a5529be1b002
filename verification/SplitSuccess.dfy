/** When the shape operations and views of split tensors succeed. */
module SplitSuccess {
  import opened Radices
  import opened ShapePrograms
  import opened Sharding
  import opened Tensors
  import opened Views
  import opened Wrappers

  // ---- Shape operations ----

  lemma {:induction false} AppliesToEach<E>(op: Op, ts: seq<Tensor<E>>)
    requires forall t | t in ts :: t.Valid()
    ensures ApplyAll(op, ts).Some? <==> forall i | 0 <= i < |ts| :: Apply(op, ts[i]).Some?
  {
    if ts != [] {
      AppliesToEach(op, ts[1..]);
      assert (forall i | 0 <= i < |ts| :: Apply(op, ts[i]).Some?) <==>
        Apply(op, ts[0]).Some? && forall i | 0 <= i < |ts[1..]| :: Apply(op, ts[1..][i]).Some? by {
        assert forall i | 0 < i < |ts| :: ts[i] == ts[1..][i - 1];
      }
    }
  }

  /** What the operation asks of the split dimension. */
  predicate Allowed(op: Op, dim: nat, rank: nat, even: bool) {
    match op
    case Flatten(start, end) =>
      var last := if end == -1 then rank - 1 else end;
      dim < start || (dim == start && even) || dim > last
    case Unflatten(d, _) => d != dim
    case Transpose(_, _) => true
    case Unsqueeze(_) => true
  }

  /** What becomes of a tensor and of one that differs from it in one dimension. */
  ghost predicate Tracked<E>(op: Op, a: Tensor<E>, b: Tensor<E>, d: nat)
    requires a.Valid() && b.Valid()
  {
    && (Apply(op, a).Some? <==> Apply(op, b).Some?)
    && (Apply(op, a).Some? && Apply(op, b).Some? ==>
          var d', s, t := TrackedDim(op, d, |a.shape|), Apply(op, a).value.shape, Apply(op, b).value.shape;
          0 <= d' < |s| == |t| && t == s[d' := t[d']])
  }

  lemma FlattenTracked<E>(op: Op, a: Tensor<E>, b: Tensor<E>, d: nat)
    requires a.Valid() && b.Valid() && d < |a.shape| == |b.shape| && b.shape == a.shape[d := b.shape[d]]
    requires op.Flatten? && Supported(op) && AcceptsDim(op, d, |a.shape|)
    ensures Tracked(op, a, b, d)
  {
    hide Prod;
    var s, e := op.start, Resolve(op.end, |a.shape|);
    if 0 <= s <= e < |a.shape| {
      FlattenShapes(a.shape, b.shape[d], d, s, e);
    }
  }

  lemma UnflattenTracked<E>(op: Op, a: Tensor<E>, b: Tensor<E>, d: nat)
    requires a.Valid() && b.Valid() && d < |a.shape| == |b.shape| && b.shape == a.shape[d := b.shape[d]]
    requires op.Unflatten? && Supported(op) && AcceptsDim(op, d, |a.shape|)
    ensures Tracked(op, a, b, d)
  {
    hide Prod;
    if op.dim < |a.shape| && op.sizes != [] {
      UnflattenShapes(a.shape, b.shape[d], d, op.dim, op.sizes);
    }
  }

  lemma TransposeTracked<E>(op: Op, a: Tensor<E>, b: Tensor<E>, d: nat)
    requires a.Valid() && b.Valid() && d < |a.shape| == |b.shape| && b.shape == a.shape[d := b.shape[d]]
    requires op.Transpose? && Supported(op)
    ensures Tracked(op, a, b, d)
  {
    hide Prod, At;
    if op.dim0 < |a.shape| && op.dim1 < |a.shape| {
      SwapUpdated(a.shape, op.dim0, op.dim1, d, b.shape[d]);
    }
  }

  lemma SwapUpdated(s: seq<nat>, i: nat, j: nat, d: nat, n: nat)
    requires i < |s| && j < |s| && d < |s|
    ensures Swap(s[d := n], i, j) == Swap(s, i, j)[(if d == i then j else if d == j then i else d) := n]
  {
  }

  lemma UnsqueezeTracked<E>(op: Op, a: Tensor<E>, b: Tensor<E>, d: nat)
    requires a.Valid() && b.Valid() && d < |a.shape| == |b.shape| && b.shape == a.shape[d := b.shape[d]] && op.Unsqueeze?
    ensures Tracked(op, a, b, d)
  {
    hide Prod;
    var dim := Resolve(op.dim, |a.shape| + 1);
    if 0 <= dim <= |a.shape| {
      UnsqueezeShapes(a.shape, b.shape[d], d, dim);
    }
  }

  lemma OpTracked<E>(op: Op, a: Tensor<E>, b: Tensor<E>, d: nat)
    requires a.Valid() && b.Valid() && d < |a.shape| == |b.shape| && b.shape == a.shape[d := b.shape[d]]
    requires Supported(op) && AcceptsDim(op, d, |a.shape|)
    ensures Tracked(op, a, b, d)
  {
    hide Tracked, Supported, AcceptsDim;
    match op
    case Flatten(_, _) => FlattenTracked(op, a, b, d);
    case Unflatten(_, _) => UnflattenTracked(op, a, b, d);
    case Transpose(_, _) => TransposeTracked(op, a, b, d);
    case Unsqueeze(_) => UnsqueezeTracked(op, a, b, d);
  }

  lemma EachApplies<E>(op: Op, x: Split<E>)
    requires x.Valid() && Supported(op) && AcceptsDim(op, x.dim, |x.Shape()|)
    ensures ApplyAll(op, x.shards).Some? <==> Apply(op, Unshard(x)).Some?
    ensures ApplyAll(op, x.shards).Some? ==> MakeSplit(ApplyAll(op, x.shards).value, TrackedDim(op, x.dim, |x.Shape()|)).Some?
  {
    hide Apply, Unshard, Supported, AcceptsDim, TrackedDim;
    assert forall t | t in x.shards :: t.Valid();
    AppliesToEach(op, x.shards);
    forall i | 0 <= i < |x.shards| ensures Tracked(op, x.shards[0], x.shards[i], x.dim) {
      OpTracked(op, x.shards[0], x.shards[i], x.dim);
    }
    OpTracked(op, x.shards[0], Unshard(x), x.dim);
    if ApplyAll(op, x.shards).Some? {
      var ts := ApplyAll(op, x.shards).value;
      forall i | 0 <= i < |ts| ensures ts[i].Valid() {
        ApplyValid(op, x.shards[i]);
      }
    }
  }

  /** An operation succeeds on a split tensor exactly if it does on the whole tensor, and the split dimension is allowed: it must
      not be unflattened, and flattened only as the first dimension of a range and if the shards divide it. */
  lemma OpSucceeds<E>(op: Op, x: Split<E>)
    requires x.Valid() && Supported(op)
    ensures ApplySplit(op, x).Some? <==>
      Apply(op, Unshard(x)).Some? && Allowed(op, x.dim, |x.Shape()|, x.Shape()[x.dim] % |x.shards| == 0)
  {
    hide Unshard;
    if AcceptsDim(op, x.dim, |x.Shape()|) {
      EachApplies(op, x);
    }
  }

  // ---- Views that split one dimension ----

  lemma {:induction false} FirstDifference(s: seq<nat>, t: seq<nat>, p: nat)
    requires p < |s| && p < |t| && s[..p] == t[..p] && s[p] != t[p]
    ensures LongestEqualRange(s, t) == p
  {
    if p > 0 {
      assert s[0] == s[..p][0] == t[..p][0] == t[0];
      assert s[1..][..p - 1] == s[..p][1..] == t[..p][1..] == t[1..][..p - 1];
      FirstDifference(s[1..], t[1..], p - 1);
    }
  }

  lemma {:induction false} LastDifference(s: seq<nat>, t: seq<nat>, q: nat)
    requires q < |s| && q < |t| && s[|s| - q..] == t[|t| - q..] && s[|s| - 1 - q] != t[|t| - 1 - q]
    ensures TrailingEqual(s, t) == q
  {
    if q > 0 {
      var init, init' := s[..|s| - 1], t[..|t| - 1];
      assert s[|s| - 1] == s[|s| - q..][q - 1] == t[|t| - q..][q - 1] == t[|t| - 1];
      assert init[|init| - (q - 1)..] == s[|s| - q..][..q - 1] == t[|t| - q..][..q - 1] == init'[|init'| - (q - 1)..];
      LastDifference(init, init', q - 1);
    }
  }

  /** The sizes split the dimension properly: neither the first nor the last of them is all of it. */
  predicate ProperSizes(n: nat, sizes: seq<nat>) {
    sizes != [] && Positive(sizes) && Prod(sizes) == n && sizes[0] != n && sizes[|sizes| - 1] != n
  }

  lemma PrefixMatch(from: seq<nat>, p: nat, sizes: seq<nat>)
    requires p < |from| && ProperSizes(from[p], sizes)
    ensures LongestEqualRange(from, UnflattenShape(from, p, sizes)) == p
  {
    hide Prod;
    FirstDifference(from, UnflattenShape(from, p, sizes), p);
  }

  lemma SuffixMatch(from: seq<nat>, p: nat, sizes: seq<nat>)
    requires p < |from| && ProperSizes(from[p], sizes)
    ensures ReversedEqualRange(from, UnflattenShape(from, p, sizes)) == |from| - p - 1
  {
    hide Prod;
    var to, q := UnflattenShape(from, p, sizes), |from| - p - 1;
    assert to[|to| - q..] == from[p + 1..] == from[|from| - q..];
    LastDifference(from, to, q);
  }

  lemma ProperIsSplit(from: seq<nat>, p: nat, sizes: seq<nat>)
    requires p < |from| && ProperSizes(from[p], sizes)
    ensures var to := UnflattenShape(from, p, sizes); Classify(from, to) == SplitRange(p, |to| - |from| + 1)
  {
    hide Prod, LongestEqualRange, ReversedEqualRange;
    PrefixMatch(from, p, sizes);
    SuffixMatch(from, p, sizes);
    var to := UnflattenShape(from, p, sizes);
    assert to[p..p + |sizes|] == sizes;
  }

  lemma ScaledDim(s: seq<nat>, d: nat, a: nat, c: nat)
    requires Positive(s) && d < |s|
    ensures c * Prod(s[d := a]) == Prod(s) <==> c * a == s[d]
  {
    hide Prod;
    var before, after := Prod(s[..d]), Prod(s[d + 1..]);
    ProdAround(s, d);
    ProdAround(s[d := a], d);
    assert s[d := a][..d] == s[..d] && s[d := a][d + 1..] == s[d + 1..];
    ProdPositive(s[..d]);
    ProdPositive(s[d + 1..]);
    Cancelled(before, after, a, c, s[d]);
  }

  lemma Cancelled(x: nat, y: nat, a: nat, c: nat, n: nat)
    requires x > 0 && y > 0
    ensures c * (x * (a * y)) == x * (n * y) <==> c * a == n
  {
    assert c * (x * (a * y)) == x * (c * a * y);
    if x * (c * a * y) == x * (n * y) {
      SameFactor(x, c * a * y, n * y);
      CancelRight(c * a, n, y);
    }
  }

  /** All shards are equally long. */
  predicate Even<E>(x: Split<E>)
    requires x.Valid()
  {
    forall i | 0 <= i < |x.shards| :: |x.shards| * x.shards[i].shape[x.dim] == x.Shape()[x.dim]
  }

  lemma {:induction false} ViewsEach<E>(ts: seq<Tensor<E>>, shape: seq<nat>)
    ensures ViewAll(ts, shape).Some? <==> forall i | 0 <= i < |ts| :: |ts[i].data| == Prod(shape)
  {
    hide Prod;
    if ts != [] {
      ViewsEach(ts[1..], shape);
      assert (forall i | 0 <= i < |ts| :: |ts[i].data| == Prod(shape)) <==>
        |ts[0].data| == Prod(shape) && forall i | 0 <= i < |ts[1..]| :: |ts[1..][i].data| == Prod(shape) by {
        assert forall i | 0 < i < |ts| :: ts[i] == ts[1..][i - 1];
      }
    }
  }

  lemma ViewShardsRun<E>(shards: seq<Tensor<E>>, shape: seq<nat>, dim: nat)
    requires shards != [] && dim < |shape|
    ensures ViewShards(shards, shape, dim).Some? <==>
      forall i | 0 <= i < |shards| :: |shards[i].data| == Prod(shape[dim := shape[dim] / |shards|])
  {
    hide Prod;
    ViewsEach(shards, shape[dim := shape[dim] / |shards|]);
  }

  lemma ShardData<E>(x: Split<E>, i: nat)
    requires x.Valid() && i < |x.shards|
    ensures |x.shards[i].data| == Prod(x.Shape()[x.dim := x.shards[i].shape[x.dim]])
  {
    hide Prod;
    assert x.shards[i].shape == x.Shape()[x.dim := x.shards[i].shape[x.dim]];
  }

  /** The shards fit if the split dimension is the one that is split further. */
  lemma SplitDimFits<E>(x: Split<E>, sizes: seq<nat>, i: nat)
    requires x.Valid() && Positive(x.Shape()) && ProperSizes(x.Shape()[x.dim], sizes) && sizes[0] % |x.shards| == 0 && i < |x.shards|
    ensures var to := UnflattenShape(x.Shape(), x.dim, sizes);
      x.dim < |to| && (|x.shards[i].data| == Prod(to[x.dim := to[x.dim] / |x.shards|])
                       <==> |x.shards| * x.shards[i].shape[x.dim] == x.Shape()[x.dim])
  {
    hide Prod;
    var from, c := x.Shape(), |x.shards|;
    var to := UnflattenShape(from, x.dim, sizes);
    UnflattenValid(from, x.dim, sizes);
    assert to[x.dim] == sizes[0];
    RoundedProduct(to, x.dim, c);
    ShardData(x, i);
    ScaledDim(from, x.dim, x.shards[i].shape[x.dim], c);
    SameMultiple(c, |x.shards[i].data|, Prod(to[x.dim := to[x.dim] / c]));
  }

  lemma SameMultiple(c: nat, a: nat, b: nat)
    requires c > 0
    ensures c * a == c * b <==> a == b
  {
    if c * a == c * b {
      SameFactor(c, a, b);
    }
  }

  lemma SameDim(s: seq<nat>, d: nat, a: nat, b: nat)
    requires Positive(s) && d < |s|
    ensures Prod(s[d := a]) == Prod(s[d := b]) <==> a == b
  {
    hide Prod;
    var before, after := Prod(s[..d]), Prod(s[d + 1..]);
    ProdAround(s[d := a], d);
    ProdAround(s[d := b], d);
    assert s[d := a][..d] == s[..d] == s[d := b][..d] && s[d := a][d + 1..] == s[d + 1..] == s[d := b][d + 1..];
    ProdPositive(s[..d]);
    ProdPositive(s[d + 1..]);
    SameMultiple(before, a * after, b * after);
    if a * after == b * after {
      CancelRight(a, b, after);
    }
  }

  lemma OtherDimFits<E>(x: Split<E>, p: nat, sizes: seq<nat>, i: nat)
    requires x.Valid() && Positive(x.Shape()) && p < |x.Shape()| && p != x.dim && ProperSizes(x.Shape()[p], sizes) && i < |x.shards|
    ensures var to, dim := UnflattenShape(x.Shape(), p, sizes), if p < x.dim then x.dim + |sizes| - 1 else x.dim;
      dim < |to| && to[dim] == x.Shape()[x.dim]
      && (|x.shards[i].data| == Prod(to[dim := to[dim] / |x.shards|]) <==> x.shards[i].shape[x.dim] == x.Shape()[x.dim] / |x.shards|)
  {
    hide Prod;
    var from, m := x.Shape(), x.Shape()[x.dim] / |x.shards|;
    UnflattenFacts(from, m, x.dim, p, sizes);
    ShardData(x, i);
    SameDim(from, x.dim, x.shards[i].shape[x.dim], m);
  }

  lemma EvenParts<E>(x: Split<E>)
    requires x.Valid()
    ensures Even(x) <==> forall i | 0 <= i < |x.shards| :: x.shards[i].shape[x.dim] == x.Shape()[x.dim] / |x.shards|
    ensures Even(x) ==> x.Shape()[x.dim] % |x.shards| == 0
  {
    var c, n := |x.shards|, x.Shape()[x.dim];
    if Even(x) {
      forall i | 0 <= i < c ensures x.shards[i].shape[x.dim] == n / c && n % c == 0 {
        Quotient(c, x.shards[i].shape[x.dim], n);
      }
      assert x.shards[0].shape[x.dim] == n / c;
    }
    if forall i | 0 <= i < c :: x.shards[i].shape[x.dim] == n / c {
      SumOfEqual(x.shards, x.dim, n / c);
    }
  }

  lemma Quotient(c: nat, m: nat, n: nat)
    requires c > 0 && c * m == n
    ensures n / c == m && n % c == 0
  {
    assert n == Radix(m, 0, c);
    RadixDigits(m, 0, c);
  }

  /** A view that splits one dimension properly succeeds exactly if the shards are equally long and, should it be the split
      dimension, the number of shards divides the first of the new dimensions. */
  lemma ViewSucceeds<E>(x: Split<E>, p: nat, sizes: seq<nat>)
    requires x.Valid() && Positive(x.Shape()) && p < |x.Shape()| && ProperSizes(x.Shape()[p], sizes)
    ensures ViewSplit(x, UnflattenShape(x.Shape(), p, sizes)).Some? <==> Even(x) && (p == x.dim ==> sizes[0] % |x.shards| == 0)
  {
    hide Prod, Classify, ViewShards, Unshard;
    var from, to, c := x.Shape(), UnflattenShape(x.Shape(), p, sizes), |x.shards|;
    ProperIsSplit(from, p, sizes);
    EvenParts(x);
    assert to[p] == sizes[0];
    var dim := ViewDim(x.dim, p, |from|, |to|);
    ViewShardsRun(x.shards, to, dim);
    if p == x.dim {
      if sizes[0] % c == 0 {
        forall i | 0 <= i < c
          ensures |x.shards[i].data| == Prod(to[dim := to[dim] / c]) <==> c * x.shards[i].shape[x.dim] == from[x.dim]
        {
          SplitDimFits(x, sizes, i);
        }
      }
    } else {
      forall i | 0 <= i < c
        ensures |x.shards[i].data| == Prod(to[dim := to[dim] / c]) <==> x.shards[i].shape[x.dim] == from[x.dim] / c
      {
        OtherDimFits(x, p, sizes, i);
      }
    }
  }

  // ---- Reshapes ----

  /** Reshaping to a shape that splits one dimension properly succeeds where viewing does, and is the view of the whole. */
  lemma ReshapeSplits<E>(x: Split<E>, p: nat, sizes: seq<nat>)
    requires x.Valid() && Positive(x.Shape()) && p < |x.Shape()| && ProperSizes(x.Shape()[p], sizes)
    ensures var y := ReshapeSplit(x, UnflattenShape(x.Shape(), p, sizes));
      && (y.Some? <==> Even(x) && (p == x.dim ==> sizes[0] % |x.shards| == 0))
      && (y.Some? ==> View(Unshard(x), UnflattenShape(x.Shape(), p, sizes)) == Some(Unshard(y.value)))
  {
    hide Prod, Classify, Unshard, ViewSplit;
    var to := UnflattenShape(x.Shape(), p, sizes);
    ProperIsSplit(x.Shape(), p, sizes);
    ViewSucceeds(x, p, sizes);
    assert Positive(to) by {
      UnflattenPositive(x.Shape(), p, sizes);
    }
    if ViewSplit(x, to).Some? {
      ViewSplitSound(x, to);
    }
  }

  lemma UnflattenPositive(s: seq<nat>, p: nat, sizes: seq<nat>)
    requires Positive(s) && p < |s| && Positive(sizes)
    ensures Positive(UnflattenShape(s, p, sizes))
  {
  }

  /** Reshaping to a shape that merges a range of dimensions properly succeeds where flattening it does, and is the view of the
      whole. */
  lemma ReshapeFlattens<E>(x: Split<E>, s: nat, e: nat)
    requires x.Valid() && s < e < |x.Shape()| && ProperSizes(Prod(x.Shape()[s..e + 1]), x.Shape()[s..e + 1])
    ensures var y := ReshapeSplit(x, FlattenShape(x.Shape(), s, e));
      && (y.Some? <==> x.dim < s || (x.dim == s && x.Shape()[s] % |x.shards| == 0) || x.dim > e)
      && (y.Some? ==> View(Unshard(x), FlattenShape(x.Shape(), s, e)) == Some(Unshard(y.value)))
  {
    hide Prod, Classify, Unshard, ApplySplit;
    var from, to, op := x.Shape(), FlattenShape(x.Shape(), s, e), Flatten(s, e);
    FlattenPlanned(from, s, e);
    OpSucceeds(op, x);
    FlattenValid(from, s, e);
    if ApplySplit(op, x).Some? {
      SplitOpSound(op, x);
    }
  }

  lemma FlattenPlanned(from: seq<nat>, s: nat, e: nat)
    requires s < e < |from| && ProperSizes(Prod(from[s..e + 1]), from[s..e + 1])
    ensures ReshapePlan(from, FlattenShape(from, s, e)) == ByFlatten(s, e)
  {
    hide Prod;
    var to := FlattenShape(from, s, e);
    assert to[s] == Prod(from[s..e + 1]);
    assert UnflattenShape(to, s, from[s..e + 1]) == from;
    ProperIsSplit(to, s, from[s..e + 1]);
    TooShort(from, to);
  }

  lemma TooShort(from: seq<nat>, to: seq<nat>)
    requires |to| < |from|
    ensures Classify(from, to) == NotASplit
  {
  }
}
