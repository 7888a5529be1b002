/** Views of split tensors to shapes with a dimension that is inferred from the others. */
module InferredViews {
  import opened Radices
  import opened Sharding
  import opened Tensors
  import opened Views
  import opened Wrappers

  // ---- Shapes with integer dimensions ----

  /** The first dimension that is not positive, or the rank. */
  function FirstDynamic(s: seq<int>): (p: nat)
    ensures p <= |s| && (p < |s| ==> s[p] <= 0) && forall k | 0 <= k < p :: s[k] > 0
  {
    if s == [] || s[0] <= 0 then 0 else 1 + FirstDynamic(s[1..])
  }

  /** At most one dimension is negative. */
  predicate OneNegative(s: seq<int>) {
    forall i, j | 0 <= i < j < |s| :: s[i] >= 0 || s[j] >= 0
  }

  predicate NoneNegative(s: seq<int>) {
    forall k | 0 <= k < |s| :: s[k] >= 0
  }

  function Naturals(s: seq<int>): (r: seq<nat>)
    requires NoneNegative(s)
    ensures r == s
  {
    s
  }

  /** All dimensions but one are positive. */
  predicate OthersPositive(s: seq<int>, p: nat) {
    p < |s| && forall k | 0 <= k < |s| && k != p :: s[k] > 0
  }

  /** The shape with `n` steps in dimension `p`. */
  function With(s: seq<int>, p: nat, n: nat): (r: seq<nat>)
    requires p < |s| && NoneNegative(s[p := 1])
    ensures r == s[p := n]
  {
    assert forall k | 0 <= k < |s| && k != p :: s[p := 1][k] >= 0 && s[p := n][k] == s[k];
    Naturals(s[p := n])
  }

  /** `_reshape_infer_dynamic_dim` for a new shape and a number of elements: the first dimension that is not positive is inferred.
      A further one stays as it is, and no tensor with elements has a view with it. */
  function InferDims(size: nat, s: seq<int>): Option<seq<nat>> {
    var p := FirstDynamic(s);
    if !OneNegative(s) then None
    else if p == |s| then Some(Naturals(s))
    else if !OthersPositive(s, p) then None
    else
      var m := Prod(With(s, p, 1));
      if m == 0 || size % m != 0 || size / m == 0 then None else Some(With(s, p, size / m))
  }

  function FirstNegative(s: seq<int>): (p: nat)
    ensures p <= |s| && (p < |s| ==> s[p] < 0) && forall k | 0 <= k < p :: s[k] >= 0
  {
    if s == [] || s[0] < 0 then 0 else 1 + FirstNegative(s[1..])
  }

  /** `torch.view`: a dimension of minus one is inferred. */
  function TorchView<E>(t: Tensor<E>, s: seq<int>): (r: Option<Tensor<E>>)
    ensures r.Some? ==> r.value.data == t.data && |r.value.shape| == |s|
  {
    var p := FirstNegative(s);
    if p == |s| then View(t, Naturals(s))
    else if s[p] != -1 || !NoneNegative(s[p := 1]) then None
    else
      var m := Prod(With(s, p, 1));
      if m == 0 || |t.data| % m != 0 then None else Some(Tensor(With(s, p, |t.data| / m), t.data))
  }

  function ViewEach<E>(ts: seq<Tensor<E>>, s: seq<int>): (r: Option<seq<Tensor<E>>>)
    ensures r.Some? ==> |r.value| == |ts| && forall i | 0 <= i < |ts| :: TorchView(ts[i], s) == Some(r.value[i])
  {
    if ts == [] then Some([])
    else
      match TorchView(ts[0], s)
      case None => None
      case Some(t) =>
        match ViewEach(ts[1..], s)
        case None => None
        case Some(rest) => Some([t] + rest)
  }

  /** The dimensions of a shard; the quotient is rounded down. */
  function ShardDims(s: seq<int>, dim: nat, count: nat): (r: seq<int>)
    requires dim < |s| && count > 0
    ensures |r| == |s| && forall k | 0 <= k < |s| && k != dim :: r[k] == s[k]
    ensures (s[dim] == 0 ==> r[dim] == 0) && (s[dim] >= 0 ==> r[dim] >= 0) && (s[dim] < 0 ==> r[dim] < 0)
  {
    s[dim := s[dim] / count]
  }

  /** The view of a split tensor: the classifier sees the inferred shape, the shards are viewed with the given one. */
  function ViewSplitAs<E>(x: Split<E>, s: seq<int>): (y: Option<Split<E>>)
    requires x.Valid()
    ensures y.Some? ==> y.value.Valid()
  {
    var from, count := x.Shape(), |x.shards|;
    match InferDims(Prod(from), s)
    case None => None
    case Some(to) =>
      match Classify(from, to)
      case NotASplit => None
      case AssertionFails => None
      case SplitRange(splitDim, _) =>
        if splitDim == x.dim && (from[splitDim] % count != 0 || s[splitDim] % count != 0) then None
        else
          var dim := ViewDim(x.dim, splitDim, |from|, |s|);
          ViewedAs(x.shards, ShardDims(s, dim, count), dim, Prod(from))
  }

  function ViewedAs<E>(shards: seq<Tensor<E>>, s: seq<int>, dim: nat, size: nat): (y: Option<Split<E>>)
    ensures y.Some? ==> y.value.Valid()
  {
    match ViewEach(shards, s)
    case None => None
    case Some(ts) =>
      match MakeSplit(ts, dim)
      case None => None
      case Some(y) => if Prod(y.Shape()) == size then Some(y) else None
  }

  // ---- What the shards look like ----

  /** The shards keep their elements, and get a shape that differs from the given one in one dimension only. */
  ghost predicate Relabelled<E>(x: Split<E>, y: Split<E>, to: seq<nat>, dim: nat) {
    && x.Valid() && y.Valid() && y.dim == dim < |to| && |y.shards| == |x.shards|
    && forall k | 0 <= k < |x.shards| ::
         |y.shards[k].shape| == |to| && y.shards[k] == Tensor(to[dim := y.shards[k].shape[dim]], x.shards[k].data)
  }

  lemma ViewedEach<E>(x: Split<E>, s: seq<int>, y: Split<E>)
    requires x.Valid() && ViewSplitAs(x, s) == Some(y)
    ensures InferDims(Prod(x.Shape()), s).Some?
    ensures var from, to := x.Shape(), InferDims(Prod(x.Shape()), s).value;
      && |from| <= |to| == |s| && Classify(from, to).SplitRange?
      && (Classify(from, to).start == x.dim ==> from[x.dim] % |x.shards| == 0 && s[x.dim] % |x.shards| == 0)
      && y.dim == ViewDim(x.dim, Classify(from, to).start, |from|, |to|) < |s|
      && Prod(y.Shape()) == Prod(from) && |y.shards| == |x.shards|
      && forall k | 0 <= k < |x.shards| :: TorchView(x.shards[k], ShardDims(s, y.dim, |x.shards|)) == Some(y.shards[k])
  {
    hide Prod;
  }

  /** Relabelling shards whose split dimension is tracked is viewing the whole. */
  lemma RelabelledView<E>(x: Split<E>, y: Split<E>, to: seq<nat>)
    requires x.Valid() && Positive(x.Shape()) && Positive(to) && Prod(to) == Prod(x.Shape()) && Classify(x.Shape(), to).SplitRange?
    requires y.Valid() && Relabelled(x, y, to, ViewDim(x.dim, Classify(x.Shape(), to).start, |x.Shape()|, |to|))
    ensures View(Unshard(x), to) == Some(Unshard(y))
  {
    hide Classify, Unshard, Prod;
    if x.Shape()[x.dim] >= 2 {
      ManySteps(x, y, to);
    } else {
      OneStepOnly(x, y, to);
    }
    RelabelledShape(y, to);
  }

  lemma ManySteps<E>(x: Split<E>, y: Split<E>, to: seq<nat>)
    requires x.Valid() && Positive(x.Shape()) && Positive(to) && Prod(to) == Prod(x.Shape()) && Classify(x.Shape(), to).SplitRange?
    requires y.Valid() && Relabelled(x, y, to, ViewDim(x.dim, Classify(x.Shape(), to).start, |x.Shape()|, |to|))
    requires x.Shape()[x.dim] >= 2
    ensures Unshard(y).data == Unshard(x).data
  {
    hide Classify, Prod, Unshard;
    ViewKeepsOuter(x.Shape(), to, x.dim);
    assert y.shards[0].shape[..y.dim] == to[..y.dim];
    assert x.shards[0].shape[..x.dim] == x.Shape()[..x.dim];
    UnshardRelabelled(x.shards, x.dim, y.shards, y.dim);
  }

  /** With a single step in the split dimension all elements are in one shard. */
  lemma OneStepOnly<E>(x: Split<E>, y: Split<E>, to: seq<nat>)
    requires x.Valid() && Positive(to) && y.Valid() && Relabelled(x, y, to, y.dim) && x.Shape()[x.dim] == 1
    ensures Unshard(y).data == Unshard(x).data
  {
    hide Prod, Unshard;
    var j := SingleStep(x.shards, x.dim);
    forall k | 0 <= k < |y.shards| && k != j ensures y.shards[k].shape[y.dim] == 0 {
      ProdZero(x.shards[k].shape, x.dim);
      NoElements(to, y.dim, y.shards[k].shape[y.dim]);
    }
    OnlyShardWhole(x.shards, x.dim, j);
    OnlyShardWhole(y.shards, y.dim, j);
  }

  lemma NoElements(s: seq<nat>, d: nat, n: nat)
    requires Positive(s) && d < |s| && Prod(s[d := n]) == 0
    ensures n == 0
  {
    hide Prod;
    if n > 0 {
      ProdPositive(s[d := n]);
    }
  }

  lemma RelabelledShape<E>(y: Split<E>, to: seq<nat>)
    requires y.Valid() && Positive(to) && y.dim < |to| && |Unshard(y).data| == Prod(to)
    requires |y.shards[0].shape| == |to| && y.shards[0].shape == to[y.dim := y.shards[0].shape[y.dim]]
    ensures Unshard(y).shape == to
  {
    hide Prod, Unshard;
    var n := DimSum(y.shards, y.dim);
    assert y.Shape() == to[y.dim := n];
    OneDimension(to, y.dim, n);
  }

  // ---- The cases ----

  /** Some shard of a tensor with elements has elements. */
  lemma NonEmptyShard<E>(x: Split<E>) returns (k: nat)
    requires x.Valid() && Positive(x.Shape())
    ensures k < |x.shards| && |x.shards[k].data| > 0
  {
    hide Prod;
    SumOfNone(x.shards, x.dim);
    assert x.Shape()[x.dim] > 0;
    k :| 0 <= k < |x.shards| && x.shards[k].shape[x.dim] != 0;
    assert x.shards[k].shape[x.dim := 1] == x.Shape()[x.dim := 1];
    forall c | 0 <= c < |x.shards[k].shape| ensures x.shards[k].shape[c] > 0 {
      assert c != x.dim ==> x.shards[k].shape[x.dim := 1][c] == x.Shape()[x.dim := 1][c];
    }
    ProdPositive(x.shards[k].shape);
  }

  lemma NoZeroView<E>(t: Tensor<E>, s: seq<int>, z: nat)
    requires |t.data| > 0 && z < |s| && s[z] == 0
    ensures TorchView(t, s) == None
  {
    hide Prod;
    var p := FirstNegative(s);
    if p == |s| {
      ProdZero(Naturals(s), z);
    } else if NoneNegative(s[p := 1]) {
      ProdZero(With(s, p, 1), z);
    }
  }

  lemma NoZero<E>(x: Split<E>, s: seq<int>, y: Split<E>)
    requires x.Valid() && Positive(x.Shape()) && ViewSplitAs(x, s) == Some(y)
    ensures forall z | 0 <= z < |s| :: s[z] != 0
  {
    hide Prod, TorchView, Classify, InferDims, ShardDims;
    ViewedEach(x, s, y);
    var k := NonEmptyShard(x);
    var s' := ShardDims(s, y.dim, |x.shards|);
    assert TorchView(x.shards[k], s').Some?;
    forall z | 0 <= z < |s| ensures s[z] != 0 {
      if s[z] == 0 {
        assert s'[z] == 0;
        NoZeroView(x.shards[k], s', z);
      }
    }
  }

  lemma {:induction false} EachIsAll<E>(ts: seq<Tensor<E>>, s: seq<int>)
    requires NoneNegative(s)
    ensures ViewEach(ts, s) == ViewAll(ts, Naturals(s))
  {
    if ts != [] {
      EachIsAll(ts[1..], s);
    }
  }

  lemma NothingInferred(size: nat, s: seq<int>)
    requires FirstDynamic(s) == |s|
    ensures NoneNegative(s) && InferDims(size, s) == Some(Naturals(s))
  {
  }

  lemma PositiveShardDims(s: seq<int>, dim: nat, count: nat)
    requires NoneNegative(s) && dim < |s| && count > 0
    ensures ShardDims(s, dim, count) == Naturals(s)[dim := Naturals(s)[dim] / count]
  {
  }

  lemma PositiveViewed<E>(shards: seq<Tensor<E>>, s: seq<int>, dim: nat, size: nat, y: Split<E>)
    requires NoneNegative(s) && ViewedAs(shards, s, dim, size) == Some(y)
    ensures ViewAll(shards, Naturals(s)).Some? && MakeSplit(ViewAll(shards, Naturals(s)).value, dim) == Some(y)
  {
    EachIsAll(shards, s);
  }

  /** Without a dimension to infer this is the view as it is. */
  lemma PositiveView<E>(x: Split<E>, s: seq<int>, y: Split<E>)
    requires x.Valid() && FirstDynamic(s) == |s| && ViewSplitAs(x, s) == Some(y)
    ensures NoneNegative(s) && InferDims(Prod(x.Shape()), s) == Some(Naturals(s)) && ViewSplit(x, Naturals(s)) == Some(y)
  {
    NothingInferred(Prod(x.Shape()), s);
    hide Prod, Classify, InferDims, ViewedAs, ViewAll, MakeSplit, Split.Valid, FirstDynamic;
    hide ShardDims;
    ViewedEach(x, s, y);
    PositiveShardDims(s, y.dim, |x.shards|);
    PositiveViewed(x.shards, ShardDims(s, y.dim, |x.shards|), y.dim, Prod(x.Shape()), y);
  }

  /** What is known if dimension `p` is inferred. */
  lemma Inferred(size: nat, s: seq<int>, p: nat)
    requires OthersPositive(s, p) && s[p] <= 0 && InferDims(size, s).Some?
    ensures NoneNegative(s[p := 1]) && InferDims(size, s).value == s[p := InferDims(size, s).value[p]]
    ensures Positive(InferDims(size, s).value) && Prod(InferDims(size, s).value) == size
  {
    hide Prod;
    assert FirstDynamic(s) == p;
    var to := InferDims(size, s).value;
    assert forall k | 0 <= k < |s| && k != p :: to[k] == s[k];
    ProdWith(With(s, p, 1), p, to[p]);
    assert to == With(s, p, 1)[p := to[p]];
    assert size == size / Prod(With(s, p, 1)) * Prod(With(s, p, 1));
  }

  lemma ProdWith(s: seq<nat>, p: nat, n: nat)
    requires p < |s| && s[p] == 1
    ensures Prod(s[p := n]) == n * Prod(s)
  {
    hide Prod;
    ProdAround(s, p);
    ProdAround(s[p := n], p);
    assert s[p := n][..p] == s[..p] && s[p := n][p + 1..] == s[p + 1..];
    Reorder(n, Prod(s[..p]), Prod(s[p + 1..]));
  }

  lemma Reorder(n: nat, a: nat, b: nat)
    ensures a * (n * b) == n * (a * (1 * b))
  {
  }

  /** The shape of a shard that is viewed with one inferred dimension. */
  lemma InferredShard<E>(t: Tensor<E>, s: seq<int>, p: nat, v: Tensor<E>)
    requires OthersPositive(s, p) && s[p] < 0 && TorchView(t, s) == Some(v)
    ensures s[p] == -1 && v == Tensor(s[p := v.shape[p]], t.data)
  {
    hide Prod;
    assert FirstNegative(s) == p;
  }

  /** The inferred dimension is the split one: each shard infers its own part of it. */
  lemma InferredSplitDim<E>(x: Split<E>, s: seq<int>, y: Split<E>, to: seq<nat>)
    requires x.Valid() && Positive(x.Shape()) && ViewSplitAs(x, s) == Some(y) && InferDims(Prod(x.Shape()), s) == Some(to)
    requires y.Valid() && y.dim < |s| && OthersPositive(s, y.dim) && s[y.dim] < 0
    ensures Relabelled(x, y, to, y.dim)
  {
    hide Prod, TorchView, Classify, InferDims;
    ViewedEach(x, s, y);
    Inferred(Prod(x.Shape()), s, y.dim);
    var s' := ShardDims(s, y.dim, |x.shards|);
    forall k | 0 <= k < |x.shards|
      ensures |y.shards[k].shape| == |to| && y.shards[k] == Tensor(to[y.dim := y.shards[k].shape[y.dim]], x.shards[k].data)
    {
      InferredShard(x.shards[k], s', y.dim, y.shards[k]);
      assert s'[y.dim := y.shards[k].shape[y.dim]] == to[y.dim := y.shards[k].shape[y.dim]];
    }
  }

  /** A dimension that the shards share evenly is shared evenly in the new shape. */
  lemma TrackedDivides(from: seq<nat>, to: seq<nat>, d: nat, c: nat, dim: nat)
    requires Positive(from) && Positive(to) && Prod(from) == Prod(to) && Classify(from, to).SplitRange?
    requires d < |from| && c > 0 && from[d] % c == 0 && |from| <= |to| && dim == ViewDim(d, Classify(from, to).start, |from|, |to|) < |to|
    requires Classify(from, to).start == d ==> to[d] % c == 0
    ensures to[dim] % c == 0
  {
    hide Classify, Prod, LongestEqualRange, ReversedEqualRange;
    SplitRangeIs(from, to);
    var i := LongestEqualRange(from, to);
    if d < i {
      assert to[d] == to[..i][d] == from[..i][d];
    } else if d > i {
      TrackedShared(from, to, d, c, dim);
    }
  }

  lemma TrackedShared(from: seq<nat>, to: seq<nat>, d: nat, c: nat, dim: nat)
    requires Positive(from) && Positive(to) && Prod(from) == Prod(to) && Classify(from, to).SplitRange?
    requires Classify(from, to).start < d < |from| <= |to| && c > 0 && from[d] % c == 0 && dim == d + |to| - |from|
    ensures to[dim] % c == 0
  {
    hide Classify, Prod, LongestEqualRange, ReversedEqualRange;
    if c > 1 {
      AtLeastDivisor(from[d], c);
      LargeDimIsShared(from, to, d);
      var r := ReversedEqualRange(from, to);
      assert to[dim] == to[|to| - r..][dim - (|to| - r)] == from[|from| - r..][d - (|from| - r)];
    }
  }

  lemma AtLeastDivisor(n: nat, c: nat)
    requires n > 0 && c > 1 && n % c == 0
    ensures n >= 2
  {
  }

  /** The shards of a view whose split dimension is given all have one shape. */
  lemma OneShape<E>(x: Split<E>, s: seq<int>, y: Split<E>, p: nat) returns (f: nat, q: nat)
    requires x.Valid() && Positive(x.Shape()) && ViewSplitAs(x, s) == Some(y)
    requires y.Valid() && y.dim < |s| && y.dim != p && OthersPositive(s, p) && s[p] < 0
    ensures f == s[y.dim] / |x.shards| && NoneNegative(s[p := 1]) && HaveShape(x.shards, y.shards, With(s, p, q)[y.dim := f])
  {
    hide Prod, TorchView, Classify, InferDims, ShardDims;
    ViewedEach(x, s, y);
    var s' := ShardDims(s, y.dim, |x.shards|);
    var j := NonEmptyShard(x);
    assert TorchView(x.shards[j], s').Some?;
    if s'[y.dim] == 0 {
      NoZeroView(x.shards[j], s', y.dim);
    }
    f := s'[y.dim];
    FirstOfOne(x.shards, y, s', p);
    q := y.shards[0].shape[p];
    GivenQuotient(s, y.dim, |x.shards|);
    assert s'[p := q] == With(s, p, q)[y.dim := f];
  }

  /** The second tensors have the elements of the first ones and one shape. */
  ghost predicate HaveShape<E>(ts: seq<Tensor<E>>, us: seq<Tensor<E>>, shape: seq<nat>) {
    |us| == |ts| && forall k | 0 <= k < |ts| :: us[k] == Tensor(shape, ts[k].data)
  }

  lemma GivenQuotient(s: seq<int>, d: nat, c: nat)
    requires d < |s| && c > 0
    ensures ShardDims(s, d, c)[d] == s[d] / c
  {
  }

  lemma FirstOfOne<E>(ts: seq<Tensor<E>>, y: Split<E>, s: seq<int>, p: nat)
    requires y.Valid() && |y.shards| == |ts| && y.dim != p && OthersPositive(s, p) && s[p] < 0
    requires forall k | 0 <= k < |ts| :: TorchView(ts[k], s) == Some(y.shards[k])
    ensures p < |y.shards[0].shape|
    ensures forall k | 0 <= k < |ts| :: y.shards[k] == Tensor(s[p := y.shards[0].shape[p]], ts[k].data)
  {
    hide Prod, TorchView;
    forall k | 0 <= k < |ts| ensures y.shards[k] == Tensor(s[p := y.shards[k].shape[p]], ts[k].data) {
      InferredShard(ts[k], s, p, y.shards[k]);
    }
    forall k | 0 <= k < |ts| ensures |y.shards[k].shape| == |s| && y.shards[k].shape[p] == y.shards[0].shape[p] {
      assert y.shards[k].shape == y.shards[0].shape[y.dim := y.shards[k].shape[y.dim]];
    }
  }

  /** Another dimension is inferred: every shard infers all of it. */
  lemma InferredOtherDim<E>(x: Split<E>, s: seq<int>, y: Split<E>, to: seq<nat>, p: nat)
    requires x.Valid() && Positive(x.Shape()) && ViewSplitAs(x, s) == Some(y) && InferDims(Prod(x.Shape()), s) == Some(to)
    requires y.Valid() && y.dim < |s| && y.dim != p && OthersPositive(s, p) && s[p] < 0
    ensures Relabelled(x, y, to, y.dim)
  {
    hide Prod, Classify, InferDims, TorchView, ViewSplitAs;
    var c, dim := |x.shards|, y.dim;
    ViewedEach(x, s, y);
    Inferred(Prod(x.Shape()), s, p);
    var f, q := OneShape(x, s, y, p);
    var size := Prod(y.shards[0].shape);
    forall k | 0 <= k < c ensures |x.shards[k].data| == size {
      assert y.shards[k].Valid();
    }
    var n := EqualShards(x, size);
    assert to[dim] == s[dim];
    TrackedDivides(x.Shape(), to, x.dim, c, dim);
    var given := to[p := q];
    assert given[dim := given[dim] / c] == y.shards[0].shape;
    RoundedProduct(given, dim, c);
    OneDimension(to, p, q);
    assert s[p := q] == to;
  }

  // ---- The theorem ----

  /** Whenever viewing a split tensor succeeds, also with a dimension that is inferred, it is the row-major view of the whole
      tensor to the inferred shape. */
  lemma ViewSplitAsSound<E>(x: Split<E>, s: seq<int>, y: Split<E>)
    requires x.Valid() && Positive(x.Shape()) && ViewSplitAs(x, s) == Some(y)
    ensures InferDims(Prod(x.Shape()), s).Some?
    ensures View(Unshard(x), InferDims(Prod(x.Shape()), s).value) == Some(Unshard(y))
  {
    hide Prod, Classify, InferDims, ViewSplitAs, Unshard, ViewSplit;
    NoZero(x, s, y);
    ViewedEach(x, s, y);
    var p, to := FirstDynamic(s), InferDims(Prod(x.Shape()), s).value;
    if p == |s| {
      PositiveView(x, s, y);
      ViewSplitSound(x, Naturals(s));
    } else {
      DynamicIsOnly(Prod(x.Shape()), s);
      Inferred(Prod(x.Shape()), s, p);
      if p == y.dim {
        InferredSplitDim(x, s, y, to);
      } else {
        InferredOtherDim(x, s, y, to, p);
      }
      RelabelledView(x, y, to);
    }
  }

  lemma DynamicIsOnly(size: nat, s: seq<int>)
    requires FirstDynamic(s) < |s| && InferDims(size, s).Some?
    ensures OthersPositive(s, FirstDynamic(s))
  {
  }

  /** It is what `torch.view` of the whole gives exactly if no dimension is below minus one: rounding down turns minus the number
      of shards into minus one. */
  lemma ViewSplitAsIsView<E>(x: Split<E>, s: seq<int>, y: Split<E>)
    requires x.Valid() && Positive(x.Shape()) && ViewSplitAs(x, s) == Some(y)
    ensures TorchView(Unshard(x), s) == Some(Unshard(y)) <==> forall k | 0 <= k < |s| :: s[k] >= -1
  {
    hide Prod, Unshard, ViewSplitAs;
    ViewSplitAsSound(x, s, y);
    NoZero(x, s, y);
    var p := FirstDynamic(s);
    if p < |s| {
      DynamicIsOnly(Prod(x.Shape()), s);
      assert FirstNegative(s) == p;
    }
  }

  // ---- When the view succeeds ----

  /** A tensor with as many elements as a shape is viewed with it if one dimension is left to infer. */
  lemma ViewedWith<E>(t: Tensor<E>, s: seq<int>, p: nat, v: seq<nat>)
    requires OthersPositive(s, p) && s[p] == -1 && |v| == |s| && v == s[p := v[p]] && |t.data| == Prod(v)
    ensures TorchView(t, s) == Some(Tensor(v, t.data))
  {
    hide Prod;
    assert FirstNegative(s) == p;
    var ones := With(s, p, 1);
    ProdPositive(ones);
    ProdWith(ones, p, v[p]);
    assert ones[p := v[p]] == v;
    RadixDigits(v[p], 0, Prod(ones));
    assert With(s, p, v[p]) == v;
  }

  lemma {:induction false} EachViewedWith<E>(ts: seq<Tensor<E>>, s: seq<int>, p: nat, v: seq<nat>)
    requires OthersPositive(s, p) && s[p] == -1 && |v| == |s| && v == s[p := v[p]] && ViewAll(ts, v).Some?
    ensures ViewEach(ts, s) == ViewAll(ts, v)
  {
    hide Prod, TorchView;
    if ts != [] {
      ViewedWith(ts[0], s, p, v);
      EachViewedWith(ts[1..], s, p, v);
    }
  }

  /** Without a dimension to infer the view is the one to the shape as it is. */
  lemma PositiveViewIs<E>(x: Split<E>, s: seq<int>)
    requires x.Valid() && Positive(x.Shape()) && FirstDynamic(s) == |s|
    ensures NoneNegative(s) && ViewSplitAs(x, s) == ViewSplit(x, Naturals(s))
  {
    hide Prod, Classify, InferDims;
    NothingInferred(Prod(x.Shape()), s);
    if ViewSplitAs(x, s).Some? {
      PositiveView(x, s, ViewSplitAs(x, s).value);
    }
    if ViewSplit(x, Naturals(s)).Some? {
      var y := ViewSplit(x, Naturals(s)).value;
      ViewedShards(x, Naturals(s), y);
      PositiveShardDims(s, y.dim, |x.shards|);
      EachIsAll(x.shards, ShardDims(s, y.dim, |x.shards|));
      SizeKept(x, Naturals(s), y);
    }
  }

  lemma SizeKept<E>(x: Split<E>, to: seq<nat>, y: Split<E>)
    requires x.Valid() && Positive(x.Shape()) && Positive(to) && ViewSplit(x, to) == Some(y)
    ensures Prod(y.Shape()) == Prod(x.Shape())
  {
    hide Prod, Unshard, ViewSplit;
    ViewSplitSound(x, to);
  }

  /** Where the view to the inferred shape succeeds, so does the one that leaves a dimension to infer, with the same result, unless
      the dimension is the split one, is split further, and there are several shards. */
  lemma InferredSucceeds<E>(x: Split<E>, s: seq<int>, p: nat, to: seq<nat>, y: Split<E>)
    requires x.Valid() && Positive(x.Shape()) && OthersPositive(s, p) && s[p] == -1
    requires InferDims(Prod(x.Shape()), s) == Some(to) && ViewSplit(x, to) == Some(y)
    ensures ViewSplitAs(x, s) == if p == x.dim == Classify(x.Shape(), to).start && |x.shards| > 1 then None else Some(y)
  {
    hide Prod, Classify, InferDims, TorchView, ViewAll;
    Inferred(Prod(x.Shape()), s, p);
    ViewedShards(x, to, y);
    SizeKept(x, to, y);
    var c, dim := |x.shards|, y.dim;
    var v := to[dim := to[dim] / c];
    assert ViewAll(x.shards, v).Some? && MakeSplit(ViewAll(x.shards, v).value, dim) == Some(y);
    var d := ShardDims(s, dim, c);
    if p == dim {
      MinusOneStays(c);
      assert d == s && v == d[p := v[p]];
      EachViewedWith(x.shards, d, p, v);
    } else {
      assert to[dim] == s[dim];
      ShardPositive(x, to, y);
      GivenQuotient(s, dim, c);
      assert d == s[dim := v[dim]] && v == d[p := v[p]];
      EachViewedWith(x.shards, d, p, v);
    }
  }

  lemma MinusOneStays(c: nat)
    requires c > 0
    ensures -1 / c == -1 && (-1 % c == 0 <==> c == 1)
  {
  }

  lemma ShardPositive<E>(x: Split<E>, to: seq<nat>, y: Split<E>)
    requires x.Valid() && Positive(x.Shape()) && ViewSplit(x, to) == Some(y)
    ensures y.dim < |to| && to[y.dim] / |x.shards| > 0
  {
    hide Prod;
    ViewedShards(x, to, y);
    var k := NonEmptyShard(x);
    if to[y.dim] / |x.shards| == 0 {
      ProdZero(y.shards[k].shape, y.dim);
    }
  }

  /** Two shards of one element each are viewed as minus two elements, which is no view of the whole. */
  lemma MinusTwoViewed<E>(x: Split<E>) returns (y: Split<E>)
    requires x.Valid() && x.dim == 0 && |x.shards| == 2 && x.shards[0].shape == x.shards[1].shape == [1]
    ensures ViewSplitAs(x, [-2]) == Some(y)
    ensures TorchView(Unshard(x), [-2]) == None
  {
    hide Unshard, ViewedAs, Classify;
    SumOfEqual(x.shards, 0, 1);
    assert x.Shape() == [2];
    ProdOne(2);
    MinusTwoInferred();
    TwoIsTwo();
    assert ShardDims([-2], 0, 2) == [-1];
    y := OnesViewed(x);
    NoMinusTwo(Unshard(x));
  }

  lemma MinusTwoInferred()
    ensures InferDims(2, [-2]) == Some([2])
  {
    var s: seq<int> := [-2];
    ProdOne(1);
    assert s[0 := 1] == [1] && s[0 := 2] == [2];
  }

  lemma TwoIsTwo()
    ensures Classify([2], [2]) == SplitRange(1, 1)
  {
  }

  lemma NoMinusTwo<E>(t: Tensor<E>)
    ensures TorchView(t, [-2]) == None
  {
    var s: seq<int> := [-2];
    assert FirstNegative(s) == 0;
  }

  lemma OnesViewed<E>(x: Split<E>) returns (y: Split<E>)
    requires x.Valid() && x.dim == 0 && |x.shards| == 2 && x.shards[0].shape == x.shards[1].shape == [1] && x.Shape() == [2]
    ensures ViewedAs(x.shards, [-1], 0, 2) == Some(y)
  {
    hide TorchView, Prod;
    OneViewed(x.shards[0]);
    OneViewed(x.shards[1]);
    SameViews(x.shards, [-1]);
    y := Split(x.shards, 0);
    assert MakeSplit(x.shards, 0) == Some(y);
    assert Prod(y.Shape()) == 2 by {
      ProdOne(2);
    }
  }

  lemma {:induction false} SameViews<E>(ts: seq<Tensor<E>>, s: seq<int>)
    requires forall i | 0 <= i < |ts| :: TorchView(ts[i], s) == Some(ts[i])
    ensures ViewEach(ts, s) == Some(ts)
  {
    hide TorchView;
    if ts != [] {
      SameViews(ts[1..], s);
      assert ts == [ts[0]] + ts[1..];
    }
  }

  lemma OneViewed<E>(t: Tensor<E>)
    requires t.Valid() && t.shape == [1]
    ensures TorchView(t, [-1]) == Some(t)
  {
    var s: seq<int> := [-1];
    ProdOne(1);
    assert s[0 := 1] == [1];
  }
}
