/** Views and reshapes of split tensors: the classifier that recognises the splitting of one dimension,
    and what it takes for the shards to be viewed one by one. */
module Views {
  import opened Radices
  import opened ShapePrograms
  import opened Sharding
  import opened Tensors
  import opened Wrappers

  // ---- Classifying a reshape ----

  /** The greatest `i` such that the first `i` entries agree. */
  function LongestEqualRange(s: seq<nat>, t: seq<nat>): (i: nat)
    ensures i <= |s| && i <= |t| && s[..i] == t[..i]
    ensures i == |s| || i == |t| || s[i] != t[i]
  {
    if s == [] || t == [] || s[0] != t[0] then 0
    else
      var i := 1 + LongestEqualRange(s[1..], t[1..]);
      assert s[..i] == [s[0]] + s[1..][..i - 1] && t[..i] == [t[0]] + t[1..][..i - 1];
      i
  }

  /** The number of equal entries at the end. */
  function TrailingEqual(s: seq<nat>, t: seq<nat>): (r: nat)
    ensures r <= |s| && r <= |t| && s[|s| - r..] == t[|t| - r..]
  {
    if s == [] || t == [] || s[|s| - 1] != t[|t| - 1] then 0
    else
      var r := 1 + TrailingEqual(s[..|s| - 1], t[..|t| - 1]);
      assert s[|s| - r..] == s[..|s| - 1][|s| - r..] + [s[|s| - 1]];
      assert t[|t| - r..] == t[..|t| - 1][|t| - r..] + [t[|t| - 1]];
      r
  }

  lemma {:induction false} TrailingStops(s: seq<nat>, t: seq<nat>)
    ensures var r := TrailingEqual(s, t); r == |s| || r == |t| || s[|s| - 1 - r] != t[|t| - 1 - r]
  {
    if s != [] && t != [] && s[|s| - 1] == t[|t| - 1] {
      TrailingStops(s[..|s| - 1], t[..|t| - 1]);
    }
  }

  /** The same search over reversed iterators.  When it runs to the end of one of them it measures what is left
      of the iterators, which is nothing, so a complete match counts as no match at all. */
  function ReversedEqualRange(s: seq<nat>, t: seq<nat>): (r: nat)
    ensures r <= |s| && r <= |t| && s[|s| - r..] == t[|t| - r..]
  {
    var r := TrailingEqual(s, t);
    if r == |s| || r == |t| then 0 else r
  }

  datatype Classified = NotASplit | AssertionFails | SplitRange(start: nat, length: nat)

  /** Whether a reshape splits a single dimension, and which one. */
  function Classify(from: seq<nat>, to: seq<nat>): Classified {
    if |to| < |from| then NotASplit
    else
      var i := LongestEqualRange(from, to);
      var length := |to| - |from| + 1;
      if i == |from| then SplitRange(i, length)
      else
        var j := |to| - ReversedEqualRange(from, to);
        if i >= j then AssertionFails
        else
          var expected := Prod(to[i..j]);
          if expected == 1 then SplitRange(i, length)
          else if expected != from[i] then NotASplit
          else SplitRange(i, length)
  }

  // ---- Views ----

  function View<E>(t: Tensor<E>, shape: seq<nat>): Option<Tensor<E>> {
    if Prod(shape) == |t.data| then Some(Tensor(shape, t.data)) else None
  }

  function ViewAll<E>(ts: seq<Tensor<E>>, shape: seq<nat>): (r: Option<seq<Tensor<E>>>)
    ensures r.Some? ==> |r.value| == |ts| && forall i | 0 <= i < |ts| :: View(ts[i], shape) == Some(r.value[i])
  {
    if ts == [] then Some([])
    else
      match View(ts[0], shape)
      case None => None
      case Some(t) =>
        match ViewAll(ts[1..], shape)
        case None => None
        case Some(rest) => Some([t] + rest)
  }

  function ViewDim(dim: nat, splitDim: nat, fromRank: nat, toRank: nat): nat
    requires fromRank <= toRank
  {
    if dim > splitDim then dim + (toRank - fromRank) else dim
  }

  function ViewSplit<E>(x: Split<E>, shape: seq<nat>): (y: Option<Split<E>>)
    requires x.Valid()
    ensures y.Some? ==> y.value.Valid()
  {
    var from := x.Shape();
    var count := |x.shards|;
    match Classify(from, shape)
    case NotASplit => None
    case AssertionFails => None
    case SplitRange(splitDim, _) =>
      if splitDim == x.dim && (from[splitDim] % count != 0 || shape[splitDim] % count != 0) then None
      else
        ViewShards(x.shards, shape, ViewDim(x.dim, splitDim, |from|, |shape|))
  }

  function ViewShards<E>(shards: seq<Tensor<E>>, shape: seq<nat>, dim: nat): (y: Option<Split<E>>)
    requires shards != [] && dim < |shape|
    ensures y.Some? ==> y.value.Valid()
  {
    match ViewAll(shards, shape[dim := shape[dim] / |shards|])
    case None => None
    case Some(ts) => MakeSplit(ts, dim)
  }

  predicate Positive(s: seq<nat>) {
    forall i | 0 <= i < |s| :: s[i] > 0
  }

  lemma {:induction false} ProdPositive(s: seq<nat>)
    requires Positive(s)
    ensures Prod(s) > 0
  {
    if s != [] {
      ProdPositive(s[1..]);
      assert s[0] * Prod(s[1..]) >= 1 * Prod(s[1..]);
    }
  }

  lemma {:induction false} ProdAtLeastFactor(s: seq<nat>, k: nat)
    requires Positive(s) && k < |s|
    ensures Prod(s) >= s[k]
  {
    ProdPositive(s[1..]);
    if k == 0 {
      assert s[0] * Prod(s[1..]) >= s[0] * 1;
    } else {
      ProdAtLeastFactor(s[1..], k - 1);
      assert s[0] * Prod(s[1..]) >= 1 * Prod(s[1..]);
    }
  }

  lemma ProdSplit(s: seq<nat>, i: nat)
    requires i <= |s|
    ensures Prod(s) == Prod(s[..i]) * Prod(s[i..])
  {
    ProdConcat(s[..i], s[i..]);
    assert s == s[..i] + s[i..];
  }

  lemma CancelRight(x: nat, y: nat, n: nat)
    requires n > 0 && x * n == y * n
    ensures x == y
  {
    SameFactor(n, x, y);
  }

  /** A dimension of size two or more that comes after the split one lies in the part both shapes share. */
  lemma LargeDimIsShared(from: seq<nat>, to: seq<nat>, d: nat)
    requires Positive(from) && Positive(to) && Prod(from) == Prod(to) && Classify(from, to).SplitRange?
    requires Classify(from, to).start < d < |from| && from[d] >= 2
    ensures d >= |from| - ReversedEqualRange(from, to)
  {
    hide Classify, Prod, LongestEqualRange, ReversedEqualRange;
    SplitRangeIs(from, to);
    var i, r := LongestEqualRange(from, to), ReversedEqualRange(from, to);
    if d < |from| - r {
      LargeInMiddle(from, to, d, i, |from| - r, |to| - r);
    }
  }

  lemma SplitRangeIs(from: seq<nat>, to: seq<nat>)
    requires Classify(from, to).SplitRange?
    ensures |from| <= |to| && Classify(from, to).start == LongestEqualRange(from, to)
    ensures var i, j := LongestEqualRange(from, to), |to| - ReversedEqualRange(from, to);
      i < |from| ==> i < j && (Prod(to[i..j]) == 1 || Prod(to[i..j]) == from[i])
  {
  }

  lemma LargeInMiddle(from: seq<nat>, to: seq<nat>, d: nat, i: nat, q: nat, j: nat)
    requires Positive(from) && Positive(to) && Prod(from) == Prod(to)
    requires i < d < q <= |from| && i <= j <= |to| && from[..i] == to[..i] && from[q..] == to[j..] && from[d] >= 2
    ensures Prod(to[i..j]) > from[i]
  {
    MiddleProducts(from, to, i, q, j);
    ExceedsFirst(from[i..q], d - i);
  }

  lemma ExceedsFirst(s: seq<nat>, k: nat)
    requires Positive(s) && 0 < k < |s| && s[k] >= 2
    ensures Prod(s) > s[0]
  {
    var rest := s[1..];
    ProdAtLeastFactor(rest, k - 1);
    ProductExceeds(s[0], Prod(rest));
  }

  lemma ProductExceeds(a: nat, b: nat)
    requires a > 0 && b >= 2
    ensures a * b > a
  {
    assert a * b >= a * 2;
  }

  /** Shapes of equal size that agree at both ends have middles of equal size. */
  lemma MiddleProducts(from: seq<nat>, to: seq<nat>, i: nat, q: nat, j: nat)
    requires Positive(from) && Prod(from) == Prod(to)
    requires i <= q <= |from| && i <= j <= |to| && from[..i] == to[..i] && from[q..] == to[j..]
    ensures Prod(from[i..q]) == Prod(to[i..j])
  {
    PrefixProducts(from, to, q, j);
    SuffixProducts(from[..q], to[..j], i);
    assert from[..q][i..] == from[i..q] && to[..j][i..] == to[i..j];
  }

  lemma SuffixProducts(from: seq<nat>, to: seq<nat>, i: nat)
    requires Positive(from) && Prod(from) == Prod(to) && i <= |from| && i <= |to| && from[..i] == to[..i]
    ensures Prod(from[i..]) == Prod(to[i..])
  {
    ProdSplit(from, i);
    ProdSplit(to, i);
    ProdPositive(from[..i]);
    SameFactor(Prod(from[..i]), Prod(from[i..]), Prod(to[i..]));
  }

  lemma PrefixProducts(from: seq<nat>, to: seq<nat>, q: nat, j: nat)
    requires Positive(from) && Prod(from) == Prod(to) && q <= |from| && j <= |to| && from[q..] == to[j..]
    ensures Prod(from[..q]) == Prod(to[..j])
  {
    ProdSplit(from, q);
    ProdSplit(to, j);
    ProdPositive(from[q..]);
    CancelRight(Prod(from[..q]), Prod(to[..j]), Prod(from[q..]));
  }

  /** The tracked dimension of a view comes after as many steps as the split dimension did before it. */
  lemma ViewKeepsOuter(from: seq<nat>, to: seq<nat>, d: nat)
    requires Positive(from) && Positive(to) && Prod(from) == Prod(to) && Classify(from, to).SplitRange?
    requires d < |from| && from[d] >= 2
    ensures var d' := ViewDim(d, Classify(from, to).start, |from|, |to|);
      d' < |to| && Outer(to, d') == Outer(from, d)
  {
    hide Prod, LongestEqualRange, ReversedEqualRange;
    var i := LongestEqualRange(from, to);
    if d <= i {
      assert from[..d] == from[..i][..d] == to[..i][..d] == to[..d];
    } else {
      LargeDimIsShared(from, to, d);
      var r := ReversedEqualRange(from, to);
      var d' := d + (|to| - |from|);
      assert from[d..] == from[|from| - r..][d - (|from| - r)..];
      assert to[d'..] == to[|to| - r..][d' - (|to| - r)..];
      PrefixProducts(from, to, d, d');
    }
  }

  lemma {:induction false} ProdZero(s: seq<nat>, k: nat)
    requires k < |s| && s[k] == 0
    ensures Prod(s) == 0
  {
    if k > 0 {
      ProdZero(s[1..], k - 1);
    }
  }

  lemma OneDimension(s: seq<nat>, d: nat, n: nat)
    requires Positive(s) && d < |s| && Prod(s[d := n]) == Prod(s)
    ensures n == s[d]
  {
    var before, after := s[..d], s[d + 1..];
    ProdAround(s, d);
    ProdAround(s[d := n], d);
    assert s[d := n][..d] == before && s[d := n][d + 1..] == after;
    ProdPositive(before);
    ProdPositive(after);
    SameFactor(Prod(before), s[d] * Prod(after), n * Prod(after));
    CancelRight(s[d], n, Prod(after));
  }

  lemma ProdAround(s: seq<nat>, d: nat)
    requires d < |s|
    ensures Prod(s) == Prod(s[..d]) * (s[d] * Prod(s[d + 1..]))
  {
    ProdSplit(s, d);
    ChunkOf(s, d);
  }

  lemma ViewedShards<E>(x: Split<E>, shape: seq<nat>, y: Split<E>)
    requires x.Valid() && ViewSplit(x, shape) == Some(y)
    ensures Classify(x.Shape(), shape).SplitRange?
    ensures var dim := ViewDim(x.dim, Classify(x.Shape(), shape).start, |x.Shape()|, |shape|);
      && y.dim == dim < |shape| && |y.shards| == |x.shards|
      && forall i | 0 <= i < |x.shards| ::
           y.shards[i] == Tensor(shape[dim := shape[dim] / |x.shards|], x.shards[i].data) && y.shards[i].Valid()
  {
  }

  lemma PositiveFactor(c: nat, n: nat)
    requires c * n > 0
    ensures n > 0
  {
  }

  lemma Multiple(c: nat, n: nat)
    requires c > 0 && n > 0
    ensures c * n >= c && (c * n) % c == 0
  {
    RadixDigits(n, 0, c);
  }

  /** Shards of equal size, together not empty, are equally long in the split dimension. */
  lemma EqualShards<E>(x: Split<E>, size: nat) returns (n: nat)
    requires x.Valid() && Positive(x.Shape()) && forall i | 0 <= i < |x.shards| :: |x.shards[i].data| == size
    ensures n > 0 && x.Shape()[x.dim] >= |x.shards| && x.Shape()[x.dim] % |x.shards| == 0
    ensures Prod(x.Shape()[x.dim := n]) == size && |x.shards| * size == Prod(x.Shape())
  {
    hide Prod;
    var first := x.shards[0].shape;
    n := first[x.dim];
    UnshardLength(x.shards, x.dim, size);
    ProdPositive(x.Shape());
    PositiveFactor(|x.shards|, size);
    assert first[x.dim := 1] == x.Shape()[x.dim := 1];
    forall i | 0 <= i < |x.shards| ensures x.shards[i].shape[x.dim] == n > 0 {
      SameStep(first, x.shards[i].shape, x.dim, size);
    }
    SumOfEqual(x.shards, x.dim, n);
    Multiple(|x.shards|, n);
    assert x.Shape()[x.dim := n] == first;
  }

  lemma SameStep(first: seq<nat>, shape: seq<nat>, d: nat, size: nat)
    requires d < |first| == |shape| && shape == first[d := shape[d]] && Prod(first) == size == Prod(shape) > 0
    requires Positive(first[d := 1])
    ensures shape[d] == first[d] > 0
  {
    hide Prod;
    if first[d] == 0 {
      ProdZero(first, d);
    }
    forall k | 0 <= k < |first| ensures first[k] > 0 {
      assert k != d ==> first[d := 1][k] > 0;
    }
    OneDimension(first, d, shape[d]);
  }

  lemma RoundedProduct(s: seq<nat>, d: nat, c: nat)
    requires d < |s| && c > 0
    ensures c * Prod(s[d := s[d] / c]) <= Prod(s)
    ensures s[d] % c == 0 ==> c * Prod(s[d := s[d] / c]) == Prod(s)
  {
    var m := s[d] / c;
    ProdAround(s, d);
    ProdAround(s[d := m], d);
    assert s[d := m][..d] == s[..d] && s[d := m][d + 1..] == s[d + 1..];
    RoundedFactor(Prod(s[..d]), s[d], Prod(s[d + 1..]), c, m);
  }

  lemma RoundedFactor(a: nat, t: nat, b: nat, c: nat, m: nat)
    requires c > 0 && m == t / c
    ensures c * (a * (m * b)) <= a * (t * b)
    ensures t % c == 0 ==> c * (a * (m * b)) == a * (t * b)
  {
    var rest := t % c;
    assert t == c * m + rest;
    assert a * (t * b) == c * (a * (m * b)) + a * (rest * b);
    assert rest == 0 ==> a * (rest * b) == 0;
  }

  /** A dimension between the split one and the shared end cannot be divided among several shards: the middle of
      the new shape would be larger than the dimension it splits. */
  lemma MiddleTooLarge(from: seq<nat>, to: seq<nat>, d: nat, dim: nat, c: nat, n: nat, i: nat, q: nat, j: nat)
    requires Positive(from) && Positive(to) && c >= 2 && n > 0
    requires i < d < q <= |from| && i < dim < j <= |to| && from[..i] == to[..i] && from[q..] == to[j..]
    requires Prod(to[dim := to[dim] / c]) == Prod(from[d := n])
    ensures Prod(to[i..j]) > from[i]
  {
    hide Prod;
    var from', to' := from[d := n], to[dim := to[dim] / c];
    assert from'[..i] == to'[..i] && from'[q..] == to'[j..] by {
      assert from'[..i] == from[..i] && to'[..i] == to[..i] && from'[q..] == from[q..] && to'[j..] == to[j..];
    }
    MiddleProducts(from', to', i, q, j);
    ProdAtLeastFactor(from'[i..q], 0);
    var middle := to[i..j];
    RoundedProduct(middle, dim - i, c);
    assert to'[i..j] == middle[dim - i := middle[dim - i] / c];
    AtLeastTwice(c, Prod(to'[i..j]), from[i]);
  }

  lemma AtLeastTwice(c: nat, a: nat, b: nat)
    requires c >= 2 && a >= b > 0
    ensures c * a > b
  {
    assert c * a >= 2 * a;
  }

  /** Rounding down the size of a viewed shard loses nothing. */
  lemma ViewDivides(from: seq<nat>, to: seq<nat>, d: nat, c: nat, n: nat, dim: nat)
    requires Positive(from) && Positive(to) && d < |from| <= |to| && dim < |to| && c >= 2 && n > 0
    requires from[d] % c == 0 && Classify(from, to).SplitRange?
    requires dim == ViewDim(d, Classify(from, to).start, |from|, |to|)
    requires Classify(from, to).start == d ==> to[d] % c == 0
    requires Prod(to[dim := to[dim] / c]) == Prod(from[d := n])
    ensures to[dim] % c == 0
  {
    hide Classify, Prod, LongestEqualRange, ReversedEqualRange;
    SplitRangeIs(from, to);
    var i, r := LongestEqualRange(from, to), ReversedEqualRange(from, to);
    if d < i {
      assert to[d] == to[..i][d] == from[..i][d];
    } else if d > i {
      if d < |from| - r {
        MiddleTooLarge(from, to, d, dim, c, n, i, |from| - r, |to| - r);
        assert false;
      }
      assert to[dim] == to[|to| - r..][dim - (|to| - r)] == from[|from| - r..][d - (|from| - r)];
    }
  }

  /** Shards can be viewed only if the new shape has as many elements as the old one. */
  lemma ViewKeepsSize<E>(x: Split<E>, shape: seq<nat>, y: Split<E>)
    requires x.Valid() && Positive(x.Shape()) && Positive(shape) && ViewSplit(x, shape) == Some(y)
    ensures Prod(shape) == Prod(x.Shape())
  {
    ViewedShards(x, shape, y);
    var c := |x.shards|;
    var size := Prod(shape[y.dim := shape[y.dim] / c]);
    var n := EqualShards(x, size);
    if c > 1 {
      ViewDivides(x.Shape(), shape, x.dim, c, n, y.dim);
    }
    RoundedProduct(shape, y.dim, c);
  }

  /** Whenever it succeeds, viewing a split tensor shard by shard is viewing the whole tensor in row-major order. */
  lemma ViewSplitSound<E>(x: Split<E>, shape: seq<nat>)
    requires x.Valid() && Positive(x.Shape()) && Positive(shape) && ViewSplit(x, shape).Some?
    ensures View(Unshard(x), shape) == Some(Unshard(ViewSplit(x, shape).value))
  {
    var y := ViewSplit(x, shape).value;
    ViewedShards(x, shape, y);
    ViewKeepsSize(x, shape, y);
    if |x.shards| > 1 {
      ViewManySound(x, shape, y);
    } else {
      assert shape[y.dim := shape[y.dim] / 1] == shape;
    }
  }

  lemma ViewManySound<E>(x: Split<E>, shape: seq<nat>, y: Split<E>)
    requires x.Valid() && Positive(x.Shape()) && Positive(shape) && Prod(shape) == Prod(x.Shape())
    requires |x.shards| > 1 && ViewSplit(x, shape) == Some(y)
    ensures View(Unshard(x), shape) == Some(Unshard(y))
  {
    ViewManyData(x, shape, y);
    ViewedShards(x, shape, y);
    ViewManyShape(shape, y, |x.shards|);
  }

  lemma ViewManyData<E>(x: Split<E>, shape: seq<nat>, y: Split<E>)
    requires x.Valid() && Positive(x.Shape()) && Positive(shape) && Prod(shape) == Prod(x.Shape())
    requires |x.shards| > 1 && ViewSplit(x, shape) == Some(y)
    ensures Unshard(y).data == Unshard(x).data
  {
    hide Prod;
    ViewedShards(x, shape, y);
    var shardShape := shape[y.dim := shape[y.dim] / |x.shards|];
    var n := EqualShards(x, Prod(shardShape));
    ViewKeepsOuter(x.Shape(), shape, x.dim);
    assert shardShape[..y.dim] == shape[..y.dim];
    assert x.shards[0].shape[..x.dim] == x.Shape()[..x.dim];
    UnshardRelabelled(x.shards, x.dim, y.shards, y.dim);
  }

  lemma ViewManyShape<E>(shape: seq<nat>, y: Split<E>, count: nat)
    requires Positive(shape) && y.Valid() && y.dim < |shape| && count > 0
    requires y.shards[0].shape == shape[y.dim := shape[y.dim] / count] && |Unshard(y).data| == Prod(shape)
    ensures Unshard(y).shape == shape
  {
    var n := DimSum(y.shards, y.dim);
    assert y.Shape() == shape[y.dim := n];
    OneDimension(shape, y.dim, n);
  }

  // ---- Reshapes ----

  datatype Plan = Unsupported | ByView | ByFlatten(start: nat, end: int)

  /** A reshape is a view that splits one dimension, or the flattening of the dimensions that the opposite
      reshape would split. */
  function ReshapePlan(from: seq<nat>, to: seq<nat>): Plan {
    match Classify(from, to)
    case AssertionFails => Unsupported
    case SplitRange(_, _) => ByView
    case NotASplit =>
      match Classify(to, from)
      case NotASplit => Unsupported
      case AssertionFails => Unsupported
      case SplitRange(start, length) => ByFlatten(start, start + length - 1)
  }

  function ReshapeSplit<E>(x: Split<E>, shape: seq<nat>): (y: Option<Split<E>>)
    requires x.Valid()
    ensures y.Some? ==> y.value.Valid()
  {
    match ReshapePlan(x.Shape(), shape)
    case Unsupported => None
    case ByView => ViewSplit(x, shape)
    case ByFlatten(start, end) => ApplySplit(Flatten(start, end), x)
  }

  predicate SameFrom(from: seq<nat>, i: int, to: seq<nat>, j: nat) {
    0 <= i <= |from| && j <= |to| && from[i..] == to[j..]
  }

  /** A reshape by flattening keeps the elements in place, but it yields the requested shape exactly if that has as
      many elements and ends in the dimensions that come after the flattened ones. */
  lemma ReshapeByFlattening<E>(x: Split<E>, shape: seq<nat>, start: nat, end: int, y: Split<E>)
    requires x.Valid() && Positive(shape)
    requires ReshapePlan(x.Shape(), shape) == ByFlatten(start, end) && ReshapeSplit(x, shape) == Some(y)
    ensures y.Valid() && Unshard(y).data == Unshard(x).data
    ensures Unshard(y).shape == shape <==> Prod(shape) == Prod(x.Shape()) && SameFrom(x.Shape(), end + 1, shape, start + 1)
  {
    ReshapeFlattens(x, shape, start, end, y);
    if Prod(shape) == Prod(x.Shape()) {
      FlattenPlanShape(x.Shape(), shape, start, end);
    }
  }

  lemma ReshapeFlattens<E>(x: Split<E>, shape: seq<nat>, start: nat, end: int, y: Split<E>)
    requires x.Valid()
    requires ReshapePlan(x.Shape(), shape) == ByFlatten(start, end) && ReshapeSplit(x, shape) == Some(y)
    ensures end < |x.Shape()| && start <= end
    ensures Unshard(y) == Tensor(FlattenShape(x.Shape(), start, end), Unshard(x).data)
  {
    FlattenPlanFacts(x.Shape(), shape, start, end);
    FlattenedWhole(x, start, end, y);
  }

  lemma FlattenPlanShape(from: seq<nat>, to: seq<nat>, start: nat, end: int)
    requires ReshapePlan(from, to) == ByFlatten(start, end) && Positive(to) && Prod(to) == Prod(from) && end < |from|
    ensures start < |to| && start <= end
    ensures FlattenShape(from, start, end) == to <==> from[end + 1..] == to[start + 1..]
  {
    FlattenPlanFacts(from, to, start, end);
    FlattenMatches(from, to, start, end);
  }

  lemma FlattenPlanFacts(from: seq<nat>, to: seq<nat>, start: nat, end: int)
    requires ReshapePlan(from, to) == ByFlatten(start, end)
    ensures start <= end && end - start == |from| - |to| && start <= |to| && from[..start] == to[..start]
  {
  }

  lemma FlattenedWhole<E>(x: Split<E>, s: nat, e: int, y: Split<E>)
    requires x.Valid() && e >= s && ApplySplit(Flatten(s, e), x) == Some(y)
    ensures e < |x.Shape()| && Unshard(y).data == Unshard(x).data && Unshard(y).shape == FlattenShape(x.Shape(), s, e)
  {
    SplitOpSound(Flatten(s, e), x);
  }

  lemma FlattenMatches(from: seq<nat>, shape: seq<nat>, s: nat, e: nat)
    requires Positive(shape) && Prod(shape) == Prod(from) && s <= e < |from| && s < |shape| && from[..s] == shape[..s]
    ensures FlattenShape(from, s, e) == shape <==> from[e + 1..] == shape[s + 1..]
  {
    var flat := FlattenShape(from, s, e);
    assert flat[s + 1..] == from[e + 1..];
    FlattenValid(from, s, e);
    if from[e + 1..] == shape[s + 1..] {
      var n := flat[s];
      FlattenIsUpdate(from, shape, s, e);
      OneDimension(shape, s, n);
    }
  }

  lemma FlattenIsUpdate(from: seq<nat>, shape: seq<nat>, s: nat, e: nat)
    requires s <= e < |from| && s < |shape| && from[..s] == shape[..s] && from[e + 1..] == shape[s + 1..]
    ensures FlattenShape(from, s, e) == shape[s := FlattenShape(from, s, e)[s]]
  {
  }

  /** An example: the reshape of a tensor of shape (2, 3, 5) to (6, 1, 5) succeeds and returns the tensor as it was. */
  lemma ReshapeMissesShape<E>(x: Split<E>)
    requires x.Valid() && x.Shape() == [2, 3, 5] && x.dim == 2
    ensures ReshapeSplit(x, [6, 1, 5]) == Some(x)
  {
    ExampleClassified();
    FlattenNothing(x);
  }

  lemma FlattenNothing<E>(x: Split<E>)
    requires x.Valid() && x.dim > 0
    ensures ApplySplit(Flatten(0, 0), x) == Some(x)
  {
    FlattenNothingEach(x.shards);
  }

  lemma {:induction false} FlattenNothingEach<E>(ts: seq<Tensor<E>>)
    requires forall t | t in ts :: t.Valid() && t.shape != []
    ensures ApplyAll(Flatten(0, 0), ts) == Some(ts)
  {
    if ts != [] {
      FlattenOneDimension(ts[0].shape, 0);
      assert Apply(Flatten(0, 0), ts[0]) == Some(ts[0]);
      FlattenNothingEach(ts[1..]);
      assert [ts[0]] + ts[1..] == ts;
    }
  }

  lemma FlattenOneDimension(s: seq<nat>, d: nat)
    requires d < |s|
    ensures FlattenShape(s, d, d) == s
  {
    ProdOne(s[d]);
    assert s[d..d + 1] == [s[d]];
  }

  lemma ExampleClassified()
    ensures Classify([2, 3, 5], [6, 1, 5]) == NotASplit
    ensures Classify([6, 1, 5], [2, 3, 5]) == SplitRange(0, 1)
  {
    assert [2, 3, 5][..2] == [2, 3] && [6, 1, 5][..2] == [6, 1];
    assert TrailingEqual([2, 3], [6, 1]) == 0 && TrailingEqual([6, 1], [2, 3]) == 0;
    assert ReversedEqualRange([2, 3, 5], [6, 1, 5]) == 1 && ReversedEqualRange([6, 1, 5], [2, 3, 5]) == 1;
    assert [6, 1, 5][0..2] == [6, 1] && [2, 3, 5][0..2] == [2, 3];
    assert [6, 1][1..] == [1] && [2, 3][1..] == [3];
    ProdOne(1);
    ProdOne(3);
  }

  predicate AllOnes(s: seq<nat>) {
    forall i | 0 <= i < |s| :: s[i] == 1
  }

  function Ones(k: nat): seq<nat> {
    seq(k, _ => 1)
  }

  /** The second shape has `k` more ones before dimension `i`, which is not one itself: at least as many precede it
      already, and not only ones do. */
  predicate InsertsAfterOnes(from: seq<nat>, to: seq<nat>, i: nat, k: nat) {
    && 1 <= k <= i < |from| && from[i] != 1 && AllOnes(from[i - k..i]) && !AllOnes(from[..i])
    && to == from[..i] + Ones(k) + from[i..]
  }

  /** The classifier's assertion fails exactly if ones are inserted after ones. */
  lemma ClassifierAssertion(from: seq<nat>, to: seq<nat>)
    requires Positive(from) && Positive(to) && Prod(from) == Prod(to)
    ensures Classify(from, to) == AssertionFails <==> exists i: nat, k: nat :: InsertsAfterOnes(from, to, i, k)
  {
    if Classify(from, to) == AssertionFails {
      FailureInsertsOnes(from, to);
    }
    if i: nat, k: nat :| InsertsAfterOnes(from, to, i, k) {
      InsertedOnesFail(from, to, i, k);
    }
  }

  lemma FailureInsertsOnes(from: seq<nat>, to: seq<nat>)
    requires Positive(from) && Positive(to) && Prod(from) == Prod(to) && Classify(from, to) == AssertionFails
    ensures InsertsAfterOnes(from, to, LongestEqualRange(from, to), |to| - |from|)
  {
    hide Prod, LongestEqualRange, TrailingEqual;
    var i, r := FailureOverlaps(from, to);
    var k := |to| - |from|;
    MatchesOverlap(from, to, i, r);
    RepeatsOnes(from, to, i, k);
    OnesMatchCompletely(from, to, i, k);
    NoCompleteMatch(from, to, r);
  }

  lemma NoCompleteMatch(s: seq<nat>, t: seq<nat>, r: nat)
    requires r < |s| <= |t| && s[|s| - 1 - r] != t[|t| - 1 - r]
    ensures t[|t| - |s|..] != s
  {
    assert t[|t| - |s|..][|s| - 1 - r] == t[|t| - 1 - r];
  }

  lemma FailureOverlaps(from: seq<nat>, to: seq<nat>) returns (i: nat, r: nat)
    requires Classify(from, to) == AssertionFails
    ensures i == LongestEqualRange(from, to) < |from| <= |to| && r < |from| && |to| - r <= i
    ensures from[i] != to[i] && from[|from| - 1 - r] != to[|to| - 1 - r]
    ensures from[..i] == to[..i] && from[|from| - r..] == to[|to| - r..]
  {
    hide Prod, LongestEqualRange, TrailingEqual;
    i, r := LongestEqualRange(from, to), TrailingEqual(from, to);
    TrailingStops(from, to);
  }

  /** Where the matches from both ends overlap, the second shape repeats a range of the first. */
  lemma MatchesOverlap(from: seq<nat>, to: seq<nat>, i: nat, r: nat)
    requires i < |from| <= |to| && r < |from| && |to| - r <= i && from[i] != to[i]
    requires from[..i] == to[..i] && from[|from| - r..] == to[|to| - r..]
    ensures 1 <= |to| - |from| <= i && to == from[..i] + from[i - (|to| - |from|)..]
  {
    EndAgrees(from, to, r);
    assert to[i..] == from[i - (|to| - |from|)..];
    assert to == to[..i] + to[i..];
  }

  lemma RepeatsOnes(from: seq<nat>, to: seq<nat>, i: nat, k: nat)
    requires Positive(from) && Prod(from) == Prod(to) && 1 <= k <= i < |from| && i < |to| && from[i] != to[i]
    requires to == from[..i] + from[i - k..]
    ensures AllOnes(from[i - k..i]) && from[i] != 1 && to == from[..i] + Ones(k) + from[i..]
  {
    hide Prod;
    RepeatedOnes(from, i, k);
    assert from[i - k..i] == Ones(k);
    assert from[i - k..] == Ones(k) + from[i..];
    assert to[i] == from[i - k..][0];
  }

  lemma EndAgrees(s: seq<nat>, t: seq<nat>, r: nat)
    requires r <= |s| <= |t| && s[|s| - r..] == t[|t| - r..]
    ensures forall x | |t| - r <= x < |t| :: t[x] == s[x - (|t| - |s|)]
  {
    forall x | |t| - r <= x < |t| ensures t[x] == s[x - (|t| - |s|)] {
      assert t[x] == t[|t| - r..][x - (|t| - r)];
    }
  }

  /** Repeating a range of positive dimensions keeps the size only if they are all one. */
  lemma RepeatedOnes(s: seq<nat>, i: nat, k: nat)
    requires Positive(s) && k <= i <= |s| && Prod(s[..i] + s[i - k..]) == Prod(s)
    ensures AllOnes(s[i - k..i])
  {
    hide Prod;
    var before, middle, after := s[..i], s[i - k..i], s[i..];
    assert before + s[i - k..] == before + (middle + after) && s == before + after;
    ProdConcat(before, middle + after);
    ProdConcat(middle, after);
    ProdConcat(before, after);
    ProdPositive(before);
    ProdPositive(after);
    FactorIsOne(Prod(before), Prod(middle), Prod(after));
    OnlyOnes(middle);
  }

  lemma FactorIsOne(a: nat, m: nat, b: nat)
    requires a > 0 && b > 0 && a * (m * b) == a * b
    ensures m == 1
  {
    SameFactor(a, m * b, b);
    CancelRight(m, 1, b);
  }

  lemma OnlyOnes(s: seq<nat>)
    requires Positive(s) && Prod(s) == 1
    ensures AllOnes(s)
  {
    forall j | 0 <= j < |s| ensures s[j] == 1 {
      ProdAtLeastFactor(s, j);
    }
  }

  /** The whole shape matches the end of the new one exactly if the inserted ones reach its start. */
  lemma OnesMatchCompletely(from: seq<nat>, to: seq<nat>, i: nat, k: nat)
    requires 1 <= k && i <= |from| && to == from[..i] + Ones(k) + from[i..]
    ensures AllOnes(from[..i]) <==> to[k..] == from
  {
    if AllOnes(from[..i]) {
      forall x | 0 <= x < |from| ensures to[k..][x] == from[x] {
        if x < i {
          assert from[x] == from[..i][x];
          assert k + x < i ==> to[k + x] == from[..i][k + x];
        }
      }
    }
    if to[k..] == from {
      forall x | 0 <= x < i ensures from[x] == 1 {
        ShiftedOnes(from, to, i, k, x);
      }
    }
  }

  lemma InsertedOnesFail(from: seq<nat>, to: seq<nat>, i: nat, k: nat)
    requires InsertsAfterOnes(from, to, i, k)
    ensures Classify(from, to) == AssertionFails
  {
    hide LongestEqualRange, TrailingEqual;
    assert from[i - k..i] == Ones(k);
    assert from[i - k..] == to[i..];
    LongestIs(from, to, i);
    TrailingAtLeast(from, to, |to| - i);
    OnesMatchCompletely(from, to, i, k);
    assert TrailingEqual(from, to) < |from|;
  }

  lemma {:induction false} TrailingAtLeast(s: seq<nat>, t: seq<nat>, n: nat)
    requires n <= |s| && n <= |t| && s[|s| - n..] == t[|t| - n..]
    ensures TrailingEqual(s, t) >= n
  {
    if n > 0 {
      assert s[|s| - 1] == s[|s| - n..][n - 1] == t[|t| - n..][n - 1] == t[|t| - 1];
      var s', t' := s[..|s| - 1], t[..|t| - 1];
      assert s'[|s'| - (n - 1)..] == s[|s| - n..][..n - 1] && t'[|t'| - (n - 1)..] == t[|t| - n..][..n - 1];
      TrailingAtLeast(s', t', n - 1);
    }
  }

  lemma LongestIs(from: seq<nat>, to: seq<nat>, i: nat)
    requires i < |from| && i < |to| && from[..i] == to[..i] && from[i] != to[i]
    ensures LongestEqualRange(from, to) == i
  {
    hide LongestEqualRange;
    StartAgrees(from, to, i);
    StartAgrees(from, to, LongestEqualRange(from, to));
  }

  lemma StartAgrees(s: seq<nat>, t: seq<nat>, n: nat)
    requires n <= |s| && n <= |t| && s[..n] == t[..n]
    ensures forall x | 0 <= x < n :: s[x] == t[x]
  {
    forall x | 0 <= x < n ensures s[x] == t[x] {
      assert s[x] == s[..n][x];
    }
  }

  lemma {:induction false} ShiftedOnes(from: seq<nat>, to: seq<nat>, i: nat, k: nat, x: nat)
    requires 1 <= k && i <= |from| && to == from[..i] + Ones(k) + from[i..] && x < i
    requires from == to[k..]
    ensures from[x] == 1
    decreases i - x
  {
    assert from[x] == to[x + k];
    if x + k < i {
      ShiftedOnes(from, to, i, k, x + k);
    }
  }

  /** The simplest family of shapes on which it fails. */
  lemma ClassifierAssertionFails(m: nat, n: nat)
    requires m != 1 && n != 1
    ensures Classify([m, 1, n], [m, 1, 1, n]) == AssertionFails
  {
    var from := [m, 1, n];
    assert from[1..2] == [1] && from[..2] == [m, 1] && from[2..] == [n] && from[..2][0] == m;
    assert [m, 1, 1, n] == from[..2] + Ones(1) + from[2..];
    InsertedOnesFail(from, [m, 1, 1, n], 2, 1);
  }

  /** A complete match from the end is not seen as one, and so does not trip the assertion. */
  lemma CompleteMatchIsNoMatch(n: nat)
    requires n != 1
    ensures Classify([1, n], [1, 1, n]) == SplitRange(1, 2)
  {
    CompleteMatchLengths(n);
    assert [1, 1, n][1..3] == [1, n];
    ProdPair(1, n);
  }

  lemma CompleteMatchLengths(n: nat)
    requires n != 1
    ensures TrailingEqual([1, n], [1, 1, n]) == 2 && LongestEqualRange([1, n], [1, 1, n]) == 1
  {
    CompleteTrailing(n);
    assert [1, n][1..] == [n] && [1, 1, n][1..] == [1, n];
    assert LongestEqualRange([n], [1, n]) == 0;
  }

  lemma CompleteTrailing(n: nat)
    ensures TrailingEqual([1, n], [1, 1, n]) == 2
  {
    assert [1, n][..1] == [1] && [1, 1, n][..2] == [1, 1] && [1, 1][..1] == [1];
    assert TrailingEqual([1], [1, 1]) == 1;
  }
}
