/** Shape operations on split tensors: each runs on the shards and tracks the split dimension, and any program
    of them means what the same program means on the unsplit tensor. */
module ShapePrograms {
  import opened Radices
  import opened Sharding
  import opened Tensors
  import opened Wrappers

  datatype Op =
    | Flatten(start: int, end: int)
    | Unflatten(dim: int, sizes: seq<nat>)
    | Transpose(dim0: int, dim1: int)
    | Unsqueeze(dim: int)

  /** PyTorch counts negative dimensions from the end. */
  function Resolve(dim: int, rank: nat): int {
    if dim < 0 then dim + rank else dim
  }

  function Swap<T>(s: seq<T>, i: nat, j: nat): (r: seq<T>)
    requires i < |s| && j < |s|
  {
    s[i := s[j]][j := s[i]]
  }

  // ---- The operations on plain tensors ----

  function FlattenShape(s: seq<nat>, start: nat, end: nat): seq<nat>
    requires start <= end < |s|
  {
    s[..start] + [Prod(s[start..end + 1])] + s[end + 1..]
  }

  function UnflattenShape(s: seq<nat>, dim: nat, sizes: seq<nat>): seq<nat>
    requires dim < |s|
  {
    s[..dim] + sizes + s[dim + 1..]
  }

  function UnsqueezeShape(s: seq<nat>, dim: nat): seq<nat>
    requires dim <= |s|
  {
    s[..dim] + [1] + s[dim..]
  }

  function Transposed<E>(t: Tensor<E>, i: nat, j: nat): (r: Tensor<E>)
    requires t.Valid() && i < |t.shape| && j < |t.shape|
    ensures r.Valid() && r.shape == Swap(t.shape, i, j)
  {
    var shape := Swap(t.shape, i, j);
    Tensor(shape, seq(Prod(shape), k requires 0 <= k < Prod(shape) => At(t, Swap(Unravel(shape, k), i, j))))
  }

  /** What PyTorch does; `None` is an error. */
  function Apply<E>(op: Op, t: Tensor<E>): Option<Tensor<E>>
    requires t.Valid()
  {
    var rank := |t.shape|;
    match op
    case Flatten(start, end) =>
      var s, e := Resolve(start, rank), Resolve(end, rank);
      if 0 <= s <= e < rank then Some(Tensor(FlattenShape(t.shape, s, e), t.data)) else None
    case Unflatten(dim, sizes) =>
      var d := Resolve(dim, rank);
      if 0 <= d < rank && sizes != [] && Prod(sizes) == t.shape[d]
      then Some(Tensor(UnflattenShape(t.shape, d, sizes), t.data)) else None
    case Transpose(dim0, dim1) =>
      var i, j := Resolve(dim0, rank), Resolve(dim1, rank);
      if 0 <= i < rank && 0 <= j < rank then Some(Transposed(t, i, j)) else None
    case Unsqueeze(dim) =>
      var d := Resolve(dim, rank + 1);
      if 0 <= d <= rank then Some(Tensor(UnsqueezeShape(t.shape, d), t.data)) else None
  }

  // ---- The operations on split tensors ----

  /** The assertions an operation makes before it touches the shards. */
  function Accepts<E>(op: Op, x: Split<E>): bool
    requires x.Valid()
  {
    match op
    case Flatten(start, end) =>
      var endResolved := if end == -1 then |x.shards[0].shape| - 1 else end;
      && (x.dim <= start || endResolved < x.dim)
      && (x.dim != start || x.Shape()[x.dim] % |x.shards| == 0)
    case Unflatten(dim, _) => dim != x.dim
    case Transpose(_, _) => true
    case Unsqueeze(_) => true
  }

  /** The split dimension of the result. */
  function TrackedDim(op: Op, dim: nat, rank: nat): int {
    match op
    case Flatten(start, end) =>
      var endResolved := if end == -1 then rank - 1 else end;
      if dim <= start then dim else dim - (endResolved - start)
    case Unflatten(d, sizes) => if d < dim then dim + |sizes| - 1 else dim
    case Transpose(dim0, dim1) => if dim == dim0 then dim1 else if dim == dim1 then dim0 else dim
    case Unsqueeze(d) =>
      var resolved := if d >= 0 then d else d + rank + 1;
      if dim >= resolved then dim + 1 else dim
  }

  function ApplyAll<E>(op: Op, ts: seq<Tensor<E>>): (r: Option<seq<Tensor<E>>>)
    requires forall t | t in ts :: t.Valid()
    ensures r.Some? ==> |r.value| == |ts| && forall i | 0 <= i < |ts| :: Apply(op, ts[i]) == Some(r.value[i])
  {
    if ts == [] then Some([])
    else
      match Apply(op, ts[0])
      case None => None
      case Some(t) =>
        match ApplyAll(op, ts[1..])
        case None => None
        case Some(rest) => Some([t] + rest)
  }

  function ApplySplit<E>(op: Op, x: Split<E>): (y: Option<Split<E>>)
    requires x.Valid()
    ensures y.Some? ==> y.value.Valid()
  {
    if !Accepts(op, x) then None
    else
      match ApplyAll(op, x.shards)
      case None => None
      case Some(ts) => MakeSplit(ts, TrackedDim(op, x.dim, |x.shards[0].shape|))
  }

  /** Dimensions are counted from the front, except where the code resolves them itself. */
  predicate Supported(op: Op) {
    match op
    case Flatten(start, end) => start >= 0 && end >= -1
    case Unflatten(dim, _) => dim >= 0
    case Transpose(dim0, dim1) => dim0 >= 0 && dim1 >= 0
    case Unsqueeze(_) => true
  }

  // ---- Operations that keep the row-major order ----

  lemma OneForMany(before: seq<nat>, mid: seq<nat>, after: seq<nat>)
    ensures Prod(before + [Prod(mid)] + after) == Prod(before + mid + after)
  {
    ProdOne(Prod(mid));
    ProdMiddle(before, [Prod(mid)], mid, after);
  }

  lemma FlattenValid(s: seq<nat>, start: nat, end: nat)
    requires start <= end < |s|
    ensures Prod(FlattenShape(s, start, end)) == Prod(s)
  {
    hide Prod;
    OneForMany(s[..start], s[start..end + 1], s[end + 1..]);
    assert s == s[..start] + s[start..end + 1] + s[end + 1..];
  }

  lemma UnflattenValid(s: seq<nat>, dim: nat, sizes: seq<nat>)
    requires dim < |s| && Prod(sizes) == s[dim]
    ensures Prod(UnflattenShape(s, dim, sizes)) == Prod(s)
  {
    ProdOne(s[dim]);
    ProdMiddle(s[..dim], sizes, [s[dim]], s[dim + 1..]);
    assert s == s[..dim] + [s[dim]] + s[dim + 1..];
  }

  lemma OneDropped(before: seq<nat>, after: seq<nat>)
    ensures Prod(before + [1] + after) == Prod(before + after)
  {
    ProdOne(1);
    ProdMiddle(before, [1], [], after);
    assert before + [] == before;
  }

  lemma UnsqueezeValid(s: seq<nat>, dim: nat)
    requires dim <= |s|
    ensures Prod(UnsqueezeShape(s, dim)) == Prod(s)
  {
    OneDropped(s[..dim], s[dim..]);
    assert s == s[..dim] + s[dim..];
  }

  lemma ApplyValid<E>(op: Op, t: Tensor<E>)
    requires t.Valid()
    ensures Apply(op, t).Some? ==> Apply(op, t).value.Valid()
  {
    var rank := |t.shape|;
    if Apply(op, t).Some? {
      match op
      case Flatten(start, end) => FlattenValid(t.shape, Resolve(start, rank), Resolve(end, rank));
      case Unflatten(dim, sizes) => UnflattenValid(t.shape, Resolve(dim, rank), sizes);
      case Transpose(dim0, dim1) =>
      case Unsqueeze(dim) => UnsqueezeValid(t.shape, Resolve(dim, rank + 1));
    }
  }

  /** The two halves of a split tensor that survive an operation can be joined again, and the result is the
      operation on the joined tensor. */
  ghost predicate Commutes<E>(op: Op, a: Tensor<E>, b: Tensor<E>, d: nat, a': Tensor<E>, b': Tensor<E>, d': nat) {
    && Joinable(a, b, d) && Joinable(a', b', d')
    && Apply(op, Join(a, b, d)) == Some(Join(a', b', d'))
  }

  lemma FlattenCommutes<E>(a: Tensor<E>, b: Tensor<E>, d: nat, s: nat, e: nat)
    requires Joinable(a, b, d) && s <= e < |a.shape| && (d <= s || e < d)
    ensures Commutes(Flatten(s, e), a, b, d, Tensor(FlattenShape(a.shape, s, e), a.data),
                     Tensor(FlattenShape(b.shape, s, e), b.data), if d <= s then d else d - (e - s))
  {
    hide Prod;
    var d' := if d <= s then d else d - (e - s);
    var base := FlattenShape(a.shape, s, e);
    var factor := if d == s then Prod(a.shape[s + 1..e + 1]) else 1;
    FlattenValid(a.shape, s, e);
    FlattenValid(b.shape, s, e);
    FlattenShapes(a.shape, b.shape[d], d, s, e);
    FlattenShapes(a.shape, a.shape[d] + b.shape[d], d, s, e);
    FlattenOuter(a.shape, d, s, e);
    CommutesBy(Flatten(s, e), a, b, d, base, d', factor, b.shape[d] * factor, (a.shape[d] + b.shape[d]) * factor, Join(a, b, d));
  }

  /** Flattening passes a change of one dimension on to the dimension it is tracked to, in proportion. */
  lemma FlattenShapes(shape: seq<nat>, n: nat, d: nat, s: nat, e: nat)
    requires d < |shape| && s <= e < |shape| && (d <= s || e < d)
    ensures var d' := if d <= s then d else d - (e - s);
      var factor := if d == s then Prod(shape[s + 1..e + 1]) else 1;
      && d' < |FlattenShape(shape, s, e)|
      && FlattenShape(shape, s, e)[d'] == shape[d] * factor
      && FlattenShape(shape[d := n], s, e) == FlattenShape(shape, s, e)[d' := n * factor]
  {
    var shape' := shape[d := n];
    if d == s {
      assert shape[s..e + 1][1..] == shape[s + 1..e + 1] == shape'[s..e + 1][1..];
    } else {
      assert shape[s..e + 1] == shape'[s..e + 1];
    }
  }

  lemma FlattenOuter(shape: seq<nat>, d: nat, s: nat, e: nat)
    requires d < |shape| && s <= e < |shape| && (d <= s || e < d)
    ensures var d' := if d <= s then d else d - (e - s);
      d' <= |FlattenShape(shape, s, e)| && Outer(FlattenShape(shape, s, e), d') == Outer(shape, d)
  {
    if d > e {
      FlattenValid(shape[..d], s, e);
      assert shape[..d][s..e + 1] == shape[s..e + 1];
      assert FlattenShape(shape[..d], s, e) == FlattenShape(shape, s, e)[..d - (e - s)];
    } else {
      assert FlattenShape(shape, s, e)[..d] == shape[..d];
    }
  }

  lemma UnflattenCommutes<E>(a: Tensor<E>, b: Tensor<E>, d: nat, dim: nat, sizes: seq<nat>)
    requires Joinable(a, b, d) && dim < |a.shape| && dim != d && sizes != [] && Prod(sizes) == a.shape[dim]
    ensures Commutes(Unflatten(dim, sizes), a, b, d, Tensor(UnflattenShape(a.shape, dim, sizes), a.data),
                     Tensor(UnflattenShape(b.shape, dim, sizes), b.data), if dim < d then d + |sizes| - 1 else d)
  {
    JoinShape(a, b, d);
    UnflattenJoined(a, b, d, dim, sizes, Join(a, b, d));
  }

  lemma JoinShape<E>(a: Tensor<E>, b: Tensor<E>, d: nat)
    requires Joinable(a, b, d)
    ensures Join(a, b, d).shape == a.shape[d := a.shape[d] + b.shape[d]]
  {
  }

  lemma UnflattenJoined<E>(a: Tensor<E>, b: Tensor<E>, d: nat, dim: nat, sizes: seq<nat>, joined: Tensor<E>)
    requires Joinable(a, b, d) && dim < |a.shape| && dim != d && sizes != [] && Prod(sizes) == a.shape[dim]
    requires joined == Join(a, b, d) && joined.shape == a.shape[d := joined.shape[d]] && joined.shape[d] == a.shape[d] + b.shape[d]
    ensures Commutes(Unflatten(dim, sizes), a, b, d, Tensor(UnflattenShape(a.shape, dim, sizes), a.data),
                     Tensor(UnflattenShape(b.shape, dim, sizes), b.data), if dim < d then d + |sizes| - 1 else d)
  {
    var n := joined.shape[d];
    UnflattenFacts(a.shape, b.shape[d], d, dim, sizes);
    UnflattenFacts(a.shape, n, d, dim, sizes);
    ApplyUnflatten(joined, dim, sizes);
    CommutesBy(Unflatten(dim, sizes), a, b, d, UnflattenShape(a.shape, dim, sizes),
               if dim < d then d + |sizes| - 1 else d, 1, b.shape[d], n, joined);
  }

  lemma UnflattenFacts(shape: seq<nat>, n: nat, d: nat, dim: nat, sizes: seq<nat>)
    requires d < |shape| && dim < |shape| && dim != d && sizes != [] && Prod(sizes) == shape[dim]
    ensures var d', base := if dim < d then d + |sizes| - 1 else d, UnflattenShape(shape, dim, sizes);
      && d' < |base| && base[d'] == shape[d] && UnflattenShape(shape[d := n], dim, sizes) == base[d' := n]
      && Outer(base, d') == Outer(shape, d)
      && Prod(base) == Prod(shape) && Prod(base[d' := n]) == Prod(shape[d := n])
  {
    UnflattenShapes(shape, n, d, dim, sizes);
    UnflattenOuter(shape, d, dim, sizes);
    UnflattenValid(shape, dim, sizes);
    UnflattenValid(shape[d := n], dim, sizes);
  }

  /** An operation that only relabels shapes commutes with concatenation if it passes the concatenated dimension
      on, up to a factor, and keeps the number of steps before it. */
  lemma CommutesBy<E>(op: Op, a: Tensor<E>, b: Tensor<E>, d: nat, base: seq<nat>, d': nat, factor: nat, m: nat, n: nat, joined: Tensor<E>)
    requires Joinable(a, b, d) && joined == Join(a, b, d) && d' < |base| && Outer(base, d') == Outer(a.shape, d)
    requires base[d'] == a.shape[d] * factor && m == b.shape[d] * factor && n == (a.shape[d] + b.shape[d]) * factor
    requires Prod(base) == Prod(a.shape) && Prod(base[d' := m]) == Prod(b.shape)
    requires Apply(op, joined) == Some(Tensor(base[d' := n], joined.data))
    ensures Commutes(op, a, b, d, Tensor(base, a.data), Tensor(base[d' := m], b.data), d')
  {
    assert base == base[d' := a.shape[d] * factor];
    JoinRelabelled(a, b, d, base, d', factor);
  }

  lemma ApplyUnflatten<E>(t: Tensor<E>, dim: nat, sizes: seq<nat>)
    requires t.Valid() && dim < |t.shape| && sizes != [] && Prod(sizes) == t.shape[dim]
    ensures Apply(Unflatten(dim, sizes), t) == Some(Tensor(UnflattenShape(t.shape, dim, sizes), t.data))
  {
  }

  lemma UnflattenOuter(shape: seq<nat>, d: nat, dim: nat, sizes: seq<nat>)
    requires d < |shape| && dim < |shape| && dim != d && sizes != [] && Prod(sizes) == shape[dim]
    ensures Outer(UnflattenShape(shape, dim, sizes), if dim < d then d + |sizes| - 1 else d) == Outer(shape, d)
  {
    UnflattenPrefix(shape, d, dim, sizes);
    if dim < d {
      UnflattenValid(shape[..d], dim, sizes);
    }
  }

  lemma UnflattenPrefix(shape: seq<nat>, d: nat, dim: nat, sizes: seq<nat>)
    requires d < |shape| && dim < |shape| && dim != d && sizes != []
    ensures if dim < d then UnflattenShape(shape, dim, sizes)[..d + |sizes| - 1] == UnflattenShape(shape[..d], dim, sizes)
            else UnflattenShape(shape, dim, sizes)[..d] == shape[..d]
  {
  }

  lemma UnflattenShapes(shape: seq<nat>, n: nat, d: nat, dim: nat, sizes: seq<nat>)
    requires d < |shape| && dim < |shape| && dim != d && sizes != []
    ensures var d' := if dim < d then d + |sizes| - 1 else d;
      && d' < |UnflattenShape(shape, dim, sizes)|
      && UnflattenShape(shape, dim, sizes)[d'] == shape[d]
      && UnflattenShape(shape[d := n], dim, sizes) == UnflattenShape(shape, dim, sizes)[d' := n]
  {
  }

  lemma UnsqueezeShapes(shape: seq<nat>, n: nat, d: nat, dim: nat)
    requires d < |shape| && dim <= |shape|
    ensures var d' := if d >= dim then d + 1 else d;
      && d' < |UnsqueezeShape(shape, dim)|
      && UnsqueezeShape(shape, dim)[d'] == shape[d]
      && UnsqueezeShape(shape[d := n], dim) == UnsqueezeShape(shape, dim)[d' := n]
  {
  }

  lemma UnsqueezeOuter(shape: seq<nat>, d: nat, dim: nat)
    requires d < |shape| && dim <= |shape|
    ensures Outer(UnsqueezeShape(shape, dim), if d >= dim then d + 1 else d) == Outer(shape, d)
  {
    if d >= dim {
      UnsqueezeValid(shape[..d], dim);
      assert UnsqueezeShape(shape[..d], dim) == UnsqueezeShape(shape, dim)[..d + 1];
    } else {
      assert UnsqueezeShape(shape, dim)[..d] == shape[..d];
    }
  }

  lemma UnsqueezeCommutes<E>(a: Tensor<E>, b: Tensor<E>, d: nat, dim: nat)
    requires Joinable(a, b, d) && dim <= |a.shape|
    ensures Commutes(Unsqueeze(dim), a, b, d, Tensor(UnsqueezeShape(a.shape, dim), a.data),
                     Tensor(UnsqueezeShape(b.shape, dim), b.data), if d >= dim then d + 1 else d)
  {
    var d' := if d >= dim then d + 1 else d;
    var base := UnsqueezeShape(a.shape, dim);
    UnsqueezeValid(a.shape, dim);
    UnsqueezeValid(b.shape, dim);
    UnsqueezeShapes(a.shape, b.shape[d], d, dim);
    UnsqueezeShapes(a.shape, a.shape[d] + b.shape[d], d, dim);
    UnsqueezeOuter(a.shape, d, dim);
    CommutesBy(Unsqueeze(dim), a, b, d, base, d', 1, b.shape[d], a.shape[d] + b.shape[d], Join(a, b, d));
  }

  // ---- Transposition ----

  lemma TransposedAt<E>(t: Tensor<E>, i: nat, j: nat, idx: seq<nat>)
    requires t.Valid() && i < |t.shape| && j < |t.shape| && InBounds(idx, Swap(t.shape, i, j))
    ensures InBounds(Swap(idx, i, j), t.shape)
    ensures At(Transposed(t, i, j), idx) == At(t, Swap(idx, i, j))
  {
    hide Prod, Offset, Unravel;
    UnravelOffset(Swap(t.shape, i, j), idx);
  }

  /** Moving a coordinate before or after a swap is the same once the swap is accounted for. */
  lemma SwapShift(idx: seq<nat>, i: nat, j: nat, d: nat, n: nat)
    requires i < |idx| && j < |idx| && d < |idx|
    ensures var d' := if d == i then j else if d == j then i else d;
      Swap(idx, i, j)[d] == idx[d'] && Swap(idx[d' := n], i, j) == Swap(idx, i, j)[d := n]
  {
  }

  lemma SwapBounds(idx: seq<nat>, shape: seq<nat>, i: nat, j: nat)
    requires i < |shape| && j < |shape| && InBounds(idx, Swap(shape, i, j))
    ensures InBounds(Swap(idx, i, j), shape)
  {
  }

  lemma TransposeBounds<E>(a: Tensor<E>, b: Tensor<E>, d: nat, i: nat, j: nat, idx: seq<nat>)
    requires Joinable(a, b, d) && i < |a.shape| && j < |a.shape|
    requires InBounds(idx, Swap(JoinedShape(a, b, d), i, j))
    ensures var d' := if d == i then j else if d == j then i else d;
      var a', b' := Transposed(a, i, j), Transposed(b, i, j);
      && Joinable(a', b', d') && InBounds(idx, JoinedShape(a', b', d')) && InBounds(Swap(idx, i, j), JoinedShape(a, b, d))
      && a'.shape[d'] == a.shape[d] && idx[d'] == Swap(idx, i, j)[d]
  {
    SwapBounds(idx, JoinedShape(a, b, d), i, j);
    SwapJoinable(a, b, d, i, j);
  }

  lemma TransposeJoinAt<E>(a: Tensor<E>, b: Tensor<E>, d: nat, i: nat, j: nat, idx: seq<nat>, a': Tensor<E>, b': Tensor<E>, d': nat)
    requires Joinable(a, b, d) && i < |a.shape| && j < |a.shape| && d' == (if d == i then j else if d == j then i else d)
    requires a' == Transposed(a, i, j) && b' == Transposed(b, i, j) && Joinable(a', b', d')
    requires InBounds(idx, JoinedShape(a', b', d')) && InBounds(Swap(idx, i, j), JoinedShape(a, b, d))
    requires a'.shape[d'] == a.shape[d] && idx[d'] == Swap(idx, i, j)[d]
    ensures JoinedAt(a', b', d', idx) == JoinedAt(a, b, d, Swap(idx, i, j))
  {
    hide At;
    JoinedBounds(a', b', d', idx);
    if idx[d'] < a.shape[d] {
      TransposedAt(a, i, j, idx);
    } else {
      TransposeRightAt(b, d, i, j, idx, d', idx[d'] - a.shape[d]);
    }
  }

  lemma TransposeRightAt<E>(b: Tensor<E>, d: nat, i: nat, j: nat, idx: seq<nat>, d': nat, n: nat)
    requires b.Valid() && d < |b.shape| && i < |b.shape| && j < |b.shape| && |idx| == |b.shape|
    requires d' == (if d == i then j else if d == j then i else d)
    requires InBounds(idx[d' := n], Swap(b.shape, i, j))
    ensures InBounds(Swap(idx, i, j)[d := n], b.shape)
    ensures At(Transposed(b, i, j), idx[d' := n]) == At(b, Swap(idx, i, j)[d := n])
  {
    SwapShift(idx, i, j, d, n);
    TransposedAt(b, i, j, idx[d' := n]);
  }

  lemma SwapJoinable<E>(a: Tensor<E>, b: Tensor<E>, d: nat, i: nat, j: nat)
    requires Joinable(a, b, d) && i < |a.shape| && j < |a.shape|
    ensures var d' := if d == i then j else if d == j then i else d;
      var a', b' := Transposed(a, i, j), Transposed(b, i, j);
      && Joinable(a', b', d') && JoinedShape(a', b', d') == Swap(JoinedShape(a, b, d), i, j)
      && a'.shape[d'] == a.shape[d]
  {
    var d' := if d == i then j else if d == j then i else d;
    assert Swap(b.shape, i, j) == Swap(a.shape, i, j)[d' := b.shape[d]];
  }

  lemma TransposeCommutes<E>(a: Tensor<E>, b: Tensor<E>, d: nat, i: nat, j: nat)
    requires Joinable(a, b, d) && i < |a.shape| && j < |a.shape|
    ensures Commutes(Transpose(i, j), a, b, d, Transposed(a, i, j), Transposed(b, i, j),
                     if d == i then j else if d == j then i else d)
  {
    var d' := if d == i then j else if d == j then i else d;
    var a', b' := Transposed(a, i, j), Transposed(b, i, j);
    SwapJoinable(a, b, d, i, j);
    TransposeJoined(a, b, d, i, j, Join(a, b, d), Join(a', b', d'));
  }

  lemma TransposeJoined<E>(a: Tensor<E>, b: Tensor<E>, d: nat, i: nat, j: nat, t: Tensor<E>, t': Tensor<E>)
    requires Joinable(a, b, d) && i < |a.shape| && j < |a.shape|
    requires var d' := if d == i then j else if d == j then i else d;
      var a', b' := Transposed(a, i, j), Transposed(b, i, j);
      && Joinable(a', b', d') && t == Join(a, b, d) && t' == Join(a', b', d')
      && t'.shape == Swap(t.shape, i, j)
    ensures Transposed(t, i, j) == t'
  {
    var d' := if d == i then j else if d == j then i else d;
    var left := Transposed(t, i, j);
    forall idx | InBounds(idx, left.shape) ensures At(left, idx) == At(t', idx) {
      TransposeBounds(a, b, d, i, j, idx);
      TransposeJoinAt(a, b, d, i, j, idx, Transposed(a, i, j), Transposed(b, i, j), d');
      TransposedAt(t, i, j, idx);
      JoinAt(a, b, d, Swap(idx, i, j));
      JoinAt(Transposed(a, i, j), Transposed(b, i, j), d', idx);
    }
    SameElements(left, t');
  }

  // ---- Every operation, every program ----

  /** The assertion on the split dimension alone. */
  predicate AcceptsDim(op: Op, dim: nat, rank: nat) {
    match op
    case Flatten(start, end) => dim <= start || (if end == -1 then rank - 1 else end) < dim
    case Unflatten(d, _) => d != dim
    case Transpose(_, _) => true
    case Unsqueeze(_) => true
  }

  lemma FlattenOp<E>(op: Op, a: Tensor<E>, b: Tensor<E>, d: nat, a': Tensor<E>, b': Tensor<E>)
    requires op.Flatten? && Joinable(a, b, d) && Supported(op) && AcceptsDim(op, d, |a.shape|)
    requires Apply(op, a) == Some(a') && Apply(op, b) == Some(b')
    ensures TrackedDim(op, d, |a.shape|) >= 0 && Commutes(op, a, b, d, a', b', TrackedDim(op, d, |a.shape|))
  {
    FlattenCommutes(a, b, d, op.start, Resolve(op.end, |a.shape|));
  }

  lemma UnflattenOp<E>(op: Op, a: Tensor<E>, b: Tensor<E>, d: nat, a': Tensor<E>, b': Tensor<E>)
    requires op.Unflatten? && Joinable(a, b, d) && Supported(op) && AcceptsDim(op, d, |a.shape|)
    requires Apply(op, a) == Some(a') && Apply(op, b) == Some(b')
    ensures TrackedDim(op, d, |a.shape|) >= 0 && Commutes(op, a, b, d, a', b', TrackedDim(op, d, |a.shape|))
  {
    UnflattenCommutes(a, b, d, op.dim, op.sizes);
  }

  lemma TransposeOp<E>(op: Op, a: Tensor<E>, b: Tensor<E>, d: nat, a': Tensor<E>, b': Tensor<E>)
    requires op.Transpose? && Joinable(a, b, d) && Supported(op) && AcceptsDim(op, d, |a.shape|)
    requires Apply(op, a) == Some(a') && Apply(op, b) == Some(b')
    ensures TrackedDim(op, d, |a.shape|) >= 0 && Commutes(op, a, b, d, a', b', TrackedDim(op, d, |a.shape|))
  {
    TransposeCommutes(a, b, d, op.dim0, op.dim1);
  }

  lemma UnsqueezeOp<E>(op: Op, a: Tensor<E>, b: Tensor<E>, d: nat, a': Tensor<E>, b': Tensor<E>)
    requires op.Unsqueeze? && Joinable(a, b, d) && Supported(op) && AcceptsDim(op, d, |a.shape|)
    requires Apply(op, a) == Some(a') && Apply(op, b) == Some(b')
    ensures TrackedDim(op, d, |a.shape|) >= 0 && Commutes(op, a, b, d, a', b', TrackedDim(op, d, |a.shape|))
  {
    UnsqueezeCommutes(a, b, d, Resolve(op.dim, |a.shape| + 1));
  }

  lemma OpCommutes<E>(op: Op, a: Tensor<E>, b: Tensor<E>, d: nat, a': Tensor<E>, b': Tensor<E>)
    requires Joinable(a, b, d) && Supported(op) && AcceptsDim(op, d, |a.shape|)
    requires Apply(op, a) == Some(a') && Apply(op, b) == Some(b')
    ensures TrackedDim(op, d, |a.shape|) >= 0 && Commutes(op, a, b, d, a', b', TrackedDim(op, d, |a.shape|))
  {
    match op
    case Flatten(_, _) => FlattenOp(op, a, b, d, a', b');
    case Unflatten(_, _) => UnflattenOp(op, a, b, d, a', b');
    case Transpose(_, _) => TransposeOp(op, a, b, d, a', b');
    case Unsqueeze(_) => UnsqueezeOp(op, a, b, d, a', b');
  }

  ghost predicate AppliesTo<E>(op: Op, t: Tensor<E>, t': Tensor<E>) {
    t.Valid() && Apply(op, t) == Some(t')
  }

  ghost predicate AppliesToAll<E>(op: Op, ts: seq<Tensor<E>>, ts': seq<Tensor<E>>) {
    |ts'| == |ts| && forall i | 0 <= i < |ts| :: AppliesTo(op, ts[i], ts'[i])
  }

  lemma {:induction false} ShardsCommute<E>(op: Op, ts: seq<Tensor<E>>, d: nat, ts': seq<Tensor<E>>, d': nat)
    requires Split(ts, d).Valid() && Supported(op) && AcceptsDim(op, d, |ts[0].shape|)
    requires AppliesToAll(op, ts, ts') && d' == TrackedDim(op, d, |ts[0].shape|) && Split(ts', d').Valid()
    ensures AppliesTo(op, Unshard(Split(ts, d)), Unshard(Split(ts', d')))
  {
    assert AppliesTo(op, ts[0], ts'[0]);
    if |ts| > 1 {
      UnshardStep(ts, d);
      UnshardStep(ts', d');
      SameRank(ts, d);
      ShardsCommute(op, ts[1..], d, ts'[1..], d');
      JoinCommutes(op, ts[0], Unshard(Split(ts[1..], d)), d, ts'[0], Unshard(Split(ts'[1..], d')), d');
    }
  }

  lemma SameRank<E>(ts: seq<Tensor<E>>, d: nat)
    requires Split(ts, d).Valid() && |ts| > 1
    ensures |ts[1..][0].shape| == |ts[0].shape|
  {
  }

  lemma JoinCommutes<E>(op: Op, a: Tensor<E>, b: Tensor<E>, d: nat, a': Tensor<E>, b': Tensor<E>, d': nat)
    requires Joinable(a, b, d) && Supported(op) && AcceptsDim(op, d, |a.shape|)
    requires AppliesTo(op, a, a') && AppliesTo(op, b, b') && d' == TrackedDim(op, d, |a.shape|)
    requires Joinable(a', b', d')
    ensures AppliesTo(op, Join(a, b, d), Join(a', b', d'))
  {
    OpCommutes(op, a, b, d, a', b');
  }

  /** An operation on the shards means the operation on the whole tensor. */
  lemma SplitOpSound<E>(op: Op, x: Split<E>)
    requires x.Valid() && Supported(op) && ApplySplit(op, x).Some?
    ensures Apply(op, Unshard(x)) == Some(Unshard(ApplySplit(op, x).value))
  {
    var y := ApplySplit(op, x).value;
    forall i | 0 <= i < |x.shards| ensures AppliesTo(op, x.shards[i], y.shards[i]) {
    }
    ShardsCommute(op, x.shards, x.dim, y.shards, y.dim);
  }

  function Run<E>(program: seq<Op>, t: Tensor<E>): Option<Tensor<E>>
    requires t.Valid()
  {
    if program == [] then Some(t)
    else
      match Apply(program[0], t)
      case None => None
      case Some(t') => ApplyValid(program[0], t); Run(program[1..], t')
  }

  function RunSplit<E>(program: seq<Op>, x: Split<E>): (y: Option<Split<E>>)
    requires x.Valid()
    ensures y.Some? ==> y.value.Valid()
  {
    if program == [] then Some(x)
    else
      match ApplySplit(program[0], x)
      case None => None
      case Some(x') => RunSplit(program[1..], x')
  }

  /** Running a program of shape operations shard by shard and then concatenating on the tracked dimension is
      running it on the concatenated tensor, whenever the sharded operations accept it. */
  lemma {:induction false} SplitProgramSound<E>(program: seq<Op>, x: Split<E>)
    requires x.Valid() && (forall op | op in program :: Supported(op)) && RunSplit(program, x).Some?
    ensures Run(program, Unshard(x)) == Some(Unshard(RunSplit(program, x).value))
  {
    if program != [] {
      SplitOpSound(program[0], x);
      SplitProgramSound(program[1..], ApplySplit(program[0], x).value);
    }
  }

  /** Where a transposition takes dimension `d`. */
  function Moved(d: nat, i: int, j: int): int {
    if d == i then j else if d == j then i else d
  }

  /** A transposition is tracked by comparing the dimensions as they are written.  For at least two nonempty shards its
      result is right exactly if that finds the place where the split dimension really goes. */
  lemma TransposeTracks<E>(x: Split<E>, dim0: int, dim1: int)
    requires x.Valid() && |x.shards| >= 2
    requires forall i, k | 0 <= i < |x.shards| && 0 <= k < |x.shards[i].shape| :: x.shards[i].shape[k] > 0
    requires ApplySplit(Transpose(dim0, dim1), x).Some?
    ensures var rank := |x.shards[0].shape|;
      Apply(Transpose(dim0, dim1), Unshard(x)) == Some(Unshard(ApplySplit(Transpose(dim0, dim1), x).value))
      <==> Moved(x.dim, dim0, dim1) == Moved(x.dim, Resolve(dim0, rank), Resolve(dim1, rank))
  {
    var rank := |x.shards[0].shape|;
    var i, j := Resolve(dim0, rank), Resolve(dim1, rank);
    assert Apply(Transpose(dim0, dim1), x.shards[0]).Some?;
    var y := ApplySplit(Transpose(dim0, dim1), x).value;
    if y.dim == Moved(x.dim, i, j) {
      ApplyAllSame(Transpose(dim0, dim1), Transpose(i, j), x.shards, rank);
      SplitOpSound(Transpose(i, j), x);
    } else {
      TransposeMisplaces(x, i, j, y, dim0, dim1);
    }
  }

  lemma TransposeMisplaces<E>(x: Split<E>, i: nat, j: nat, y: Split<E>, dim0: int, dim1: int)
    requires x.Valid() && |x.shards| >= 2 && ApplySplit(Transpose(dim0, dim1), x) == Some(y)
    requires i == Resolve(dim0, |x.shards[0].shape|) && j == Resolve(dim1, |x.shards[0].shape|)
    requires i < |x.shards[0].shape| && j < |x.shards[0].shape| && y.dim != Moved(x.dim, i, j)
    requires forall k | 0 <= k < |x.shards[1].shape| :: x.shards[1].shape[k] > 0
    ensures Apply(Transpose(dim0, dim1), Unshard(x)) != Some(Unshard(y))
  {
    var t := y.dim;
    assert Apply(Transpose(dim0, dim1), x.shards[0]) == Some(y.shards[0]);
    assert Apply(Transpose(dim0, dim1), x.shards[1]) == Some(y.shards[1]);
    assert y.shards[0].shape == Swap(x.shards[0].shape, i, j);
    assert y.shards[1].shape == Swap(x.shards[1].shape, i, j);
    DimSumOfTwo(y.shards, t);
    assert Unshard(y).shape[t] > y.shards[0].shape[t];
    assert Swap(Unshard(x).shape, i, j)[t] == Swap(x.shards[0].shape, i, j)[t];
  }

  /** A matrix split by columns and transposed as `(0, -1)` is put together by columns again. */
  lemma TransposeMixedSigns<E>(a: Tensor<E>, b: Tensor<E>)
    requires a.Valid() && b.Valid() && a.shape == [1, 1] == b.shape
    ensures var x := Split([a, b], 1);
      x.Valid() && ApplySplit(Transpose(0, -1), x) == Some(x) && Unshard(x).shape == [1, 2]
      && Apply(Transpose(0, -1), Unshard(x)) != Some(Unshard(x))
  {
    var x := Split([a, b], 1);
    TransposedOne(a);
    TransposedOne(b);
    assert x.Valid();
    assert [b][1..] == [] && [a, b][1..] == [b];
    assert ApplyAll(Transpose(0, -1), [b]).Some?;
    assert ApplyAll(Transpose(0, -1), x.shards).value == x.shards;
    TransposeTracks(x, 0, -1);
  }

  lemma TransposedOne<E>(t: Tensor<E>)
    requires t.Valid() && t.shape == [1, 1]
    ensures Transposed(t, 0, 1) == t
  {
    var r := Transposed(t, 0, 1);
    forall idx | InBounds(idx, r.shape) ensures At(r, idx) == At(t, idx) {
      TransposedAt(t, 0, 1, idx);
      assert Swap(idx, 0, 1) == idx;
    }
    SameElements(r, t);
  }

  lemma {:induction false} ApplyAllSame<E>(op: Op, op': Op, ts: seq<Tensor<E>>, rank: nat)
    requires forall t | t in ts :: t.Valid() && |t.shape| == rank
    requires op.Transpose? && op' == Transpose(Resolve(op.dim0, rank), Resolve(op.dim1, rank))
    requires Resolve(op.dim0, rank) >= 0 && Resolve(op.dim1, rank) >= 0
    ensures ApplyAll(op, ts) == ApplyAll(op', ts)
  {
    if ts != [] {
      assert Apply(op, ts[0]) == Apply(op', ts[0]);
      ApplyAllSame(op, op', ts[1..], rank);
    }
  }

  lemma DimSumOfTwo<E>(ts: seq<Tensor<E>>, d: nat)
    requires |ts| >= 2 && forall i | 0 <= i < |ts| :: d < |ts[i].shape|
    ensures DimSum(ts, d) >= ts[0].shape[d] + ts[1].shape[d]
  {
    assert DimSum(ts[1..], d) == ts[1].shape[d] + DimSum(ts[1..][1..], d);
  }
}
