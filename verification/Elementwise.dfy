/** Elementwise operations with broadcasting, and how they distribute over concatenation. */
module Elementwise {
  import opened Sharding
  import opened Slices
  import opened Tensors

  // ---- One operand ----

  function Map(f: real -> real, x: Tensor<real>): (t: Tensor<real>)
    requires x.Valid()
    ensures t.Valid() && t.shape == x.shape
    ensures forall idx | InBounds(idx, x.shape) :: At(t, idx) == f(At(x, idx))
  {
    Tensor(x.shape, seq(|x.data|, k requires 0 <= k < |x.data| => f(x.data[k])))
  }

  ghost predicate IsMap(m: Tensor<real>, f: real -> real, x: Tensor<real>) {
    && x.Valid() && m.Valid() && m.shape == x.shape
    && forall idx | InBounds(idx, x.shape) :: At(m, idx) == f(At(x, idx))
  }

  lemma MapOfJoin(f: real -> real, x: Tensor<real>, x': Tensor<real>, d: nat)
    requires Joinable(x, x', d)
    ensures Joinable(Map(f, x), Map(f, x'), d) && Map(f, Join(x, x', d)) == Join(Map(f, x), Map(f, x'), d)
  {
    JoinJoins(x, x', d);
    MapsJoin(f, Join(x, x', d), x, x', d, Map(f, Join(x, x', d)), Map(f, x), Map(f, x'));
    JoinsIsJoin(Map(f, Join(x, x', d)), Map(f, x), Map(f, x'), d);
  }

  lemma MapsJoin(f: real -> real, c: Tensor<real>, x: Tensor<real>, x': Tensor<real>, d: nat,
                 m: Tensor<real>, p: Tensor<real>, p': Tensor<real>)
    requires Joins(c, x, x', d) && IsMap(m, f, c) && IsMap(p, f, x) && IsMap(p', f, x')
    ensures Joins(m, p, p', d)
  {
    forall idx | InBounds(idx, c.shape) ensures At(m, idx) == JoinedAt(p, p', d, idx) {
      JoinedBounds(x, x', d, idx);
    }
  }

  // ---- Broadcasting shapes ----

  function Max(a: nat, b: nat): nat {
    if a < b then b else a
  }

  /** Dimension `k` of a shape that is extended on the left to `rank` dimensions. */
  function DimAt(s: seq<nat>, rank: nat, k: nat): nat
    requires |s| <= rank && k < rank
  {
    if k < rank - |s| then 1 else s[k - (rank - |s|)]
  }

  function Wider(a: nat, b: nat): nat {
    if a == 1 then b else a
  }

  predicate Agree(a: nat, b: nat) {
    a == b || a == 1 || b == 1
  }

  predicate Compatible(s: seq<nat>, t: seq<nat>) {
    var rank := Max(|s|, |t|);
    forall k | 0 <= k < rank :: Agree(DimAt(s, rank, k), DimAt(t, rank, k))
  }

  /** `torch.broadcast_shapes` of compatible shapes. */
  function BroadcastShape(s: seq<nat>, t: seq<nat>): (r: seq<nat>)
    ensures |r| == Max(|s|, |t|)
    ensures forall k | 0 <= k < |r| :: r[k] == Wider(DimAt(s, |r|, k), DimAt(t, |r|, k))
  {
    var rank := Max(|s|, |t|);
    seq(rank, k requires 0 <= k < rank => Wider(DimAt(s, rank, k), DimAt(t, rank, k)))
  }

  /** A tensor of shape `s` can be repeated to shape `r`. */
  predicate Stretches(s: seq<nat>, r: seq<nat>) {
    |s| <= |r| && forall k | 0 <= k < |r| :: DimAt(s, |r|, k) == 1 || DimAt(s, |r|, k) == r[k]
  }

  lemma BothStretch(s: seq<nat>, t: seq<nat>)
    requires Compatible(s, t)
    ensures Stretches(s, BroadcastShape(s, t)) && Stretches(t, BroadcastShape(s, t))
  {
    var r := BroadcastShape(s, t);
    forall k | 0 <= k < |r|
      ensures DimAt(s, |r|, k) == 1 || DimAt(s, |r|, k) == r[k]
      ensures DimAt(t, |r|, k) == 1 || DimAt(t, |r|, k) == r[k]
    {
      assert Agree(DimAt(s, |r|, k), DimAt(t, |r|, k));
    }
  }

  // ---- Two operands ----

  predicate Broadcasts(x: Tensor<real>, y: Tensor<real>) {
    x.Valid() && y.Valid() && Compatible(x.shape, y.shape)
  }

  /** The index into an operand of the given shape: leading dimensions are dropped, and a dimension of size one is repeated. */
  function Low(shape: seq<nat>, idx: seq<nat>): (low: seq<nat>)
    requires |shape| <= |idx|
    ensures |low| == |shape|
    ensures forall k | 0 <= k < |low| :: low[k] == if shape[k] == 1 then 0 else idx[k + |idx| - |shape|]
  {
    seq(|shape|, k requires 0 <= k < |shape| => if shape[k] == 1 then 0 else idx[k + |idx| - |shape|])
  }

  /** The element of an operand that meets an index of the result. */
  function Pick(t: Tensor<real>, idx: seq<nat>): real {
    if t.Valid() && |t.shape| <= |idx| && InBounds(Low(t.shape, idx), t.shape) then At(t, Low(t.shape, idx)) else 0.0
  }

  lemma LowBounds(s: seq<nat>, r: seq<nat>, idx: seq<nat>)
    requires Stretches(s, r) && InBounds(idx, r)
    ensures InBounds(Low(s, idx), s)
  {
    forall k | 0 <= k < |s| ensures Low(s, idx)[k] < s[k] {
      assert DimAt(s, |r|, k + |r| - |s|) == s[k];
    }
  }

  lemma Picked(t: Tensor<real>, r: seq<nat>, idx: seq<nat>)
    requires t.Valid() && Stretches(t.shape, r) && InBounds(idx, r)
    ensures |t.shape| <= |r| && InBounds(Low(t.shape, idx), t.shape) && Pick(t, idx) == At(t, Low(t.shape, idx))
  {
    LowBounds(t.shape, r, idx);
  }

  function Zip(f: (real, real) -> real, x: Tensor<real>, y: Tensor<real>): (t: Tensor<real>)
    ensures t.Valid() && t.shape == BroadcastShape(x.shape, y.shape)
    ensures forall idx | InBounds(idx, t.shape) :: At(t, idx) == f(Pick(x, idx), Pick(y, idx))
  {
    Build(BroadcastShape(x.shape, y.shape), idx => f(Pick(x, idx), Pick(y, idx)))
  }

  lemma ZippedAt(f: (real, real) -> real, x: Tensor<real>, y: Tensor<real>, idx: seq<nat>)
    requires InBounds(idx, BroadcastShape(x.shape, y.shape))
    ensures At(Zip(f, x, y), idx) == f(Pick(x, idx), Pick(y, idx))
  {
  }

  // ---- Operands of one shape ----

  lemma SameShape(s: seq<nat>)
    ensures Compatible(s, s) && BroadcastShape(s, s) == s
  {
  }

  lemma PickWhole(t: Tensor<real>, idx: seq<nat>)
    requires t.Valid() && InBounds(idx, t.shape)
    ensures Pick(t, idx) == At(t, idx)
  {
    assert Low(t.shape, idx) == idx;
  }

  lemma ZippedSame(f: (real, real) -> real, x: Tensor<real>, y: Tensor<real>, idx: seq<nat>)
    requires x.Valid() && y.Valid() && y.shape == x.shape && InBounds(idx, x.shape)
    ensures Broadcasts(x, y) && Zip(f, x, y).shape == x.shape && At(Zip(f, x, y), idx) == f(At(x, idx), At(y, idx))
  {
    hide Compatible, BroadcastShape, Zip, Pick, At;
    SameShape(x.shape);
    ZippedAt(f, x, y, idx);
    PickWhole(x, idx);
    PickWhole(y, idx);
  }

  function Add(x: Tensor<real>, y: Tensor<real>): (t: Tensor<real>)
    requires x.Valid() && y.Valid() && y.shape == x.shape
    ensures t.Valid() && t.shape == x.shape
  {
    SameShape(x.shape);
    Zip((a: real, b: real) => a + b, x, y)
  }

  lemma AddedAt(x: Tensor<real>, y: Tensor<real>, idx: seq<nat>)
    requires x.Valid() && y.Valid() && y.shape == x.shape && InBounds(idx, x.shape)
    ensures At(Add(x, y), idx) == At(x, idx) + At(y, idx)
  {
    SameShape(x.shape);
    ZippedAt((a: real, b: real) => a + b, x, y, idx);
    PickWhole(x, idx);
    PickWhole(y, idx);
  }

  // ---- Concatenations ----

  /** What meets an index of a concatenation that is cut at `m` in dimension `d`. */
  function PickPart(x: Tensor<real>, x': Tensor<real>, d: nat, m: nat, idx: seq<nat>): real
    requires d < |idx|
  {
    if idx[d] < m then Pick(x, idx) else Pick(x', idx[d := idx[d] - m])
  }

  /** An operand of a result of shape `r` that is cut at `m` in dimension `d` falls into the two parts. */
  ghost predicate Follows(c: Tensor<real>, x: Tensor<real>, x': Tensor<real>, r: seq<nat>, d: nat, m: nat) {
    d < |r| && forall idx | InBounds(idx, r) :: Pick(c, idx) == PickPart(x, x', d, m, idx)
  }

  /** A concatenation follows a cut between its parts. */
  lemma CutFollows(c: Tensor<real>, x: Tensor<real>, x': Tensor<real>, e: nat, r: seq<nat>, d: nat)
    requires Joins(c, x, x', e) && Stretches(c.shape, r) && d < |r| && d == e + |r| - |x.shape|
    requires r[d] == x.shape[e] + x'.shape[e]
    ensures Follows(c, x, x', r, d, x.shape[e])
  {
    forall idx | InBounds(idx, r) ensures Pick(c, idx) == PickPart(x, x', d, x.shape[e], idx) {
      Picked(c, r, idx);
      CutFollowsAt(c, x, x', e, idx, d);
    }
  }

  lemma CutFollowsAt(c: Tensor<real>, x: Tensor<real>, x': Tensor<real>, e: nat, idx: seq<nat>, d: nat)
    requires Joins(c, x, x', e) && |c.shape| <= |idx| && d == e + |idx| - |x.shape| && idx[d] < x.shape[e] + x'.shape[e]
    requires InBounds(Low(c.shape, idx), c.shape) && Pick(c, idx) == At(c, Low(c.shape, idx))
    ensures Pick(c, idx) == PickPart(x, x', d, x.shape[e], idx)
  {
    hide At;
    var low, m := Low(c.shape, idx), x.shape[e];
    assert low[e] == idx[d];
    assert At(c, low) == JoinedAt(x, x', e, low);
    JoinedBounds(x, x', e, low);
    if idx[d] < m {
      assert Low(x.shape, idx) == low;
    } else {
      assert Low(x'.shape, idx[d := idx[d] - m]) == low[e := idx[d] - m];
    }
  }

  /** The operand does not change along dimension `d` of a result of the given rank. */
  predicate Whole(s: seq<nat>, rank: nat, d: nat) {
    |s| <= rank && d < rank && DimAt(s, rank, d) == 1
  }

  /** Such an operand follows any cut, and is the same for both parts. */
  lemma WholeFollows(x: Tensor<real>, r: seq<nat>, d: nat, m: nat)
    requires Whole(x.shape, |r|, d)
    ensures Follows(x, x, x, r, d, m)
  {
    forall idx | InBounds(idx, r) ensures Pick(x, idx) == PickPart(x, x, d, m, idx) {
      if idx[d] >= m {
        assert Low(x.shape, idx) == Low(x.shape, idx[d := idx[d] - m]);
      }
    }
  }

  /** If both operands follow the cut of the result, so does the result. */
  lemma ZipsJoin(f: (real, real) -> real, c: Tensor<real>, e: Tensor<real>, x: Tensor<real>, y: Tensor<real>,
                 x': Tensor<real>, y': Tensor<real>, d: nat)
    requires Joinable(Zip(f, x, y), Zip(f, x', y'), d)
    requires BroadcastShape(c.shape, e.shape) == JoinedShape(Zip(f, x, y), Zip(f, x', y'), d)
    requires Follows(c, x, x', BroadcastShape(c.shape, e.shape), d, Zip(f, x, y).shape[d])
    requires Follows(e, y, y', BroadcastShape(c.shape, e.shape), d, Zip(f, x, y).shape[d])
    ensures Zip(f, c, e) == Join(Zip(f, x, y), Zip(f, x', y'), d)
  {
    var z, z' := Zip(f, x, y), Zip(f, x', y');
    ZipsJoinAt(f, c, e, x, y, x', y', d, z, z');
    JoinsIsJoin(Zip(f, c, e), z, z', d);
  }

  lemma ZipsJoinAt(f: (real, real) -> real, c: Tensor<real>, e: Tensor<real>, x: Tensor<real>, y: Tensor<real>,
                   x': Tensor<real>, y': Tensor<real>, d: nat, z: Tensor<real>, z': Tensor<real>)
    requires z == Zip(f, x, y) && z' == Zip(f, x', y') && Joinable(z, z', d)
    requires BroadcastShape(c.shape, e.shape) == JoinedShape(z, z', d)
    requires Follows(c, x, x', JoinedShape(z, z', d), d, z.shape[d]) && Follows(e, y, y', JoinedShape(z, z', d), d, z.shape[d])
    ensures Joins(Zip(f, c, e), z, z', d)
  {
    hide At, Pick;
    forall idx | InBounds(idx, JoinedShape(z, z', d)) ensures At(Zip(f, c, e), idx) == JoinedAt(z, z', d, idx) {
      ZippedAt(f, c, e, idx);
      JoinedBounds(z, z', d, idx);
      assert Pick(c, idx) == PickPart(x, x', d, z.shape[d], idx) && Pick(e, idx) == PickPart(y, y', d, z.shape[d], idx);
    }
  }

  // ---- Cutting both operands ----

  /** Changing corresponding dimensions of both shapes alike. */
  lemma ShapesUpdated(s: seq<nat>, t: seq<nat>, i: nat, j: nat, v: nat)
    requires Compatible(s, t) && i < |s| && j < |t| && i + |t| == j + |s|
    ensures var s', t', d := s[i := v], t[j := v], i + Max(|s|, |t|) - |s|;
      Compatible(s', t') && BroadcastShape(s', t') == BroadcastShape(s, t)[d := v]
  {
    var rank := Max(|s|, |t|);
    var s', t', d := s[i := v], t[j := v], i + rank - |s|;
    forall k | 0 <= k < rank
      ensures Agree(DimAt(s', rank, k), DimAt(t', rank, k))
      ensures Wider(DimAt(s', rank, k), DimAt(t', rank, k)) == BroadcastShape(s, t)[d := v][k]
    {
      assert Agree(DimAt(s, rank, k), DimAt(t, rank, k));
    }
  }

  /** Changing a dimension of the first shape where the second does not count. */
  lemma ShapeUpdated(s: seq<nat>, t: seq<nat>, i: nat, v: nat)
    requires Compatible(s, t) && i < |s| && Whole(t, Max(|s|, |t|), i + Max(|s|, |t|) - |s|)
    ensures var s', d := s[i := v], i + Max(|s|, |t|) - |s|;
      Compatible(s', t) && BroadcastShape(s', t) == BroadcastShape(s, t)[d := v] && BroadcastShape(s, t)[d] == s[i]
  {
    var rank := Max(|s|, |t|);
    var s', d := s[i := v], i + rank - |s|;
    forall k | 0 <= k < rank
      ensures Agree(DimAt(s', rank, k), DimAt(t, rank, k))
      ensures Wider(DimAt(s', rank, k), DimAt(t, rank, k)) == BroadcastShape(s, t)[d := v][k]
    {
      assert Agree(DimAt(s, rank, k), DimAt(t, rank, k));
    }
  }

  /** The shapes of the parts and of the whole, if both operands are cut at the same place. */
  lemma CutShapes(s: seq<nat>, t: seq<nat>, i: nat, j: nat, n: nat)
    requires Compatible(s, t) && i < |s| && j < |t| && i + |t| == j + |s| && t[j] == s[i]
    ensures var d, r := i + Max(|s|, |t|) - |s|, BroadcastShape(s, t);
      && r[d] == s[i]
      && Compatible(s[i := n], t[j := n]) && BroadcastShape(s[i := n], t[j := n]) == r[d := n]
      && Compatible(s[i := s[i] + n], t[j := s[i] + n]) && BroadcastShape(s[i := s[i] + n], t[j := s[i] + n]) == r[d := s[i] + n]
  {
    hide Agree;
    ShapesUpdated(s, t, i, j, n);
    ShapesUpdated(s, t, i, j, s[i] + n);
  }

  lemma JoinFollows(x: Tensor<real>, x': Tensor<real>, i: nat, r: seq<nat>, d: nat)
    requires Joinable(x, x', i) && Stretches(JoinedShape(x, x', i), r) && d < |r| && d == i + |r| - |x.shape|
    requires r[d] == x.shape[i] + x'.shape[i]
    ensures Follows(Join(x, x', i), x, x', r, d, x.shape[i])
  {
    JoinJoins(x, x', i);
    CutFollows(Join(x, x', i), x, x', i, r, d);
  }

  /** Cutting both operands at the same place of the broadcast shape. */
  lemma ZipOfJoins(f: (real, real) -> real, x: Tensor<real>, x': Tensor<real>, i: nat, y: Tensor<real>, y': Tensor<real>, j: nat, d: nat)
    requires Joinable(x, x', i) && Joinable(y, y', j) && Broadcasts(x, y)
    requires i + |y.shape| == j + |x.shape| && y.shape[j] == x.shape[i] && y'.shape[j] == x'.shape[i]
    requires d == i + Max(|x.shape|, |y.shape|) - |x.shape|
    ensures Broadcasts(x', y') && Broadcasts(Join(x, x', i), Join(y, y', j)) && Joinable(Zip(f, x, y), Zip(f, x', y'), d)
    ensures Zip(f, Join(x, x', i), Join(y, y', j)) == Join(Zip(f, x, y), Zip(f, x', y'), d)
  {
    hide At, Pick, InBounds, Compatible, BroadcastShape, Join, Zip, Stretches, Follows;
    CutShapes(x.shape, y.shape, i, j, x'.shape[i]);
    BothFollow(x, x', i, y, y', j, d, BroadcastShape(JoinedShape(x, x', i), JoinedShape(y, y', j)));
    ZipsJoin(f, Join(x, x', i), Join(y, y', j), x, y, x', y', d);
  }

  lemma BothFollow(x: Tensor<real>, x': Tensor<real>, i: nat, y: Tensor<real>, y': Tensor<real>, j: nat, d: nat, r: seq<nat>)
    requires Joinable(x, x', i) && Joinable(y, y', j) && Compatible(JoinedShape(x, x', i), JoinedShape(y, y', j))
    requires r == BroadcastShape(JoinedShape(x, x', i), JoinedShape(y, y', j)) && d < |r| && r[d] == x.shape[i] + x'.shape[i]
    requires i + |y.shape| == j + |x.shape| && y.shape[j] == x.shape[i] && y'.shape[j] == x'.shape[i]
    requires d == i + Max(|x.shape|, |y.shape|) - |x.shape|
    ensures Follows(Join(x, x', i), x, x', r, d, x.shape[i]) && Follows(Join(y, y', j), y, y', r, d, x.shape[i])
  {
    hide At, Pick, InBounds, Join, Stretches, Follows, Compatible;
    BothStretch(JoinedShape(x, x', i), JoinedShape(y, y', j));
    JoinFollows(x, x', i, r, d);
    JoinFollows(y, y', j, r, d);
  }

  /** Cutting the first operand where the second does not change. */
  lemma ZipOfJoinAndWhole(f: (real, real) -> real, x: Tensor<real>, x': Tensor<real>, i: nat, y: Tensor<real>, d: nat)
    requires Joinable(x, x', i) && Broadcasts(x, y) && d == i + Max(|x.shape|, |y.shape|) - |x.shape|
    requires Whole(y.shape, Max(|x.shape|, |y.shape|), d)
    ensures Broadcasts(x', y) && Broadcasts(Join(x, x', i), y) && Joinable(Zip(f, x, y), Zip(f, x', y), d)
    ensures Zip(f, Join(x, x', i), y) == Join(Zip(f, x, y), Zip(f, x', y), d)
  {
    hide At, Pick, InBounds, Compatible, BroadcastShape, Join, Zip, Stretches, Follows, Whole;
    ShapeUpdated(x.shape, y.shape, i, x'.shape[i]);
    ShapeUpdated(x.shape, y.shape, i, x.shape[i] + x'.shape[i]);
    var r := BroadcastShape(JoinedShape(x, x', i), y.shape);
    BothStretch(JoinedShape(x, x', i), y.shape);
    JoinFollows(x, x', i, r, d);
    WholeFollows(y, r, d, x.shape[i]);
    ZipsJoin(f, Join(x, x', i), y, x, y, x', y, d);
  }
}
