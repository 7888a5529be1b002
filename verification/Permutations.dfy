/** Permuting the dimensions of a split tensor. */
module Permutations {
  import opened Sharding
  import opened Slices
  import opened Tensors
  import opened Wrappers

  /** Every dimension occurs exactly once. */
  ghost predicate Permutation(dims: seq<nat>) {
    && (forall k | 0 <= k < |dims| :: dims[k] < |dims|)
    && (forall k, l | 0 <= k < |dims| && 0 <= l < |dims| && dims[k] == dims[l] :: k == l)
    && (forall m: nat | m < |dims| :: m in dims)
  }

  /** Where dimension `m` goes. */
  function Find(dims: seq<nat>, m: nat): (k: nat)
    requires m in dims
    ensures k < |dims| && dims[k] == m
  {
    if dims[0] == m then 0 else 1 + Find(dims[1..], m)
  }

  lemma FindUnique(dims: seq<nat>, k: nat)
    requires Permutation(dims) && k < |dims|
    ensures dims[k] in dims && Find(dims, dims[k]) == k
  {
    assert dims[Find(dims, dims[k])] == dims[k];
  }

  function PermutedShape(shape: seq<nat>, dims: seq<nat>): (s: seq<nat>)
    requires |dims| == |shape| && forall k | 0 <= k < |dims| :: dims[k] < |dims|
  {
    seq(|dims|, k requires 0 <= k < |dims| => shape[dims[k]])
  }

  /** The index that an index of the permuted tensor stands for. */
  ghost function Source(dims: seq<nat>, idx: seq<nat>): (s: seq<nat>)
    requires Permutation(dims) && |idx| == |dims|
    ensures |s| == |dims| && forall k | 0 <= k < |dims| :: s[dims[k]] == idx[k]
  {
    var s := seq(|dims|, m requires 0 <= m < |dims| => idx[Find(dims, m)]);
    assert forall k | 0 <= k < |dims| :: s[dims[k]] == idx[k] by {
      forall k | 0 <= k < |dims| ensures s[dims[k]] == idx[k] {
        FindUnique(dims, k);
      }
    }
    s
  }

  lemma SourceBounds(shape: seq<nat>, dims: seq<nat>, idx: seq<nat>)
    requires Permutation(dims) && |dims| == |shape| && InBounds(idx, PermutedShape(shape, dims))
    ensures InBounds(Source(dims, idx), shape)
  {
    var s := Source(dims, idx);
    forall m | 0 <= m < |s| ensures s[m] < shape[m] {
      var k := Find(dims, m);
      assert s[dims[k]] == idx[k] && idx[k] < PermutedShape(shape, dims)[k];
    }
  }

  ghost function PermutedAt<E>(t: Tensor<E>, dims: seq<nat>, idx: seq<nat>): E
    requires t.Valid() && Permutation(dims) && |dims| == |t.shape| && InBounds(idx, PermutedShape(t.shape, dims))
  {
    SourceBounds(t.shape, dims, idx);
    At(t, Source(dims, idx))
  }

  ghost function Permuted<E>(t: Tensor<E>, dims: seq<nat>): (r: Tensor<E>)
    requires t.Valid() && Permutation(dims) && |dims| == |t.shape|
    ensures r.Valid() && r.shape == PermutedShape(t.shape, dims)
    ensures IsPermuted(r, t, dims)
  {
    Build(PermutedShape(t.shape, dims), idx requires InBounds(idx, PermutedShape(t.shape, dims)) => PermutedAt(t, dims, idx))
  }

  ghost predicate IsPermuted<E>(r: Tensor<E>, t: Tensor<E>, dims: seq<nat>)
    requires t.Valid() && Permutation(dims) && |dims| == |t.shape|
  {
    && r.Valid() && r.shape == PermutedShape(t.shape, dims)
    && forall idx | InBounds(idx, r.shape) :: At(r, idx) == PermutedAt(t, dims, idx)
  }

  /** Permuting concatenated tensors concatenates the permuted ones, along the dimension that the old one goes to. */
  lemma PermutedJoin<E>(a: Tensor<E>, b: Tensor<E>, d: nat, dims: seq<nat>, e: nat)
    requires Joinable(a, b, d) && Permutation(dims) && |dims| == |a.shape| && e < |dims| && dims[e] == d
    ensures Joinable(Permuted(a, dims), Permuted(b, dims), e)
    ensures Permuted(Join(a, b, d), dims) == Join(Permuted(a, dims), Permuted(b, dims), e)
  {
    JoinJoins(a, b, d);
    PermutedJoins(Join(a, b, d), a, b, d, dims, e, Permuted(Join(a, b, d), dims), Permuted(a, dims), Permuted(b, dims));
    JoinsIsJoin(Permuted(Join(a, b, d), dims), Permuted(a, dims), Permuted(b, dims), e);
  }

  lemma PermutedJoins<E>(c: Tensor<E>, a: Tensor<E>, b: Tensor<E>, d: nat, dims: seq<nat>, e: nat,
                         p: Tensor<E>, q: Tensor<E>, r: Tensor<E>)
    requires Joins(c, a, b, d) && Permutation(dims) && |dims| == |a.shape| && e < |dims| && dims[e] == d
    requires IsPermuted(p, c, dims) && IsPermuted(q, a, dims) && IsPermuted(r, b, dims)
    ensures Joins(p, q, r, e)
  {
    PermutedUpdate(a.shape, dims, e, b.shape[d]);
    PermutedUpdate(a.shape, dims, e, a.shape[d] + b.shape[d]);
    forall idx | InBounds(idx, p.shape) ensures At(p, idx) == JoinedAt(q, r, e, idx) {
      PermutedJoinsAt(c, a, b, d, dims, e, q, r, idx);
    }
  }

  lemma PermutedUpdate(shape: seq<nat>, dims: seq<nat>, e: nat, n: nat)
    requires Permutation(dims) && |dims| == |shape| && e < |dims|
    ensures PermutedShape(shape[dims[e] := n], dims) == PermutedShape(shape, dims)[e := n]
  {
  }

  lemma PermutedJoinsAt<E>(c: Tensor<E>, a: Tensor<E>, b: Tensor<E>, d: nat, dims: seq<nat>, e: nat, q: Tensor<E>, r: Tensor<E>, idx: seq<nat>)
    requires Joins(c, a, b, d) && Permutation(dims) && |dims| == |a.shape| && e < |dims| && dims[e] == d
    requires IsPermuted(q, a, dims) && IsPermuted(r, b, dims) && Joinable(q, r, e)
    requires InBounds(idx, PermutedShape(c.shape, dims)) && InBounds(idx, JoinedShape(q, r, e))
    ensures PermutedAt(c, dims, idx) == JoinedAt(q, r, e, idx)
  {
    hide At;
    var s := Source(dims, idx);
    SourceBounds(c.shape, dims, idx);
    assert At(c, s) == JoinedAt(a, b, d, s);
    JoinedBounds(q, r, e, idx);
    assert s[d] == idx[e] && q.shape[e] == a.shape[d];
    if idx[e] < q.shape[e] {
      assert At(q, idx) == PermutedAt(a, dims, idx);
    } else {
      var idx' := idx[e := idx[e] - q.shape[e]];
      assert At(r, idx') == PermutedAt(b, dims, idx');
      SourceUpdate(dims, idx, e, idx[e] - q.shape[e]);
    }
  }

  lemma SourceUpdate(dims: seq<nat>, idx: seq<nat>, e: nat, v: nat)
    requires Permutation(dims) && |idx| == |dims| && e < |dims|
    ensures Source(dims, idx[e := v]) == Source(dims, idx)[dims[e] := v]
  {
    var s, t := Source(dims, idx[e := v]), Source(dims, idx)[dims[e] := v];
    forall m | 0 <= m < |dims| ensures s[m] == t[m] {
      var k := Find(dims, m);
      assert s[dims[k]] == idx[e := v][k];
      if k != e {
        FindUnique(dims, e);
        assert Source(dims, idx)[dims[k]] == idx[k];
      }
    }
  }

  // ---- Split tensors ----

  ghost function PermuteEach<E>(ts: seq<Tensor<E>>, dims: seq<nat>): (r: seq<Tensor<E>>)
    requires Permutation(dims) && forall i | 0 <= i < |ts| :: ts[i].Valid() && |ts[i].shape| == |dims|
    ensures |r| == |ts| && forall i | 0 <= i < |ts| :: r[i] == Permuted(ts[i], dims)
  {
    seq(|ts|, i requires 0 <= i < |ts| => Permuted(ts[i], dims))
  }

  /** `permute_split`: the split dimension is looked up in the permutation. */
  ghost function PermuteSplit<E>(x: Split<E>, dims: seq<nat>): Option<Split<E>>
    requires x.Valid() && Permutation(dims) && |dims| == |x.shards[0].shape|
  {
    MakeSplit(PermuteEach(x.shards, dims), dims[x.dim])
  }

  lemma {:induction false} PermutedUnshard<E>(ts: seq<Tensor<E>>, d: nat, dims: seq<nat>, e: nat)
    requires Split(ts, d).Valid() && Permutation(dims) && |dims| == |ts[0].shape| && e < |dims| && dims[e] == d
    ensures Split(PermuteEach(ts, dims), e).Valid()
    ensures Unshard(Split(PermuteEach(ts, dims), e)) == Permuted(Unshard(Split(ts, d)), dims)
    decreases |ts|
  {
    PermutedValid(ts, d, dims, e);
    var ps := PermuteEach(ts, dims);
    if |ts| > 1 {
      UnshardStep(ts, d);
      UnshardStep(ps, e);
      assert ps[1..] == PermuteEach(ts[1..], dims);
      PermutedUnshard(ts[1..], d, dims, e);
      PermutedJoin(ts[0], Unshard(Split(ts[1..], d)), d, dims, e);
    }
  }

  lemma PermutedValid<E>(ts: seq<Tensor<E>>, d: nat, dims: seq<nat>, e: nat)
    requires Split(ts, d).Valid() && Permutation(dims) && |dims| == |ts[0].shape| && e < |dims| && dims[e] == d
    ensures Split(PermuteEach(ts, dims), e).Valid()
  {
    var ps := PermuteEach(ts, dims);
    forall i | 0 <= i < |ps| ensures ps[i].shape == ps[0].shape[e := ps[i].shape[e]] {
      PermutedUpdate(ts[0].shape, dims, e, ts[i].shape[d]);
    }
  }

  /** For more than one shard, none of them empty, permuting is right exactly if the permutation takes the split dimension
      there and back: looking the dimension up gives its new place only then. */
  lemma PermuteSplitSound<E>(x: Split<E>, dims: seq<nat>)
    requires x.Valid() && Permutation(dims) && |dims| == |x.shards[0].shape| && |x.shards| > 1
    requires forall k | 0 <= k < |dims| :: x.shards[0].shape[k] > 0
    ensures PermuteSplit(x, dims).Some? && Unshard(PermuteSplit(x, dims).value) == Permuted(Unshard(x), dims)
       <==> dims[dims[x.dim]] == x.dim
  {
    var e := dims[x.dim];
    if dims[e] == x.dim {
      PermutedUnshard(x.shards, x.dim, dims, e);
    } else {
      var ps := PermuteEach(x.shards, dims);
      var n := x.shards[0].shape[dims[e]];
      forall i | 0 <= i < |ps| ensures e < |ps[i].shape| && ps[i].shape[e] == n {
        assert x.shards[i].shape == x.shards[0].shape[x.dim := x.shards[i].shape[x.dim]];
      }
      SumOfEqual(ps, e, n);
      assert |ps| * n >= 2 * n;
      assert Permuted(Unshard(x), dims).shape[e] == x.Shape()[dims[e]] == n;
      if PermuteSplit(x, dims).Some? {
        assert Unshard(PermuteSplit(x, dims).value).shape[e] == DimSum(ps, e);
      }
    }
  }

  /** Rotating the dimensions of a tensor that is split by the first one puts the shards together along the wrong one. */
  lemma RotationMisplaces<E>(a: Tensor<E>, b: Tensor<E>)
    requires a.Valid() && b.Valid() && a.shape == b.shape == [1, 1, 1]
    ensures Permutation([1, 2, 0])
    ensures var x := Split([a, b], 0);
      x.Valid() && !(PermuteSplit(x, [1, 2, 0]).Some?
                     && Unshard(PermuteSplit(x, [1, 2, 0]).value) == Permuted(Unshard(x), [1, 2, 0]))
  {
    Rotation();
    var x := Split([a, b], 0);
    assert x.Valid();
    PermuteSplitSound(x, [1, 2, 0]);
  }

  lemma Rotation()
    ensures Permutation([1, 2, 0])
  {
    var dims := [1, 2, 0];
    assert dims[0] == 1 && dims[1] == 2 && dims[2] == 0;
  }
}
