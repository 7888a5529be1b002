/** Matrix products of real tensors, and how they distribute over concatenation. */
module Products {
  import opened Elementwise
  import opened Sharding
  import opened Slices
  import opened Sums
  import opened Tensors

  function Last(shape: seq<nat>): nat
    requires shape != []
  {
    |shape| - 1
  }

  /** A tensor of row vectors times a matrix. */
  predicate CanMatmul(a: Tensor<real>, b: Tensor<real>) {
    && a.Valid() && b.Valid() && |a.shape| >= 2 && |b.shape| == 2
    && a.shape[Last(a.shape)] == b.shape[0]
  }

  function MatmulShape(a: Tensor<real>, b: Tensor<real>): seq<nat>
    requires CanMatmul(a, b)
  {
    a.shape[Last(a.shape) := b.shape[1]]
  }

  /** Term `k` of the product at `idx`. */
  function Term(a: Tensor<real>, b: Tensor<real>, idx: seq<nat>, k: nat): real
    requires CanMatmul(a, b) && InBounds(idx, MatmulShape(a, b)) && k < b.shape[0]
  {
    At(a, idx[Last(a.shape) := k]) * At(b, [k, idx[Last(a.shape)]])
  }

  function Terms(a: Tensor<real>, b: Tensor<real>, idx: seq<nat>): nat -> real
    requires CanMatmul(a, b) && InBounds(idx, MatmulShape(a, b))
  {
    (k: nat) => if k < b.shape[0] then Term(a, b, idx, k) else 0.0
  }

  function Dot(a: Tensor<real>, b: Tensor<real>, idx: seq<nat>): real
    requires CanMatmul(a, b) && InBounds(idx, MatmulShape(a, b))
  {
    Sum(b.shape[0], Terms(a, b, idx))
  }

  function Matmul(a: Tensor<real>, b: Tensor<real>): (t: Tensor<real>)
    requires CanMatmul(a, b)
    ensures t.Valid() && t.shape == MatmulShape(a, b)
  {
    Build(MatmulShape(a, b), idx requires InBounds(idx, MatmulShape(a, b)) => Dot(a, b, idx))
  }

  // ---- Products of concatenations ----

  /** Rows of the left factor can be multiplied separately. */
  lemma MatmulOfRows(a: Tensor<real>, a': Tensor<real>, d: nat, b: Tensor<real>)
    requires Joinable(a, a', d) && d < Last(a.shape) && CanMatmul(a, b) && CanMatmul(a', b)
    ensures CanMatmul(Join(a, a', d), b) && Joinable(Matmul(a, b), Matmul(a', b), d)
    ensures Matmul(Join(a, a', d), b) == Join(Matmul(a, b), Matmul(a', b), d)
  {
    JoinJoins(a, a', d);
    RowsJoin(Join(a, a', d), a, a', d, b, Matmul(a, b), Matmul(a', b));
    JoinsIsJoin(Matmul(Join(a, a', d), b), Matmul(a, b), Matmul(a', b), d);
  }

  ghost predicate IsProduct(p: Tensor<real>, a: Tensor<real>, b: Tensor<real>) {
    && CanMatmul(a, b) && p.Valid() && p.shape == MatmulShape(a, b)
    && forall idx | InBounds(idx, p.shape) :: At(p, idx) == Dot(a, b, idx)
  }

  lemma RowsJoin(c: Tensor<real>, a: Tensor<real>, a': Tensor<real>, d: nat, b: Tensor<real>, p: Tensor<real>, p': Tensor<real>)
    requires Joins(c, a, a', d) && d < Last(a.shape) && IsProduct(p, a, b) && IsProduct(p', a', b)
    ensures CanMatmul(c, b) && Joins(Matmul(c, b), p, p', d)
  {
    forall idx | InBounds(idx, MatmulShape(c, b)) ensures Dot(c, b, idx) == JoinedAt(p, p', d, idx) {
      JoinedBounds(p, p', d, idx);
      DotOfRows(c, a, a', d, b, idx);
    }
  }

  lemma DotOfRows(c: Tensor<real>, a: Tensor<real>, a': Tensor<real>, d: nat, b: Tensor<real>, idx: seq<nat>)
    requires Joins(c, a, a', d) && d < Last(a.shape) && CanMatmul(a, b) && CanMatmul(a', b) && CanMatmul(c, b)
    requires InBounds(idx, MatmulShape(c, b))
    ensures idx[d] < a.shape[d] ==> InBounds(idx, MatmulShape(a, b)) && Dot(c, b, idx) == Dot(a, b, idx)
    ensures idx[d] >= a.shape[d] ==>
      && InBounds(idx[d := idx[d] - a.shape[d]], MatmulShape(a', b))
      && Dot(c, b, idx) == Dot(a', b, idx[d := idx[d] - a.shape[d]])
  {
    if idx[d] < a.shape[d] {
      forall k: nat | k < b.shape[0] ensures Terms(c, b, idx)(k) == Terms(a, b, idx)(k) {
        TermOfRows(c, a, a', d, b, idx, k);
      }
      SumSame(b.shape[0], Terms(c, b, idx), Terms(a, b, idx));
    } else {
      var idx' := idx[d := idx[d] - a.shape[d]];
      forall k: nat | k < b.shape[0] ensures Terms(c, b, idx)(k) == Terms(a', b, idx')(k) {
        TermOfRows(c, a, a', d, b, idx, k);
      }
      SumSame(b.shape[0], Terms(c, b, idx), Terms(a', b, idx'));
    }
  }

  lemma TermOfRows(c: Tensor<real>, a: Tensor<real>, a': Tensor<real>, d: nat, b: Tensor<real>, idx: seq<nat>, k: nat)
    requires Joins(c, a, a', d) && d < Last(a.shape) && CanMatmul(a, b) && CanMatmul(a', b) && CanMatmul(c, b)
    requires InBounds(idx, MatmulShape(c, b)) && k < b.shape[0]
    ensures idx[d] < a.shape[d] ==> InBounds(idx, MatmulShape(a, b)) && Term(c, b, idx, k) == Term(a, b, idx, k)
    ensures idx[d] >= a.shape[d] ==>
      && InBounds(idx[d := idx[d] - a.shape[d]], MatmulShape(a', b))
      && Term(c, b, idx, k) == Term(a', b, idx[d := idx[d] - a.shape[d]], k)
  {
    hide At;
    var last := Last(a.shape);
    assert At(c, idx[last := k]) == JoinedAt(a, a', d, idx[last := k]);
    if idx[d] >= a.shape[d] {
      assert idx[d := idx[d] - a.shape[d]][last := k] == idx[last := k][d := idx[d] - a.shape[d]];
    }
  }

  /** Columns of the right factor can be multiplied separately. */
  lemma MatmulOfColumns(a: Tensor<real>, b: Tensor<real>, b': Tensor<real>)
    requires CanMatmul(a, b) && CanMatmul(a, b') && Joinable(b, b', 1)
    ensures CanMatmul(a, Join(b, b', 1)) && Joinable(Matmul(a, b), Matmul(a, b'), Last(a.shape))
    ensures Matmul(a, Join(b, b', 1)) == Join(Matmul(a, b), Matmul(a, b'), Last(a.shape))
  {
    JoinJoins(b, b', 1);
    ColumnsJoin(a, Join(b, b', 1), b, b', Matmul(a, b), Matmul(a, b'));
    JoinsIsJoin(Matmul(a, Join(b, b', 1)), Matmul(a, b), Matmul(a, b'), Last(a.shape));
  }

  lemma ColumnsJoin(a: Tensor<real>, c: Tensor<real>, b: Tensor<real>, b': Tensor<real>, p: Tensor<real>, p': Tensor<real>)
    requires Joins(c, b, b', 1) && IsProduct(p, a, b) && IsProduct(p', a, b')
    ensures CanMatmul(a, c) && Joins(Matmul(a, c), p, p', Last(a.shape))
  {
    var last := Last(a.shape);
    forall idx | InBounds(idx, MatmulShape(a, c)) ensures Dot(a, c, idx) == JoinedAt(p, p', last, idx) {
      JoinedBounds(p, p', last, idx);
      DotOfColumns(a, c, b, b', idx);
    }
  }

  lemma DotOfColumns(a: Tensor<real>, c: Tensor<real>, b: Tensor<real>, b': Tensor<real>, idx: seq<nat>)
    requires Joins(c, b, b', 1) && CanMatmul(a, b) && CanMatmul(a, b') && CanMatmul(a, c)
    requires InBounds(idx, MatmulShape(a, c))
    ensures idx[Last(a.shape)] < b.shape[1] ==> InBounds(idx, MatmulShape(a, b)) && Dot(a, c, idx) == Dot(a, b, idx)
    ensures idx[Last(a.shape)] >= b.shape[1] ==>
      && InBounds(idx[Last(a.shape) := idx[Last(a.shape)] - b.shape[1]], MatmulShape(a, b'))
      && Dot(a, c, idx) == Dot(a, b', idx[Last(a.shape) := idx[Last(a.shape)] - b.shape[1]])
  {
    var last := Last(a.shape);
    if idx[last] < b.shape[1] {
      forall k: nat | k < b.shape[0] ensures Terms(a, c, idx)(k) == Terms(a, b, idx)(k) {
        TermOfColumns(a, c, b, b', idx, k);
      }
      SumSame(b.shape[0], Terms(a, c, idx), Terms(a, b, idx));
    } else {
      var idx' := idx[last := idx[last] - b.shape[1]];
      forall k: nat | k < b.shape[0] ensures Terms(a, c, idx)(k) == Terms(a, b', idx')(k) {
        TermOfColumns(a, c, b, b', idx, k);
      }
      SumSame(b.shape[0], Terms(a, c, idx), Terms(a, b', idx'));
    }
  }

  lemma TermOfColumns(a: Tensor<real>, c: Tensor<real>, b: Tensor<real>, b': Tensor<real>, idx: seq<nat>, k: nat)
    requires Joins(c, b, b', 1) && CanMatmul(a, b) && CanMatmul(a, b') && CanMatmul(a, c)
    requires InBounds(idx, MatmulShape(a, c)) && k < b.shape[0]
    ensures idx[Last(a.shape)] < b.shape[1] ==> InBounds(idx, MatmulShape(a, b)) && Term(a, c, idx, k) == Term(a, b, idx, k)
    ensures idx[Last(a.shape)] >= b.shape[1] ==>
      && InBounds(idx[Last(a.shape) := idx[Last(a.shape)] - b.shape[1]], MatmulShape(a, b'))
      && Term(a, c, idx, k) == Term(a, b', idx[Last(a.shape) := idx[Last(a.shape)] - b.shape[1]], k)
  {
    hide At;
    var last := Last(a.shape);
    var j: seq<nat> := [k, idx[last]];
    assert At(c, j) == JoinedAt(b, b', 1, j);
    if idx[last] >= b.shape[1] {
      assert j[1 := idx[last] - b.shape[1]] == [k, idx[last] - b.shape[1]];
      assert idx[last := idx[last] - b.shape[1]][last := k] == idx[last := k];
    }
  }

  /** Cutting both factors along the summed dimension gives products that add up. */
  lemma MatmulOfInner(a: Tensor<real>, a': Tensor<real>, b: Tensor<real>, b': Tensor<real>)
    requires CanMatmul(a, b) && CanMatmul(a', b') && Joinable(a, a', Last(a.shape)) && Joinable(b, b', 0)
    ensures CanMatmul(Join(a, a', Last(a.shape)), Join(b, b', 0)) && Matmul(a', b').shape == Matmul(a, b).shape
    ensures Matmul(Join(a, a', Last(a.shape)), Join(b, b', 0)) == Add(Matmul(a, b), Matmul(a', b'))
  {
    var c, e := Join(a, a', Last(a.shape)), Join(b, b', 0);
    JoinJoins(a, a', Last(a.shape));
    JoinJoins(b, b', 0);
    InnerAdds(c, a, a', e, b, b', Matmul(a, b), Matmul(a', b'));
    SameElements(Matmul(c, e), Add(Matmul(a, b), Matmul(a', b')));
  }

  lemma InnerAdds(c: Tensor<real>, a: Tensor<real>, a': Tensor<real>, e: Tensor<real>, b: Tensor<real>, b': Tensor<real>,
                  p: Tensor<real>, p': Tensor<real>)
    requires IsProduct(p, a, b) && IsProduct(p', a', b') && Joins(c, a, a', Last(a.shape)) && Joins(e, b, b', 0)
    ensures CanMatmul(c, e) && MatmulShape(c, e) == p.shape == p'.shape
    ensures forall idx | InBounds(idx, p.shape) :: At(Matmul(c, e), idx) == At(Add(p, p'), idx)
  {
    hide At, Add;
    forall idx | InBounds(idx, p.shape) ensures Dot(c, e, idx) == At(Add(p, p'), idx) {
      AddedAt(p, p', idx);
      DotOfInner(c, a, a', e, b, b', idx);
    }
  }

  lemma DotOfInner(c: Tensor<real>, a: Tensor<real>, a': Tensor<real>, e: Tensor<real>, b: Tensor<real>, b': Tensor<real>, idx: seq<nat>)
    requires CanMatmul(a, b) && CanMatmul(a', b') && CanMatmul(c, e)
    requires Joins(c, a, a', Last(a.shape)) && Joins(e, b, b', 0)
    requires InBounds(idx, MatmulShape(a, b)) && InBounds(idx, MatmulShape(a', b')) && InBounds(idx, MatmulShape(c, e))
    ensures Dot(c, e, idx) == Dot(a, b, idx) + Dot(a', b', idx)
  {
    SumOfInner(c, a, a', e, b, b', idx);
  }

  lemma SumOfInner(c: Tensor<real>, a: Tensor<real>, a': Tensor<real>, e: Tensor<real>, b: Tensor<real>, b': Tensor<real>, idx: seq<nat>)
    requires CanMatmul(a, b) && CanMatmul(a', b') && CanMatmul(c, e)
    requires Joins(c, a, a', Last(a.shape)) && Joins(e, b, b', 0)
    requires InBounds(idx, MatmulShape(a, b)) && InBounds(idx, MatmulShape(a', b')) && InBounds(idx, MatmulShape(c, e))
    ensures e.shape[0] == b.shape[0] + b'.shape[0]
    ensures Sum(e.shape[0], Terms(c, e, idx)) == Sum(b.shape[0], Terms(a, b, idx)) + Sum(b'.shape[0], Terms(a', b', idx))
  {
    hide Term;
    var m, n := b.shape[0], b'.shape[0];
    forall k: nat | k < m + n
      ensures Terms(c, e, idx)(k) == if k < m then Terms(a, b, idx)(k) else Terms(a', b', idx)(k - m)
    {
      TermOfInner(c, a, a', e, b, b', idx, k);
    }
    SumParts(m, n, Terms(c, e, idx), Terms(a, b, idx), Terms(a', b', idx));
  }

  lemma TermOfInner(c: Tensor<real>, a: Tensor<real>, a': Tensor<real>, e: Tensor<real>, b: Tensor<real>, b': Tensor<real>, idx: seq<nat>, k: nat)
    requires CanMatmul(a, b) && CanMatmul(a', b') && CanMatmul(c, e)
    requires Joins(c, a, a', Last(a.shape)) && Joins(e, b, b', 0)
    requires InBounds(idx, MatmulShape(a, b)) && InBounds(idx, MatmulShape(a', b')) && InBounds(idx, MatmulShape(c, e))
    requires k < b.shape[0] + b'.shape[0]
    ensures Term(c, e, idx, k) == if k < b.shape[0] then Term(a, b, idx, k) else Term(a', b', idx, k - b.shape[0])
  {
    hide At;
    var last := Last(a.shape);
    var i: seq<nat> := idx[last := k];
    var j: seq<nat> := [k, idx[last]];
    assert At(c, i) == JoinedAt(a, a', last, i);
    assert At(e, j) == JoinedAt(b, b', 0, j);
    if k >= b.shape[0] {
      assert i[last := k - b.shape[0]] == idx[last := k - b.shape[0]];
      assert j[0 := k - b.shape[0]] == [k - b.shape[0], idx[last]];
    }
  }
}
