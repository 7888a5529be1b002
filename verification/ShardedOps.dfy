/** Matrix products and elementwise operations on sharded tensors: which implementation the kinds of the operands
    select, and what it means. */
module ShardedOps {
  import opened Elementwise
  import opened Products
  import opened ShapePrograms
  import opened Sharding
  import opened Slices
  import opened Tensors
  import opened Wrappers

  /** A tensor as the operators see it. */
  datatype AnyTensor =
    | Plain(tensor: Tensor<real>)
    | Replicated(copy: Tensor<real>, count: nat)
    | Sharded(split: Split<real>)
    | Unreduced(parts: seq<Tensor<real>>)
  {
    predicate Valid() {
      match this
      case Plain(t) => t.Valid()
      case Replicated(t, n) => t.Valid() && n > 0
      case Sharded(x) => x.Valid()
      case Unreduced(ts) => ts != [] && forall i | 0 <= i < |ts| :: ts[i].Valid() && ts[i].shape == ts[0].shape
    }

    /** The tensor is not sharded, or it has `n` shards. */
    predicate Fits(n: nat) {
      match this
      case Plain(_) => true
      case Replicated(_, m) => m == n
      case Sharded(x) => |x.shards| == n
      case Unreduced(ts) => |ts| == n
    }

    /** `unshard`. */
    function Meaning(): (t: Tensor<real>)
      requires Valid()
      ensures t.Valid()
    {
      match this
      case Plain(t) => t
      case Replicated(t, _) => t
      case Sharded(x) => Unshard(x)
      case Unreduced(ts) => Reduce(ts[0], ts[1..])
    }
  }

  /** The left fold of addition. */
  function Reduce(acc: Tensor<real>, ts: seq<Tensor<real>>): (t: Tensor<real>)
    requires acc.Valid() && forall i | 0 <= i < |ts| :: ts[i].Valid() && ts[i].shape == acc.shape
    ensures t.Valid() && t.shape == acc.shape
    decreases |ts|
  {
    if ts == [] then acc else Reduce(Add(acc, ts[0]), ts[1..])
  }

  function Copies(t: Tensor<real>, n: nat): (ts: seq<Tensor<real>>)
    ensures |ts| == n && forall i | 0 <= i < n :: ts[i] == t
  {
    seq(n, _ => t)
  }

  // ---- Products ----

  /** Multiplies shards in pairs, up to the end of the shorter list. */
  function MatmulEach(ls: seq<Tensor<real>>, rs: seq<Tensor<real>>): (ps: Option<seq<Tensor<real>>>)
    ensures ps.Some? ==> |ps.value| == Min(|ls|, |rs|)
    ensures ps.Some? ==> forall i | 0 <= i < |ps.value| :: CanMatmul(ls[i], rs[i]) && ps.value[i] == Matmul(ls[i], rs[i])
  {
    if ls == [] || rs == [] then Some([])
    else if !CanMatmul(ls[0], rs[0]) then None
    else
      match MatmulEach(ls[1..], rs[1..])
      case None => None
      case Some(rest) => Some([Matmul(ls[0], rs[0])] + rest)
  }

  lemma {:induction false} ProductsRun(ls: seq<Tensor<real>>, rs: seq<Tensor<real>>)
    requires |ls| == |rs| && forall i | 0 <= i < |ls| :: CanMatmul(ls[i], rs[i])
    ensures MatmulEach(ls, rs).Some?
  {
    if ls != [] {
      ProductsRun(ls[1..], rs[1..]);
    }
  }

  function AsSplit(shards: Option<seq<Tensor<real>>>, dim: int): (y: Option<AnyTensor>)
    ensures y.Some? ==> y.value.Valid()
  {
    match shards
    case None => None
    case Some(ts) =>
      match MakeSplit(ts, dim)
      case None => None
      case Some(x) => Some(Sharded(x))
  }

  /** Split rows times the same matrix. */
  function MatmulRows(l: Split<real>, rs: seq<Tensor<real>>): (y: Option<AnyTensor>)
    requires l.Valid()
    ensures y.Some? ==> y.value.Valid()
  {
    if l.dim == Last(l.shards[0].shape) then None else AsSplit(MatmulEach(l.shards, rs), l.dim)
  }

  /** The same rows times split columns. */
  function MatmulColumns(l: Tensor<real>, r: Split<real>): (y: Option<AnyTensor>)
    requires r.Valid()
    ensures y.Some? ==> y.value.Valid()
  {
    if r.dim != 1 || l.shape == [] then None else AsSplit(MatmulEach(Copies(l, |r.shards|), r.shards), Last(l.shape))
  }

  function MatmulSplits(l: Split<real>, r: Split<real>): (y: Option<AnyTensor>)
    requires l.Valid() && r.Valid() && |r.shards[0].shape| == 2
    ensures y.Some? ==> y.value.Valid()
  {
    if |l.shards| != |r.shards| then None
    else if l.dim == Last(l.shards[0].shape) && r.dim == 0 then
      match MatmulEach(l.shards, r.shards)
      case None => None
      case Some(ts) => if Unreduced(ts).Valid() then Some(Unreduced(ts)) else None
    else if l.dim < Last(l.shards[0].shape) && r.dim == 1 then
      MatmulRows(l, Copies(Unshard(r), |l.shards|))
    else None
  }

  /** `matmul` with a matrix on the right: the override for the kinds of the operands, and what it does. */
  function MatmulAny(l: AnyTensor, r: AnyTensor): (y: Option<AnyTensor>)
    requires l.Valid() && r.Valid() && |r.Meaning().shape| == 2
    ensures y.Some? ==> y.value.Valid()
  {
    match (l, r)
    case (Plain(a), Plain(b)) => if CanMatmul(a, b) then Some(Plain(Matmul(a, b))) else None
    case (Plain(a), Sharded(s)) => MatmulColumns(a, s)
    case (Sharded(s), Plain(b)) => MatmulRows(s, Copies(b, |s.shards|))
    case (Sharded(s), Replicated(b, n)) => MatmulRows(s, Copies(b, n))
    case (Sharded(s), Sharded(u)) => MatmulSplits(s, u)
    case (Replicated(a, n), Sharded(s)) =>
      if n != |s.shards| || a.shape == [] then None
      else if s.dim == 1 then MatmulColumns(a, s)
      else
        (match ReshardReplicated(a, Last(a.shape), n)
         case None => None
         case Some(x) => MatmulSplits(x, s))
    case _ => None
  }

  // ---- Elementwise operations ----

  function MapEach(f: real -> real, ts: seq<Tensor<real>>): (r: seq<Tensor<real>>)
    requires forall i | 0 <= i < |ts| :: ts[i].Valid()
    ensures |r| == |ts| && forall i | 0 <= i < |ts| :: r[i] == Map(f, ts[i])
  {
    seq(|ts|, i requires 0 <= i < |ts| => Map(f, ts[i]))
  }

  function UnaryAny(f: real -> real, x: AnyTensor): (y: Option<AnyTensor>)
    requires x.Valid()
    ensures y.Some? ==> y.value.Valid()
  {
    match x
    case Plain(t) => Some(Plain(Map(f, t)))
    case Replicated(t, n) => Some(Replicated(Map(f, t), n))
    case Sharded(s) => AsSplit(Some(MapEach(f, s.shards)), s.dim)
    case Unreduced(_) => None
  }

  function ZipEach(f: (real, real) -> real, xs: seq<Tensor<real>>, ys: seq<Tensor<real>>): (zs: Option<seq<Tensor<real>>>)
    ensures zs.Some? ==> |zs.value| == Min(|xs|, |ys|)
    ensures zs.Some? ==> forall i | 0 <= i < |zs.value| :: Broadcasts(xs[i], ys[i]) && zs.value[i] == Zip(f, xs[i], ys[i])
  {
    if xs == [] || ys == [] then Some([])
    else if !Broadcasts(xs[0], ys[0]) then None
    else
      match ZipEach(f, xs[1..], ys[1..])
      case None => None
      case Some(rest) => Some([Zip(f, xs[0], ys[0])] + rest)
  }

  lemma {:induction false} ZipsRun(f: (real, real) -> real, xs: seq<Tensor<real>>, ys: seq<Tensor<real>>)
    requires |xs| == |ys| && forall i | 0 <= i < |xs| :: Broadcasts(xs[i], ys[i])
    ensures ZipEach(f, xs, ys).Some?
  {
    if xs != [] {
      ZipsRun(f, xs[1..], ys[1..]);
    }
  }

  function ZipPlain(f: (real, real) -> real, x: Tensor<real>, y: Tensor<real>, n: nat): Option<AnyTensor> {
    if Broadcasts(x, y) then Some(Replicated(Zip(f, x, y), n)) else None
  }

  /** The place of a dimension of the first shape in the broadcast shape. */
  function BroadcastDim(s: seq<nat>, t: seq<nat>, i: nat): (d: nat) {
    i + Max(|s|, |t|) - |s|
  }

  /** Both split: the split dimensions must be the same one of the broadcast shape, and the results are put together along
      the split dimension of the first operand to the broadcast shape of the wholes. */
  function ZipSplits(f: (real, real) -> real, x: Split<real>, y: Split<real>): (z: Option<AnyTensor>)
    requires x.Valid() && y.Valid()
    ensures z.Some? ==> z.value.Valid()
  {
    if |x.shards| != |y.shards| || BroadcastDim(x.Shape(), y.Shape(), x.dim) != BroadcastDim(y.Shape(), x.Shape(), y.dim) then None
    else if !Compatible(x.Shape(), y.Shape()) then None
    else OfShape(AsSplit(ZipEach(f, x.shards, y.shards), x.dim), BroadcastShape(x.Shape(), y.Shape()))
  }

  /** The constructor of a split tensor compares the shape with the one that it is given. */
  function OfShape(z: Option<AnyTensor>, shape: seq<nat>): (r: Option<AnyTensor>)
    requires z.Some? ==> z.value.Valid()
    ensures r.Some? ==> r == z && r.value.Meaning().shape == shape
  {
    if z.Some? && z.value.Meaning().shape == shape then z else None
  }

  function ZipSplitAndCopies(f: (real, real) -> real, x: Split<real>, y: Tensor<real>, n: nat): (z: Option<AnyTensor>)
    requires x.Valid() && y.Valid()
    ensures z.Some? ==> z.value.Valid()
  {
    if y.shape == [] || |x.shards| != n then None
    else if RepeatsAlong(x, y) then AsSplit(ZipEach(f, x.shards, Copies(y, n)), BroadcastDim(x.Shape(), y.shape, x.dim))
    else
      match ReshardReplicated(y, x.dim, n)
      case None => None
      case Some(u) => ZipSplits(f, x, u)
  }

  /** The second operand is the same for all steps along the split dimension of the first. */
  predicate RepeatsAlong(x: Split<real>, y: Tensor<real>)
    requires x.Valid()
  {
    Whole(y.shape, Max(|x.Shape()|, |y.shape|), BroadcastDim(x.Shape(), y.shape, x.dim))
  }

  /** `elementwise` with two operands. */
  function BinaryAny(f: (real, real) -> real, x: AnyTensor, y: AnyTensor): (z: Option<AnyTensor>)
    requires x.Valid() && y.Valid()
    ensures z.Some? ==> z.value.Valid()
  {
    match (x, y)
    case (Plain(a), Plain(b)) => if Broadcasts(a, b) then Some(Plain(Zip(f, a, b))) else None
    case (Plain(a), Replicated(b, n)) => ZipPlain(f, a, b, n)
    case (Replicated(a, n), Plain(b)) => ZipPlain(f, a, b, n)
    case (Replicated(a, n), Replicated(b, m)) => if n == m then ZipPlain(f, a, b, n) else None
    case (Replicated(a, n), Unreduced(ts)) => if n == |ts| then ZipPlain(f, a, y.Meaning(), n) else None
    case (Replicated(a, n), Sharded(s)) =>
      if n != |s.shards| then None
      else
        (match ReshardReplicated(a, s.dim, n)
         case None => None
         case Some(x') => ZipSplits(f, x', s))
    case (Sharded(s), Sharded(u)) => ZipSplits(f, s, u)
    case (Sharded(s), Plain(b)) =>
      (match SplitTensor(b, s.dim, |s.shards|)
       case None => None
       case Some(u) => ZipSplits(f, s, u))
    case (Sharded(s), Replicated(b, n)) => ZipSplitAndCopies(f, s, b, n)
    case _ => None
  }

  // ---- What the products mean ----

  predicate RowProducts(ls: seq<Tensor<real>>, r: Tensor<real>, ps: seq<Tensor<real>>) {
    |ps| == |ls| && forall i | 0 <= i < |ls| :: CanMatmul(ls[i], r) && ps[i] == Matmul(ls[i], r)
  }

  lemma {:induction false} RowsSound(ls: seq<Tensor<real>>, d: nat, r: Tensor<real>, ps: seq<Tensor<real>>)
    requires Split(ls, d).Valid() && d < Last(ls[0].shape) && RowProducts(ls, r, ps)
    ensures Split(ps, d).Valid() && CanMatmul(Unshard(Split(ls, d)), r)
    ensures Unshard(Split(ps, d)) == Matmul(Unshard(Split(ls, d)), r)
    decreases |ls|
  {
    RowsValid(ls, d, r, ps);
    if |ls| > 1 {
      UnshardStep(ls, d);
      UnshardStep(ps, d);
      RowsSound(ls[1..], d, r, ps[1..]);
      MatmulOfRows(ls[0], Unshard(Split(ls[1..], d)), d, r);
    }
  }

  lemma RowsValid(ls: seq<Tensor<real>>, d: nat, r: Tensor<real>, ps: seq<Tensor<real>>)
    requires Split(ls, d).Valid() && d < Last(ls[0].shape) && RowProducts(ls, r, ps)
    ensures Split(ps, d).Valid() && ps[0] == Matmul(ls[0], r) && RowProducts(ls[1..], r, ps[1..])
  {
    var last := Last(ls[0].shape);
    forall i | 0 <= i < |ps| ensures ps[i].shape == ps[0].shape[d := ps[i].shape[d]] {
      assert ps[i] == Matmul(ls[i], r) && ps[0] == Matmul(ls[0], r);
    }
  }

  predicate ColumnProducts(l: Tensor<real>, rs: seq<Tensor<real>>, ps: seq<Tensor<real>>) {
    |ps| == |rs| && forall i | 0 <= i < |rs| :: CanMatmul(l, rs[i]) && ps[i] == Matmul(l, rs[i])
  }

  lemma {:induction false} ColumnsSound(l: Tensor<real>, rs: seq<Tensor<real>>, ps: seq<Tensor<real>>)
    requires Split(rs, 1).Valid() && ColumnProducts(l, rs, ps)
    ensures |l.shape| >= 2 && Split(ps, Last(l.shape)).Valid() && CanMatmul(l, Unshard(Split(rs, 1)))
    ensures Unshard(Split(ps, Last(l.shape))) == Matmul(l, Unshard(Split(rs, 1)))
    decreases |rs|
  {
    ColumnsValid(l, rs, ps);
    if |rs| > 1 {
      UnshardStep(rs, 1);
      UnshardStep(ps, Last(l.shape));
      ColumnsSound(l, rs[1..], ps[1..]);
      MatmulOfColumns(l, rs[0], Unshard(Split(rs[1..], 1)));
    }
  }

  lemma ColumnsValid(l: Tensor<real>, rs: seq<Tensor<real>>, ps: seq<Tensor<real>>)
    requires Split(rs, 1).Valid() && ColumnProducts(l, rs, ps)
    ensures |l.shape| >= 2 && ps[0] == Matmul(l, rs[0]) && ColumnProducts(l, rs[1..], ps[1..])
    ensures Split(ps, Last(l.shape)).Valid()
  {
    assert CanMatmul(l, rs[0]);
    var last := Last(l.shape);
    forall i | 0 <= i < |ps| ensures ps[i].shape == ps[0].shape[last := ps[i].shape[last]] {
      assert ps[i] == Matmul(l, rs[i]) && ps[0] == Matmul(l, rs[0]);
    }
  }

  predicate InnerProducts(ls: seq<Tensor<real>>, rs: seq<Tensor<real>>, ps: seq<Tensor<real>>) {
    |ps| == |ls| == |rs| && forall i | 0 <= i < |ls| :: CanMatmul(ls[i], rs[i]) && ps[i] == Matmul(ls[i], rs[i])
  }

  /** Partial products of matching cuts of the summed dimension add up to the whole product. */
  lemma {:induction false} InnerSound(ls: seq<Tensor<real>>, rs: seq<Tensor<real>>, ps: seq<Tensor<real>>)
    requires ls != [] && ls[0].shape != [] && Split(ls, Last(ls[0].shape)).Valid() && Split(rs, 0).Valid()
    requires InnerProducts(ls, rs, ps)
    ensures Unreduced(ps).Valid() && CanMatmul(Unshard(Split(ls, Last(ls[0].shape))), Unshard(Split(rs, 0)))
    ensures Unreduced(ps).Meaning() == Matmul(Unshard(Split(ls, Last(ls[0].shape))), Unshard(Split(rs, 0)))
    decreases |ls|
  {
    hide At, Add, Join, Matmul;
    var last := Last(ls[0].shape);
    InnerValid(ls, rs, ps);
    if |ls| > 1 {
      UnshardStep(ls, last);
      UnshardStep(rs, 0);
      assert Last(ls[1].shape) == last;
      InnerSound(ls[1..], rs[1..], ps[1..]);
      MatmulOfInner(ls[0], Unshard(Split(ls[1..], last)), rs[0], Unshard(Split(rs[1..], 0)));
      ReduceFirst(ps[0], ps[1], ps[2..]);
      assert ps[1..][1..] == ps[2..];
    }
  }

  lemma InnerValid(ls: seq<Tensor<real>>, rs: seq<Tensor<real>>, ps: seq<Tensor<real>>)
    requires ls != [] && ls[0].shape != [] && Split(ls, Last(ls[0].shape)).Valid() && Split(rs, 0).Valid()
    requires InnerProducts(ls, rs, ps)
    ensures Unreduced(ps).Valid() && ps[0] == Matmul(ls[0], rs[0]) && InnerProducts(ls[1..], rs[1..], ps[1..])
  {
    var last := Last(ls[0].shape);
    forall i | 0 <= i < |ps| ensures ps[i].shape == ps[0].shape {
      assert ps[i] == Matmul(ls[i], rs[i]) && ps[0] == Matmul(ls[0], rs[0]);
      assert rs[i].shape[1] == rs[0].shape[1];
    }
  }

  /** The order of the additions does not matter. */
  lemma {:induction false} ReduceFirst(a: Tensor<real>, b: Tensor<real>, ts: seq<Tensor<real>>)
    requires a.Valid() && b.Valid() && b.shape == a.shape
    requires forall i | 0 <= i < |ts| :: ts[i].Valid() && ts[i].shape == a.shape
    ensures Reduce(Add(a, b), ts) == Add(a, Reduce(b, ts))
    decreases |ts|
  {
    if ts != [] {
      AddAssoc(a, b, ts[0]);
      ReduceFirst(a, Add(b, ts[0]), ts[1..]);
    }
  }

  lemma AddAssoc(a: Tensor<real>, b: Tensor<real>, c: Tensor<real>)
    requires a.Valid() && b.Valid() && c.Valid() && b.shape == a.shape == c.shape
    ensures Add(Add(a, b), c) == Add(a, Add(b, c))
  {
    hide Add, At;
    forall idx | InBounds(idx, a.shape) ensures At(Add(Add(a, b), c), idx) == At(Add(a, Add(b, c)), idx) {
      AddedAt(a, b, idx);
      AddedAt(b, c, idx);
      AddedAt(Add(a, b), c, idx);
      AddedAt(a, Add(b, c), idx);
    }
    SameElements(Add(Add(a, b), c), Add(a, Add(b, c)));
  }

  lemma {:induction false} MapsSound(f: real -> real, xs: seq<Tensor<real>>, d: nat)
    requires Split(xs, d).Valid()
    ensures Split(MapEach(f, xs), d).Valid() && Unshard(Split(MapEach(f, xs), d)) == Map(f, Unshard(Split(xs, d)))
    decreases |xs|
  {
    var ms := MapEach(f, xs);
    if |xs| > 1 {
      UnshardStep(xs, d);
      UnshardStep(ms, d);
      assert ms[1..] == MapEach(f, xs[1..]);
      MapsSound(f, xs[1..], d);
      MapOfJoin(f, xs[0], Unshard(Split(xs[1..], d)), d);
    }
  }

  // ---- The dispatch ----

  lemma SplitRowsSound(l: Split<real>, r: Tensor<real>, n: nat, y: AnyTensor)
    requires l.Valid() && n >= |l.shards| && MatmulRows(l, Copies(r, n)) == Some(y)
    ensures y.Valid() && y.Fits(|l.shards|) && CanMatmul(Unshard(l), r) && y.Meaning() == Matmul(Unshard(l), r)
  {
    assert CanMatmul(l.shards[0], Copies(r, n)[0]);
    RowsSound(l.shards, l.dim, r, y.split.shards);
  }

  lemma SplitColumnsSound(l: Tensor<real>, r: Split<real>, y: AnyTensor)
    requires r.Valid() && MatmulColumns(l, r) == Some(y)
    ensures y.Valid() && y.Fits(|r.shards|) && CanMatmul(l, Unshard(r)) && y.Meaning() == Matmul(l, Unshard(r))
  {
    ColumnsSound(l, r.shards, y.split.shards);
  }

  lemma SplitsSound(l: Split<real>, r: Split<real>, y: AnyTensor)
    requires l.Valid() && r.Valid() && |r.shards[0].shape| == 2 && MatmulSplits(l, r) == Some(y)
    ensures y.Valid() && y.Fits(|l.shards|)
    ensures CanMatmul(Unshard(l), Unshard(r)) && y.Meaning() == Matmul(Unshard(l), Unshard(r))
  {
    if l.dim == Last(l.shards[0].shape) && r.dim == 0 {
      InnerSound(l.shards, r.shards, y.parts);
    } else {
      SplitRowsSound(l, Unshard(r), |l.shards|, y);
    }
  }

  /** A replicated left operand is cut into shares that are rounded down when the right one is split by rows. */
  predicate DropsColumns(l: AnyTensor, r: AnyTensor) {
    && l.Replicated? && r.Sharded? && r.split.dim == 0
    && l.count > 0 && l.copy.shape != [] && l.copy.shape[Last(l.copy.shape)] % l.count != 0
  }

  /** A product of sharded tensors that the dispatch carries out is a product of what its operands stand for, unless
      columns of a replicated operand are dropped; and if they have a product at all, it is that. */
  lemma MatmulSound(l: AnyTensor, r: AnyTensor, y: AnyTensor, n: nat)
    requires l.Valid() && r.Valid() && l.Fits(n) && r.Fits(n) && |r.Meaning().shape| == 2
    requires MatmulAny(l, r) == Some(y)
    ensures y.Valid() && y.Fits(n)
    ensures CanMatmul(l.Meaning(), r.Meaning()) <==> !DropsColumns(l, r)
    ensures CanMatmul(l.Meaning(), r.Meaning()) ==> y.Meaning() == Matmul(l.Meaning(), r.Meaning())
  {
    match (l, r)
    case (Plain(a), Plain(b)) =>
    case (Plain(a), Sharded(s)) => SplitColumnsSound(a, s, y);
    case (Sharded(s), Plain(b)) => SplitRowsSound(s, b, |s.shards|, y);
    case (Sharded(s), Replicated(b, m)) => SplitRowsSound(s, b, m, y);
    case (Sharded(s), Sharded(u)) => SplitsSound(s, u, y);
    case (Replicated(a, m), Sharded(s)) =>
      if s.dim == 1 {
        SplitColumnsSound(a, s, y);
      } else {
        SharesTimesRows(a, m, s, y);
      }
    case _ =>
  }

  /** The product with a matrix split by rows is the product of what the shares cover. */
  lemma SharesTimesRows(a: Tensor<real>, n: nat, s: Split<real>, y: AnyTensor)
    requires a.Valid() && s.Valid() && |s.shards| == n && |s.shards[0].shape| == 2 && s.dim == 0
    requires MatmulAny(Replicated(a, n), Sharded(s)) == Some(y)
    ensures y.Valid() && y.Fits(n) && a.shape != []
    ensures var d := Last(a.shape);
      var covered := Slice(a, d, 0, Covered(a.shape[d], n));
      && CanMatmul(covered, Unshard(s)) && y.Meaning() == Matmul(covered, Unshard(s))
      && (CanMatmul(a, Unshard(s)) <==> a.shape[d] % n == 0)
      && (a.shape[d] % n == 0 ==> covered == a)
  {
    var d := Last(a.shape);
    var x := ReshardReplicated(a, d, n).value;
    ReshardedSlice(a, d, n);
    SplitsSound(x, s, y);
    SliceWhole(a, d);
  }

  /** Without a check of the number of shards, a replicated matrix with too few copies drops rows: for shards that are
      not empty the product means what it should exactly if there are enough copies. */
  lemma TooFewCopies(l: Split<real>, r: Tensor<real>, n: nat, y: AnyTensor)
    requires l.Valid() && r.Valid() && n > 0 && |r.shape| == 2 && |l.shards[0].shape| >= 2
    requires MatmulAny(Sharded(l), Replicated(r, n)) == Some(y)
    requires forall i | 0 <= i < |l.shards| :: l.shards[i].shape[l.dim] > 0
    requires CanMatmul(Unshard(l), r)
    ensures y.Meaning() == Matmul(Unshard(l), r) <==> n >= |l.shards|
  {
    if n >= |l.shards| {
      SplitRowsSound(l, r, n, y);
    } else {
      RowsDropped(l, r, n, y);
      FewerShards(l.shards, l.dim, n);
      assert Matmul(Unshard(l), r).shape[l.dim] == l.Shape()[l.dim];
    }
  }

  /** Two rows in two shards times one copy of a matrix: the second row is lost. */
  lemma SecondRowLost(a: Tensor<real>, b: Tensor<real>, r: Tensor<real>)
    requires a.Valid() && b.Valid() && r.Valid() && a.shape == b.shape == r.shape == [1, 1]
    ensures var l := Split([a, b], 0);
      && l.Valid() && CanMatmul(Unshard(l), r) && MatmulAny(Sharded(l), Replicated(r, 1)).Some?
      && MatmulAny(Sharded(l), Replicated(r, 1)).value.Meaning() != Matmul(Unshard(l), r)
  {
    var l := Split([a, b], 0);
    assert l.Valid() && Copies(r, 1)[1..] == [];
    assert MatmulEach(l.shards[1..], Copies(r, 1)[1..]) == Some([]);
    assert [Matmul(a, r)] + [] == [Matmul(a, r)];
    assert MatmulEach(l.shards, Copies(r, 1)) == Some([Matmul(a, r)]);
    assert Split([Matmul(a, r)], 0).Valid();
    assert Unshard(l).shape[1] == 1;
    TooFewCopies(l, r, 1, MatmulAny(Sharded(l), Replicated(r, 1)).value);
  }

  /** Three columns in two shares times a matrix of two rows: the third column is lost, and there is no such product. */
  lemma ThirdColumnLost(a: Tensor<real>, u: Tensor<real>, v: Tensor<real>)
    requires a.Valid() && u.Valid() && v.Valid() && a.shape == [1, 3] && u.shape == v.shape == [1, 1]
    ensures var s := Split([u, v], 0);
      s.Valid() && MatmulAny(Replicated(a, 2), Sharded(s)).Some? && !CanMatmul(a, Unshard(s))
  {
    var s := Split([u, v], 0);
    assert s.Valid();
    var x := ReshardReplicated(a, 1, 2).value;
    ShareShapes(a, 1, 2);
    assert x.shards[0].shape == [1, 1] == x.shards[1].shape;
    ProductsRun(x.shards, s.shards);
    var ps := MatmulEach(x.shards, s.shards);
    assert Unreduced(ps.value).Valid();
    MatmulSound(Replicated(a, 2), Sharded(s), Unreduced(ps.value), 2);
  }

  lemma RowsDropped(l: Split<real>, r: Tensor<real>, n: nat, y: AnyTensor)
    requires l.Valid() && 0 < n < |l.shards| && |l.shards[0].shape| >= 2
    requires MatmulRows(l, Copies(r, n)) == Some(y)
    ensures y.Valid() && l.dim < |y.Meaning().shape| && y.Meaning().shape[l.dim] == DimSum(l.shards[..n], l.dim)
  {
    RowsSound(l.shards[..n], l.dim, r, y.split.shards);
    assert Split(l.shards[..n], l.dim).Shape()[l.dim] == DimSum(l.shards[..n], l.dim);
  }

  lemma {:induction false} FewerShards(ts: seq<Tensor<real>>, d: nat, n: nat)
    requires n < |ts| && forall i | 0 <= i < |ts| :: d < |ts[i].shape| && ts[i].shape[d] > 0
    ensures DimSum(ts[..n], d) < DimSum(ts, d)
  {
    if n > 0 {
      assert ts[..n][1..] == ts[1..][..n - 1];
      FewerShards(ts[1..], d, n - 1);
    }
  }

  lemma UnarySound(f: real -> real, x: AnyTensor, y: AnyTensor, n: nat)
    requires x.Valid() && x.Fits(n) && UnaryAny(f, x) == Some(y)
    ensures y.Valid() && y.Fits(n) && y.Meaning() == Map(f, x.Meaning())
  {
    if x.Sharded? {
      MapsSound(f, x.split.shards, x.split.dim);
    }
  }
}
