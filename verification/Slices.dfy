/** Cutting a tensor into shards: slices along a dimension, `torch.split`, and the two ways the sharded operators
    split a tensor. */
module Slices {
  import opened Radices
  import opened Tensors
  import opened Sharding
  import opened Wrappers

  /** A tensor given index by index. */
  function Build<E>(shape: seq<nat>, f: seq<nat> --> E): (t: Tensor<E>)
    requires forall idx | InBounds(idx, shape) :: f.requires(idx)
    ensures t.Valid() && t.shape == shape
    ensures forall idx | InBounds(idx, shape) :: At(t, idx) == f(idx)
  {
    assert forall idx | InBounds(idx, shape) :: Unravel(shape, Offset(shape, idx)) == idx by {
      forall idx | InBounds(idx, shape) ensures Unravel(shape, Offset(shape, idx)) == idx {
        UnravelOffset(shape, idx);
      }
    }
    Tensor(shape, seq(Prod(shape), k requires 0 <= k < Prod(shape) => f(Unravel(shape, k))))
  }

  /** `t[..., lo:hi, ...]` along dimension `d`. */
  function Slice<E>(t: Tensor<E>, d: nat, lo: nat, hi: nat): (s: Tensor<E>)
    requires t.Valid() && d < |t.shape| && lo <= hi <= t.shape[d]
    ensures IsSlice(s, t, d, lo, hi)
  {
    Build(t.shape[d := hi - lo],
          idx requires InBounds(idx, t.shape[d := hi - lo]) => SlicedAt(t, d, lo, hi, idx))
  }

  function SlicedAt<E>(t: Tensor<E>, d: nat, lo: nat, hi: nat, idx: seq<nat>): E
    requires t.Valid() && d < |t.shape| && lo <= hi <= t.shape[d] && InBounds(idx, t.shape[d := hi - lo])
  {
    At(t, idx[d := idx[d] + lo])
  }

  ghost predicate IsSlice<E>(s: Tensor<E>, t: Tensor<E>, d: nat, lo: nat, hi: nat)
    requires t.Valid() && d < |t.shape| && lo <= hi <= t.shape[d]
  {
    && s.Valid() && s.shape == t.shape[d := hi - lo]
    && forall idx | InBounds(idx, s.shape) :: At(s, idx) == SlicedAt(t, d, lo, hi, idx)
  }

  lemma SliceUnique<E>(s: Tensor<E>, t: Tensor<E>, d: nat, lo: nat, hi: nat)
    requires t.Valid() && d < |t.shape| && lo <= hi <= t.shape[d] && IsSlice(s, t, d, lo, hi)
    ensures s == Slice(t, d, lo, hi)
  {
    SameElements(s, Slice(t, d, lo, hi));
  }

  lemma SliceWhole<E>(t: Tensor<E>, d: nat)
    requires t.Valid() && d < |t.shape|
    ensures Slice(t, d, 0, t.shape[d]) == t
  {
    forall idx | InBounds(idx, t.shape) ensures SlicedAt(t, d, 0, t.shape[d], idx) == At(t, idx) {
      assert idx[d := idx[d] + 0] == idx;
    }
    SliceUnique(t, t, d, 0, t.shape[d]);
  }

  /** Adjacent slices join into one. */
  lemma SlicesJoin<E>(t: Tensor<E>, d: nat, lo: nat, mid: nat, hi: nat)
    requires t.Valid() && d < |t.shape| && lo <= mid <= hi <= t.shape[d]
    ensures Joinable(Slice(t, d, lo, mid), Slice(t, d, mid, hi), d)
    ensures Join(Slice(t, d, lo, mid), Slice(t, d, mid, hi), d) == Slice(t, d, lo, hi)
  {
    JoinedSlices(t, d, lo, mid, hi, Slice(t, d, lo, mid), Slice(t, d, mid, hi));
    SliceUnique(Join(Slice(t, d, lo, mid), Slice(t, d, mid, hi), d), t, d, lo, hi);
  }

  lemma JoinedSlices<E>(t: Tensor<E>, d: nat, lo: nat, mid: nat, hi: nat, a: Tensor<E>, b: Tensor<E>)
    requires t.Valid() && d < |t.shape| && lo <= mid <= hi <= t.shape[d]
    requires IsSlice(a, t, d, lo, mid) && IsSlice(b, t, d, mid, hi)
    ensures Joinable(a, b, d) && IsSlice(Join(a, b, d), t, d, lo, hi)
  {
    assert JoinedShape(a, b, d) == t.shape[d := hi - lo];
    forall idx | InBounds(idx, JoinedShape(a, b, d)) ensures At(Join(a, b, d), idx) == SlicedAt(t, d, lo, hi, idx) {
      JoinAt(a, b, d, idx);
      JoinedSlicesAt(t, d, lo, mid, hi, a, b, idx);
    }
  }

  lemma JoinedSlicesAt<E>(t: Tensor<E>, d: nat, lo: nat, mid: nat, hi: nat, a: Tensor<E>, b: Tensor<E>, idx: seq<nat>)
    requires t.Valid() && d < |t.shape| && lo <= mid <= hi <= t.shape[d] && InBounds(idx, t.shape[d := hi - lo])
    requires IsSlice(a, t, d, lo, mid) && IsSlice(b, t, d, mid, hi)
    requires Joinable(a, b, d) && JoinedShape(a, b, d) == t.shape[d := hi - lo]
    ensures JoinedAt(a, b, d, idx) == SlicedAt(t, d, lo, hi, idx)
  {
    JoinedBounds(a, b, d, idx);
    if idx[d] < a.shape[d] {
      assert At(a, idx) == SlicedAt(t, d, lo, mid, idx);
    } else {
      var idx' := idx[d := idx[d] - a.shape[d]];
      assert At(b, idx') == SlicedAt(t, d, mid, hi, idx');
      assert idx'[d := idx'[d] + mid] == idx[d := idx[d] + lo];
    }
  }

  // ---- Cutting at given bounds ----

  predicate Ascending(bounds: seq<nat>, limit: nat) {
    && (forall i | 0 < i < |bounds| :: bounds[i - 1] <= bounds[i])
    && (forall i | 0 <= i < |bounds| :: bounds[i] <= limit)
  }

  function Cut<E>(t: Tensor<E>, d: nat, bounds: seq<nat>): (s: seq<Tensor<E>>)
    requires t.Valid() && d < |t.shape| && |bounds| > 0 && Ascending(bounds, t.shape[d])
  {
    seq(|bounds| - 1, i requires 0 <= i < |bounds| - 1 => CutAt(t, d, bounds, i))
  }

  function CutAt<E>(t: Tensor<E>, d: nat, bounds: seq<nat>, i: nat): Tensor<E>
    requires t.Valid() && d < |t.shape| && Ascending(bounds, t.shape[d]) && i < |bounds| - 1
  {
    assert bounds[i + 1 - 1] <= bounds[i + 1];
    Slice(t, d, bounds[i], bounds[i + 1])
  }

  lemma CutValid<E>(t: Tensor<E>, d: nat, bounds: seq<nat>)
    requires t.Valid() && d < |t.shape| && |bounds| > 1 && Ascending(bounds, t.shape[d])
    ensures Split(Cut(t, d, bounds), d).Valid()
  {
    var s := Cut(t, d, bounds);
    forall i | 0 <= i < |s| ensures s[i].Valid() && |s[i].shape| == |t.shape| && s[i].shape == t.shape[d := s[i].shape[d]] {
      assert s[i] == CutAt(t, d, bounds, i);
    }
  }

  /** Unsharding the pieces gives the part of the tensor between the first and the last bound. */
  lemma {:induction false} CutUnshard<E>(t: Tensor<E>, d: nat, bounds: seq<nat>)
    requires t.Valid() && d < |t.shape| && |bounds| > 1 && Ascending(bounds, t.shape[d])
    ensures bounds[0] <= bounds[|bounds| - 1] && Split(Cut(t, d, bounds), d).Valid()
    ensures Unshard(Split(Cut(t, d, bounds), d)) == Slice(t, d, bounds[0], bounds[|bounds| - 1])
    decreases |bounds|
  {
    CutValid(t, d, bounds);
    var s := Cut(t, d, bounds);
    assert s[0] == CutAt(t, d, bounds, 0);
    if |bounds| == 2 {
      assert bounds[1 - 1] <= bounds[1];
    } else {
      UnshardStep(s, d);
      var rest := bounds[1..];
      AscendingRest(bounds, t.shape[d]);
      CutUnshard(t, d, rest);
      CutRest(t, d, bounds);
      SlicesJoin(t, d, bounds[0], bounds[1], bounds[|bounds| - 1]);
    }
  }

  lemma AscendingRest(bounds: seq<nat>, limit: nat)
    requires |bounds| > 1 && Ascending(bounds, limit)
    ensures Ascending(bounds[1..], limit) && bounds[0] <= bounds[1]
  {
    assert bounds[1 - 1] <= bounds[1];
    forall i | 0 < i < |bounds[1..]| ensures bounds[1..][i - 1] <= bounds[1..][i] {
      assert bounds[i + 1 - 1] <= bounds[i + 1];
    }
  }

  lemma CutRest<E>(t: Tensor<E>, d: nat, bounds: seq<nat>)
    requires t.Valid() && d < |t.shape| && |bounds| > 1
    requires Ascending(bounds, t.shape[d]) && Ascending(bounds[1..], t.shape[d])
    ensures Cut(t, d, bounds)[1..] == Cut(t, d, bounds[1..])
  {
    forall i | 0 <= i < |bounds| - 2 ensures Cut(t, d, bounds)[1..][i] == Cut(t, d, bounds[1..])[i] {
      assert Cut(t, d, bounds)[i + 1] == CutAt(t, d, bounds, i + 1);
      assert Cut(t, d, bounds[1..])[i] == CutAt(t, d, bounds[1..], i);
    }
  }

  // ---- Splitting into a number of shards ----

  function Min(a: nat, b: nat): nat {
    if a < b then a else b
  }

  /** The bounds of `torch.split` into pieces of `size`: all pieces are full except perhaps the last. */
  function SplitBounds(n: nat, size: nat): (bounds: seq<nat>)
    ensures |bounds| > 1 && bounds[0] == 0 && bounds[|bounds| - 1] == n && Ascending(bounds, n)
    decreases n
  {
    if n <= size || size == 0 then [0, n]
    else
      var rest := SplitBounds(n - size, size);
      Shifted(rest, size)
  }

  function Shifted(bounds: seq<nat>, shift: nat): seq<nat> {
    [0] + seq(|bounds|, i requires 0 <= i < |bounds| => bounds[i] + shift)
  }

  /** The constructor of a split tensor on a whole tensor: `torch.split` into pieces of the rounded-up size, and
      an assertion that this gives the requested number of shards. */
  function SplitTensor<E>(t: Tensor<E>, d: nat, count: nat): Option<Split<E>>
    requires t.Valid()
  {
    if d >= |t.shape| || count == 0 then None
    else
      var shards := Cut(t, d, SplitBounds(t.shape[d], CeilDiv(t.shape[d], count)));
      if |shards| == count then MakeSplit(shards, d) else None
  }

  /** `reshard_split` of a replicated tensor: every shard is cut to its share, rounded down. */
  function ShareBounds(n: nat, count: nat): seq<nat>
    requires count > 0
  {
    seq(count + 1, i => i * (n / count))
  }

  /** How much of a dimension the rounded-down shares cover. */
  function Covered(n: nat, count: nat): (k: nat)
    requires count > 0
    ensures k <= n && (k == n <==> n % count == 0)
  {
    n - n % count
  }

  /** If several rounded-down shares cover a single step or everything, they cover everything. */
  lemma CoversAll(n: nat, count: nat, covered: nat)
    requires count > 0 && covered == Covered(n, count) && (count == 1 || covered == 1 || covered == n)
    ensures covered == n
  {
    assert n == n / count * count + n % count;
    RadixDigits(n / count, 0, count);
  }

  lemma ShareBoundsAscend(n: nat, count: nat)
    requires count > 0
    ensures Ascending(ShareBounds(n, count), n)
    ensures ShareBounds(n, count)[count] == Covered(n, count)
  {
    var bounds, share := ShareBounds(n, count), n / count;
    forall i | 0 < i < |bounds| ensures bounds[i - 1] <= bounds[i] {
      assert i * share == (i - 1) * share + share;
    }
    forall i | 0 <= i < |bounds| ensures bounds[i] <= n {
      ProductMonotone(i, count, share);
    }
  }

  lemma ProductMonotone(i: nat, j: nat, n: nat)
    requires i <= j
    ensures i * n <= j * n
  {
    assert j * n == i * n + (j - i) * n;
  }

  function ReshardReplicated<E>(t: Tensor<E>, d: nat, count: nat): (s: Option<Split<E>>)
    requires t.Valid()
    ensures s.Some? ==> s.value.Valid() && s.value.dim == d < |t.shape| && |s.value.shards| == count
  {
    if d >= |t.shape| || count == 0 then None
    else
      ShareBoundsAscend(t.shape[d], count);
      CutValid(t, d, ShareBounds(t.shape[d], count));
      Some(Split(Cut(t, d, ShareBounds(t.shape[d], count)), d))
  }

  /** Splitting a tensor and putting the shards together again restores it, whenever splitting succeeds. */
  lemma SplitThenUnshard<E>(t: Tensor<E>, d: nat, count: nat)
    requires t.Valid() && SplitTensor(t, d, count).Some?
    ensures var s := SplitTensor(t, d, count).value;
      s.Valid() && s.dim == d && |s.shards| == count && Unshard(s) == t
  {
    CutUnshard(t, d, SplitBounds(t.shape[d], CeilDiv(t.shape[d], count)));
    SliceWhole(t, d);
  }

  /** The part with number `i` of parts of equal size. */
  ghost predicate IsPart<E>(s: Tensor<E>, t: Tensor<E>, d: nat, i: nat, size: nat) {
    && t.Valid() && d < |t.shape| && i * size <= (i + 1) * size <= t.shape[d]
    && IsSlice(s, t, d, i * size, (i + 1) * size)
  }

  /** Splitting into a number of shards that divides the dimension succeeds, with equal shards. */
  lemma SplitEvenly<E>(t: Tensor<E>, d: nat, count: nat, size: nat)
    requires t.Valid() && d < |t.shape| && count > 0 && size > 0 && t.shape[d] == count * size
    ensures SplitTensor(t, d, count).Some?
    ensures |SplitTensor(t, d, count).value.shards| == count
    ensures forall i | 0 <= i < count ::
      && SplitTensor(t, d, count).value.shards[i].shape == t.shape[d := size]
      && IsPart(SplitTensor(t, d, count).value.shards[i], t, d, i, size)
  {
    EvenCeilDiv(count, size);
    EvenBounds(count, size);
    var bounds := SplitBounds(t.shape[d], size);
    CutValid(t, d, bounds);
    forall i | 0 <= i < count
      ensures Cut(t, d, bounds)[i].shape == t.shape[d := size] && IsPart(Cut(t, d, bounds)[i], t, d, i, size)
    {
      assert Cut(t, d, bounds)[i] == CutAt(t, d, bounds, i);
      EvenStep(bounds, size, i);
      assert bounds[i] == i * size && bounds[i + 1] == (i + 1) * size;
    }
  }

  lemma EvenCeilDiv(count: nat, size: nat)
    requires count > 0
    ensures CeilDiv(count * size, count) == size
  {
    assert count * size + count - 1 == Radix(size, count - 1, count);
    RadixDigits(size, count - 1, count);
  }

  predicate Multiples(bounds: seq<nat>, size: nat) {
    forall i | 0 <= i < |bounds| :: bounds[i] == i * size
  }

  lemma EvenStep(bounds: seq<nat>, size: nat, i: nat)
    requires Multiples(bounds, size) && i + 1 < |bounds|
    ensures bounds[i + 1] - bounds[i] == size
  {
    assert bounds[i + 1] == (i + 1) * size == i * size + size;
  }

  lemma {:induction false} EvenBounds(count: nat, size: nat)
    requires count > 0 && size > 0
    ensures |SplitBounds(count * size, size)| == count + 1 && Multiples(SplitBounds(count * size, size), size)
    decreases count
  {
    if count > 1 {
      assert (count - 1) * size == count * size - size;
      ProductMonotone(2, count, size);
      EvenBounds(count - 1, size);
      ShiftedMultiples(SplitBounds((count - 1) * size, size), size);
    }
  }

  lemma ShiftedMultiples(bounds: seq<nat>, size: nat)
    requires Multiples(bounds, size)
    ensures Multiples(Shifted(bounds, size), size)
  {
    var shifted := Shifted(bounds, size);
    forall i | 0 <= i < |shifted| ensures shifted[i] == i * size {
      assert i > 0 ==> shifted[i] == bounds[i - 1] + size && bounds[i - 1] == (i - 1) * size;
      assert (i - 1) * size + size == i * size;
    }
  }

  /** Resharding a replicated tensor keeps its meaning exactly if the dimension is divisible by the number of shards. */
  lemma ReshardKeepsMeaning<E>(t: Tensor<E>, d: nat, count: nat)
    requires t.Valid() && d < |t.shape| && count > 0
    ensures Unshard(ReshardReplicated(t, d, count).value) == t <==> t.shape[d] % count == 0
  {
    var bounds := ShareBounds(t.shape[d], count);
    ShareBoundsAscend(t.shape[d], count);
    CutUnshard(t, d, bounds);
    SliceWhole(t, d);
  }

  /** A vector of three elements in two shares loses the third. */
  lemma ThirdElementLost<E>(t: Tensor<E>)
    requires t.Valid() && t.shape == [3]
    ensures ReshardReplicated(t, 0, 2).Some? && Unshard(ReshardReplicated(t, 0, 2).value) != t
  {
    ReshardKeepsMeaning(t, 0, 2);
  }

  lemma ShareShapes<E>(t: Tensor<E>, d: nat, count: nat)
    requires t.Valid() && d < |t.shape| && count > 0
    ensures forall i | 0 <= i < count ::
      ReshardReplicated(t, d, count).value.shards[i].shape == t.shape[d := t.shape[d] / count]
  {
    var bounds, share := ShareBounds(t.shape[d], count), t.shape[d] / count;
    ShareBoundsAscend(t.shape[d], count);
    forall i | 0 <= i < count ensures Cut(t, d, bounds)[i].shape == t.shape[d := share] {
      assert Cut(t, d, bounds)[i] == CutAt(t, d, bounds, i);
      assert bounds[i + 1] == (i + 1) * share == i * share + share;
    }
  }

  lemma ReshardedSlice<E>(t: Tensor<E>, d: nat, count: nat)
    requires t.Valid() && d < |t.shape| && count > 0
    ensures var s := ReshardReplicated(t, d, count).value;
      Unshard(s) == Slice(t, d, 0, Covered(t.shape[d], count)) && |s.shards[0].shape| == |t.shape|
  {
    var bounds := ShareBounds(t.shape[d], count);
    ShareBoundsAscend(t.shape[d], count);
    CutUnshard(t, d, bounds);
    assert Cut(t, d, bounds)[0] == CutAt(t, d, bounds, 0);
  }

  /** What resharding drops; if that is nothing, the tensor is what it was. */
  lemma ReshardedShape<E>(t: Tensor<E>, d: nat, count: nat, s: Split<E>)
    requires t.Valid() && s.Valid() && d < |t.shape| && count > 0 && ReshardReplicated(t, d, count).value == s
    ensures |s.shards[0].shape| == |t.shape|
    ensures Unshard(s).shape == t.shape[d := Covered(t.shape[d], count)]
    ensures Unshard(s).shape[d] == t.shape[d] ==> Unshard(s) == t
  {
    ReshardedSlice(t, d, count);
    SliceWhole(t, d);
  }

  /** The sizes of the parts along the split dimension depend on nothing but its length. */
  function PartLengths(n: nat, count: nat): (sizes: seq<nat>)
    requires count > 0
  {
    var bounds := SplitBounds(n, CeilDiv(n, count));
    seq(|bounds| - 1, i requires 0 <= i < |bounds| - 1 => PartLength(bounds, n, i))
  }

  function PartLength(bounds: seq<nat>, limit: nat, i: nat): nat
    requires Ascending(bounds, limit) && i + 1 < |bounds|
  {
    assert bounds[i + 1 - 1] <= bounds[i + 1];
    bounds[i + 1] - bounds[i]
  }

  /** How many pieces of the rounded-up size there are; an empty dimension is one piece. */
  function PartCount(n: nat, count: nat): nat
    requires count > 0
  {
    if n == 0 then 1 else CeilDiv(n, CeilDiv(n, count))
  }

  lemma {:induction false} BoundsCount(n: nat, size: nat)
    requires n > 0 && size > 0
    ensures |SplitBounds(n, size)| == CeilDiv(n, size) + 1
  {
    if n > size {
      BoundsCount(n - size, size);
    }
    CeilDivStep(n, size);
  }

  lemma CeilDivStep(n: nat, size: nat)
    requires n > 0 && size > 0
    ensures CeilDiv(n, size) == if n > size then CeilDiv(n - size, size) + 1 else 1
  {
    var m := n - 1;
    assert n + size - 1 == Radix(m / size + 1, m % size, size);
    RadixDigits(m / size + 1, m % size, size);
    if n > size {
      assert m - size == Radix(m / size - 1, m % size, size) by {
        DivAtLeast(size, 1, m);
      }
      assert n - size + size - 1 == Radix(m / size, m % size, size);
      RadixDigits(m / size, m % size, size);
    } else {
      RadixDigits(0, m, size);
    }
  }

  lemma PartLengthsCount(n: nat, count: nat)
    requires count > 0
    ensures |PartLengths(n, count)| == PartCount(n, count)
  {
    if n > 0 {
      CeilDivStep(n, count);
      BoundsCount(n, CeilDiv(n, count));
    }
  }

  /** Every piece is full, but for the last one, which has what is left. */
  lemma {:induction false} PieceLength(n: nat, size: nat, i: nat)
    requires size > 0 && i + 1 < |SplitBounds(n, size)|
    ensures i * size <= n
    ensures SplitBounds(n, size)[i] == i * size && SplitBounds(n, size)[i + 1] - SplitBounds(n, size)[i] == Min(size, n - i * size)
    decreases n
  {
    if n > size {
      var rest := SplitBounds(n - size, size);
      var bounds := Shifted(rest, size);
      assert bounds[i + 1] == rest[i] + size;
      if i > 0 {
        PieceLength(n - size, size, i - 1);
        assert bounds[i] == rest[i - 1] + size;
        NextPiece(n, size, i, rest[i - 1], rest[i]);
      }
    }
  }

  lemma NextPiece(n: nat, size: nat, i: nat, lo: nat, hi: nat)
    requires n > size && i > 0 && lo == (i - 1) * size <= n - size && hi - lo == Min(size, n - size - (i - 1) * size)
    ensures i * size <= n && lo + size == i * size && hi - lo == Min(size, n - i * size)
  {
    assert i * size == (i - 1) * size + size;
  }

  /** A split succeeds exactly if the pieces of the rounded-up size are as many as the shards asked for. */
  lemma SplitParts<E>(t: Tensor<E>, d: nat, count: nat)
    requires t.Valid() && d < |t.shape| && count > 0
    ensures SplitTensor(t, d, count).Some? <==> PartCount(t.shape[d], count) == count
    ensures SplitTensor(t, d, count).Some? ==>
      |PartLengths(t.shape[d], count)| == count && forall i | 0 <= i < count ::
        SplitTensor(t, d, count).value.shards[i].shape == t.shape[d := PartLengths(t.shape[d], count)[i]]
  {
    PartLengthsCount(t.shape[d], count);
    var bounds := SplitBounds(t.shape[d], CeilDiv(t.shape[d], count));
    CutValid(t, d, bounds);
    forall i | 0 <= i < |bounds| - 1
      ensures Cut(t, d, bounds)[i].shape == t.shape[d := PartLengths(t.shape[d], count)[i]]
    {
      assert Cut(t, d, bounds)[i] == CutAt(t, d, bounds, i);
    }
  }

  lemma RoundedUp(n: nat, count: nat, size: nat)
    requires n > 0 && count > 0 && n <= size * count < n + count
    ensures CeilDiv(n, count) == size
  {
    var r := n + count - 1 - size * count;
    assert n + count - 1 == Radix(size, r, count);
    RadixDigits(size, r, count);
  }

  lemma PartLengthIs(n: nat, count: nat, size: nat, i: nat)
    requires n > 0 && count > 0 && CeilDiv(n, count) == size && i < |PartLengths(n, count)|
    ensures size > 0 && i * size <= n && PartLengths(n, count)[i] == Min(size, n - i * size)
  {
    CeilDivStep(n, count);
    PieceLength(n, size, i);
  }

  /** All shards have the rounded-up size, but for the last one, which has what is left. */
  lemma SplitSizes<E>(t: Tensor<E>, d: nat, count: nat, size: nat, i: nat)
    requires t.Valid() && d < |t.shape| && SplitTensor(t, d, count).Some? && t.shape[d] > 0 && i < count
    requires t.shape[d] <= size * count < t.shape[d] + count
    ensures i * size <= t.shape[d] && |SplitTensor(t, d, count).value.shards| == count
    ensures SplitTensor(t, d, count).value.shards[i].shape
         == t.shape[d := if t.shape[d] - i * size < size then t.shape[d] - i * size else size]
  {
    hide SplitTensor, PartLengths, PartCount, CeilDiv, Unshard;
    RoundedUp(t.shape[d], count, size);
    SplitThenUnshard(t, d, count);
    SplitParts(t, d, count);
    PartLengthIs(t.shape[d], count, size, i);
  }
}
