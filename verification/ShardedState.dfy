/** Sharding the state of a paged cache: the slab is not split as it lies, but as the page table it stands for. */
module ShardedState {
  import opened Paging
  import opened Radices
  import opened ShapePrograms
  import ShardedPaging
  import opened Sharding
  import opened Slices
  import opened Tensors
  import opened Wrappers

  /** The attributes of the cache. */
  datatype Attributes = Attributes(blocks: nat, partitions: nat, stride: nat, heads: nat, headDim: nat, shardCount: nat) {
    /** The constructor rejects head counts that the shards cannot share. */
    predicate Valid() {
      blocks > 0 && partitions > 0 && stride > 0 && heads > 0 && headDim > 0 && shardCount > 0 && heads % shardCount == 0
    }

    function SubPageDims(): seq<nat>
      requires shardCount > 0
    {
      [blocks, partitions, stride, heads / shardCount, headDim]
    }

    function Cells(): Layout {
      Layout(blocks, partitions, stride)
    }

    /** The heads of one shard. */
    function ShardHeads(): nat
      requires shardCount > 0
    {
      heads / shardCount
    }

    /** The dimensions of a whole page. */
    function PageDims(): seq<nat> {
      [blocks, partitions, stride, heads, headDim]
    }
  }

  const HEADS := 4

  /** `unflatten_page_table` of one slab. */
  function PageTable<E>(slab: Tensor<E>, dims: seq<nat>): Option<Tensor<E>>
    requires slab.Valid()
  {
    Apply(Unflatten(1, dims), slab)
  }

  /** `unflatten_page_table` of a sharded slab. */
  function ShardedPageTable<E>(a: Attributes, state: Split<E>): Option<Split<E>>
    requires a.Valid() && state.Valid()
  {
    if |state.shards| != a.shardCount then None
    else
      match ApplyAll(Unflatten(1, a.SubPageDims()), state.shards)
      case None => None
      case Some(ts) => MakeSplit(ts, HEADS)
  }

  /** `shard_state` for several shards: reinterpret, split the heads, flatten every shard. */
  function ShardState<E>(a: Attributes, slab: Tensor<E>): (s: Option<Split<E>>)
    requires a.Valid() && slab.Valid()
    ensures s.Some? ==> s.value.Valid()
  {
    match PageTable(slab, a.PageDims())
    case None => None
    case Some(table) =>
      ApplyValid(Unflatten(1, a.PageDims()), slab);
      match SplitTensor(table, HEADS, a.shardCount)
      case None => None
      case Some(split) =>
        SplitThenUnshard(table, HEADS, a.shardCount);
        match ApplyAll(Flatten(1, -1), split.shards)
        case None => None
        case Some(ts) => MakeSplit(ts, 1)
  }

  /** Flattening the sub-page dimensions of a shard and unflattening them again. */
  lemma FlattenPage<E>(t: Tensor<E>, pages: nat, dims: seq<nat>)
    requires t.Valid() && t.shape == [pages] + dims && dims != []
    ensures Apply(Flatten(1, -1), t) == Some(Tensor([pages, Prod(dims)], t.data))
    ensures Tensor([pages, Prod(dims)], t.data).Valid()
    ensures Apply(Unflatten(1, dims), Tensor([pages, Prod(dims)], t.data)) == Some(t)
  {
    var n := |t.shape|;
    assert t.shape[..1] == [pages] && t.shape[1..n - 1 + 1] == dims && t.shape[n - 1 + 1..] == [];
    assert FlattenShape(t.shape, 1, n - 1) == [pages, Prod(dims)];
    FlattenValid(t.shape, 1, n - 1);
    assert [pages, Prod(dims)][..1] == [pages] && [pages, Prod(dims)][1 + 1..] == [];
    assert UnflattenShape([pages, Prod(dims)], 1, dims) == t.shape;
  }

  predicate PagesOf<E>(ts: seq<Tensor<E>>, pages: nat, dims: seq<nat>) {
    forall i | 0 <= i < |ts| :: ts[i].Valid() && ts[i].shape == [pages] + dims
  }

  predicate SlabsOf<E>(ts: seq<Tensor<E>>, pages: nat, size: nat) {
    forall i | 0 <= i < |ts| :: ts[i].Valid() && ts[i].shape == [pages, size]
  }

  lemma {:induction false} FlattenPages<E>(ts: seq<Tensor<E>>, pages: nat, dims: seq<nat>) returns (flat: seq<Tensor<E>>)
    requires PagesOf(ts, pages, dims) && dims != []
    ensures |flat| == |ts| && SlabsOf(flat, pages, Prod(dims))
    ensures (forall t | t in ts :: t.Valid()) && ApplyAll(Flatten(1, -1), ts) == Some(flat)
    ensures (forall t | t in flat :: t.Valid()) && ApplyAll(Unflatten(1, dims), flat) == Some(ts)
  {
    if ts == [] {
      flat := [];
    } else {
      FlattenPage(ts[0], pages, dims);
      var rest := FlattenPages(ts[1..], pages, dims);
      flat := [Tensor([pages, Prod(dims)], ts[0].data)] + rest;
      assert flat[1..] == rest && [ts[0]] + ts[1..] == ts;
    }
  }

  lemma WholeTable<E>(a: Attributes, slab: Tensor<E>, pages: nat) returns (whole: Tensor<E>)
    requires a.Valid() && slab.Valid() && slab.shape == [pages, Prod(a.PageDims())]
    ensures PageTable(slab, a.PageDims()) == Some(whole) && whole.Valid() && whole.shape == [pages] + a.PageDims()
  {
    whole := Tensor([pages] + a.PageDims(), slab.data);
    assert UnflattenShape(slab.shape, 1, a.PageDims()) == whole.shape;
    ApplyValid(Unflatten(1, a.PageDims()), slab);
  }

  /** The tensor is the part of a page table that belongs to shard `j`. */
  ghost predicate TablePart<E>(a: Attributes, s: Tensor<E>, whole: Tensor<E>, pages: nat, j: nat)
    requires a.Valid()
  {
    s.shape == [pages] + a.SubPageDims() && IsPart(s, whole, HEADS, j, a.ShardHeads())
  }

  lemma SplitTable<E>(a: Attributes, whole: Tensor<E>, pages: nat) returns (table: Split<E>)
    requires a.Valid() && whole.Valid() && whole.shape == [pages] + a.PageDims()
    ensures SplitTensor(whole, HEADS, a.shardCount) == Some(table) && table.Valid() && Unshard(table) == whole
    ensures table.dim == HEADS && |table.shards| == a.shardCount
    ensures forall j | 0 <= j < a.shardCount :: TablePart(a, table.shards[j], whole, pages, j)
  {
    SplitEvenly(whole, HEADS, a.shardCount, a.ShardHeads());
    SplitThenUnshard(whole, HEADS, a.shardCount);
    table := SplitTensor(whole, HEADS, a.shardCount).value;
    assert whole.shape[HEADS := a.ShardHeads()] == [pages] + a.SubPageDims();
  }

  lemma ShardedTables<E>(a: Attributes, slab: Tensor<E>, pages: nat) returns (state: Split<E>, table: Split<E>, whole: Tensor<E>)
    requires a.Valid() && slab.Valid() && slab.shape == [pages, Prod(a.PageDims())]
    ensures state.Valid() && ShardState(a, slab) == Some(state)
    ensures table.Valid() && ShardedPageTable(a, state) == Some(table)
    ensures PageTable(slab, a.PageDims()) == Some(whole) && Unshard(table) == whole && whole.Valid()
    ensures whole.shape == [pages] + a.PageDims() && |table.shards| == a.shardCount
    ensures forall j | 0 <= j < a.shardCount :: TablePart(a, table.shards[j], whole, pages, j)
  {
    hide Prod;
    whole := WholeTable(a, slab, pages);
    table := SplitTable(a, whole, pages);
    forall j | 0 <= j < |table.shards| ensures table.shards[j].shape == [pages] + a.SubPageDims() {
      assert TablePart(a, table.shards[j], whole, pages, j);
    }
    var flat := FlattenPages(table.shards, pages, a.SubPageDims());
    state := Split(flat, 1);
  }

  /** Sharding the state and looking at it as a page table again gives the shards of the unsharded page table. */
  lemma ShardedStateIsPageTable<E>(a: Attributes, slab: Tensor<E>, pages: nat)
    requires a.Valid() && slab.Valid() && slab.shape == [pages, Prod(a.PageDims())]
    ensures ShardState(a, slab).Some?
    ensures var table := ShardedPageTable(a, ShardState(a, slab).value);
      table.Some? && table.value.Valid() && PageTable(slab, a.PageDims()) == Some(Unshard(table.value))
  {
    var state, table, whole := ShardedTables(a, slab, pages);
  }

  // ---- Page tables position by position ----

  /** One head of one position. */
  function HeadAt<E>(t: Tensor<E>, cell: Cell, head: nat, headDim: nat): seq<E>
    requires t.Valid() && forall x | 0 <= x < headDim :: InBounds(Element(cell, head, x), t.shape)
  {
    seq(headDim, x requires 0 <= x < headDim => At(t, Element(cell, head, x)))
  }

  function Element(cell: Cell, head: nat, x: nat): seq<nat> {
    [cell.page, cell.block, cell.partition, cell.offset, head, x]
  }

  predicate IsTable<E>(t: Tensor<E>, c: Layout, pages: nat, heads: nat, headDim: nat) {
    t.Valid() && t.shape == [pages, c.blockCount, c.partitionCount, c.stride, heads, headDim]
  }

  /** All heads of one position. */
  function HeadsAt<E>(t: Tensor<E>, c: Layout, pages: nat, heads: nat, headDim: nat, cell: Cell): seq<seq<E>>
    requires IsTable(t, c, pages, heads, headDim) && InRange(c, pages, cell)
  {
    seq(heads, head requires 0 <= head < heads => HeadAt(t, cell, head, headDim))
  }

  /** A page table as the paged cache sees it. */
  ghost function TableOf<E>(t: Tensor<E>, c: Layout, pages: nat, heads: nat, headDim: nat): imap<Cell, seq<seq<E>>>
    requires IsTable(t, c, pages, heads, headDim)
  {
    imap cell: Cell | InRange(c, pages, cell) :: HeadsAt(t, c, pages, heads, headDim, cell)
  }

  /** A part of a page table along the heads holds the heads of that part at every position. */
  lemma PartHeads<E>(t: Tensor<E>, s: Tensor<E>, c: Layout, pages: nat, heads: nat, headDim: nat, j: nat, size: nat, cell: Cell)
    requires IsTable(t, c, pages, heads, headDim) && IsTable(s, c, pages, size, headDim) && IsPart(s, t, HEADS, j, size)
    requires InRange(c, pages, cell)
    ensures HeadsAt(s, c, pages, size, headDim, cell) == ShardedPaging.HeadSlice(HeadsAt(t, c, pages, heads, headDim, cell), j, size)
  {
    hide Prod, At, HeadAt, IsPart;
    PartFits(t, s, j, size);
    assert (j + 1) * size == j * size + size;
    forall head | 0 <= head < size ensures HeadsAt(s, c, pages, size, headDim, cell)[head] == HeadsAt(t, c, pages, heads, headDim, cell)[j * size + head] {
      PartHead(t, s, c, pages, heads, headDim, j, size, cell, head);
    }
  }

  lemma PartFits<E>(t: Tensor<E>, s: Tensor<E>, j: nat, size: nat)
    requires IsPart(s, t, HEADS, j, size)
    ensures HEADS < |t.shape| && j * size <= (j + 1) * size <= t.shape[HEADS]
  {
  }

  lemma PartHead<E>(t: Tensor<E>, s: Tensor<E>, c: Layout, pages: nat, heads: nat, headDim: nat, j: nat, size: nat, cell: Cell, head: nat)
    requires IsTable(t, c, pages, heads, headDim) && IsTable(s, c, pages, size, headDim) && IsPart(s, t, HEADS, j, size)
    requires InRange(c, pages, cell) && head < size && j * size + head < heads
    ensures HeadAt(s, cell, head, headDim) == HeadAt(t, cell, j * size + head, headDim)
  {
    hide Prod, At, IsPart;
    forall x | 0 <= x < headDim
      ensures HeadAt(s, cell, head, headDim)[x] == HeadAt(t, cell, j * size + head, headDim)[x]
    {
      PartElement(t, s, c, pages, heads, headDim, j, size, cell, head, x);
    }
  }

  lemma PartElement<E>(t: Tensor<E>, s: Tensor<E>, c: Layout, pages: nat, heads: nat, headDim: nat, j: nat, size: nat, cell: Cell,
                       head: nat, x: nat)
    requires IsTable(t, c, pages, heads, headDim) && IsTable(s, c, pages, size, headDim) && IsPart(s, t, HEADS, j, size)
    requires InRange(c, pages, cell) && head < size && x < headDim
    ensures InBounds(Element(cell, head, x), s.shape) && InBounds(Element(cell, j * size + head, x), t.shape)
    ensures At(s, Element(cell, head, x)) == At(t, Element(cell, j * size + head, x))
  {
    hide Prod;
    var idx := Element(cell, head, x);
    assert (j + 1) * size == j * size + size;
    assert InBounds(idx, s.shape);
    assert idx[HEADS := idx[HEADS] + j * size] == Element(cell, j * size + head, x);
  }

  /** A device with the tensor as its page table holds shard `j` of the whole page table. */
  ghost predicate StartsAsShard<E>(a: Attributes, s: Tensor<E>, whole: Tensor<E>, pages: nat, j: nat)
    requires a.Valid()
  {
    && IsTable(whole, a.Cells(), pages, a.heads, a.headDim)
    && IsTable(s, a.Cells(), pages, a.ShardHeads(), a.headDim)
    && ShardedPaging.ShardOf(ShardedPaging.Heads(j, a.ShardHeads()), TableOf(whole, a.Cells(), pages, a.heads, a.headDim),
                             TableOf(s, a.Cells(), pages, a.ShardHeads(), a.headDim))
  }

  lemma PartStarts<E>(a: Attributes, s: Tensor<E>, whole: Tensor<E>, pages: nat, j: nat)
    requires a.Valid() && whole.Valid() && whole.shape == [pages] + a.PageDims() && TablePart(a, s, whole, pages, j)
    ensures StartsAsShard(a, s, whole, pages, j)
  {
    hide Prod;
    forall cell: Cell | InRange(a.Cells(), pages, cell)
      ensures HeadsAt(s, a.Cells(), pages, a.ShardHeads(), a.headDim, cell)
           == ShardedPaging.HeadSlice(HeadsAt(whole, a.Cells(), pages, a.heads, a.headDim, cell), j, a.ShardHeads())
    {
      PartHeads(whole, s, a.Cells(), pages, a.heads, a.headDim, j, a.ShardHeads(), cell);
    }
  }

  /** A state made by `shard_state` starts every device as a shard of the unsharded page table. */
  lemma ShardStateStarts<E>(a: Attributes, slab: Tensor<E>, pages: nat)
    requires a.Valid() && slab.Valid() && slab.shape == [pages, Prod(a.PageDims())]
    ensures PageTable(slab, a.PageDims()).Some? && ShardState(a, slab).Some?
    ensures var table := ShardedPageTable(a, ShardState(a, slab).value);
      && table.Some? && |table.value.shards| == a.shardCount
      && forall j | 0 <= j < a.shardCount ::
           StartsAsShard(a, table.value.shards[j], PageTable(slab, a.PageDims()).value, pages, j)
  {
    hide Prod;
    var state, table, whole := ShardedTables(a, slab, pages);
    forall j | 0 <= j < a.shardCount ensures StartsAsShard(a, table.shards[j], whole, pages, j) {
      PartStarts(a, table.shards[j], whole, pages, j);
    }
  }

  /** The unsharded page table of a slab, and the page tables of the devices after `shard_state`. */
  ghost predicate TablesOf<E>(a: Attributes, slab: Tensor<E>, pages: nat, whole: Tensor<E>, shards: seq<Tensor<E>>)
    requires a.Valid()
  {
    && slab.Valid() && slab.shape == [pages, Prod(a.PageDims())] && PageTable(slab, a.PageDims()) == Some(whole)
    && ShardState(a, slab).Some? && ShardedPageTable(a, ShardState(a, slab).value).Some?
    && shards == ShardedPageTable(a, ShardState(a, slab).value).value.shards
  }

  /** The unsharded cache starts with the page table, every device with its shard of it, and all of them see the same calls. */
  ghost predicate Served<E>(a: Attributes, whole: Tensor<E>, shards: seq<Tensor<E>>, pages: nat,
                            tables: seq<imap<Cell, seq<seq<E>>>>, devices: seq<seq<imap<Cell, seq<seq<E>>>>>,
                            calls: seq<ShardedPaging.Call<seq<seq<E>>>>)
    requires a.Valid()
  {
    && |shards| == |devices| == a.shardCount && IsTable(whole, a.Cells(), pages, a.heads, a.headDim)
    && |tables| == |calls| + 1 && tables[0] == TableOf(whole, a.Cells(), pages, a.heads, a.headDim)
    && (forall j | 0 <= j < a.shardCount ::
          && |devices[j]| == |tables| && IsTable(shards[j], a.Cells(), pages, a.ShardHeads(), a.headDim)
          && devices[j][0] == TableOf(shards[j], a.Cells(), pages, a.ShardHeads(), a.headDim)
          && forall m | 0 <= m < |calls| ::
               ShardedPaging.CallAt(a.Cells(), ShardedPaging.Heads(j, a.ShardHeads()), tables, devices[j], calls, m))
    && (forall m | 0 <= m < |calls| :: ShardedPaging.CallHeaded(a.Cells(), calls[m], a.heads))
  }

  /** From such a state on, whatever runs through the cache, the devices together read what the unsharded cache reads. */
  lemma ShardedCacheReads<E>(a: Attributes, slab: Tensor<E>, pages: nat, whole: Tensor<E>, shards: seq<Tensor<E>>,
                             tables: seq<imap<Cell, seq<seq<E>>>>, devices: seq<seq<imap<Cell, seq<seq<E>>>>>,
                             calls: seq<ShardedPaging.Call<seq<seq<E>>>>, n: nat, ids: PageIds, block: nat, partition: nat, len: nat,
                             b: nat, pos: nat)
    requires a.Valid() && TablesOf(a, slab, pages, whole, shards) && Served(a, whole, shards, pages, tables, devices, calls)
    requires n <= |calls| && ShardedPaging.Gathers(a.Cells(), tables[n], ids, block, partition, len)
    requires b < |ids| && pos < len && PageOf(a.Cells(), ids, b, pos) != 0
    ensures |devices| == a.shardCount
    ensures forall j | 0 <= j < |devices| :: n < |devices[j]| && ShardedPaging.Gathers(a.Cells(), devices[j][n], ids, block, partition, len)
    ensures ShardedPaging.ReadJoined(a.Cells(), devices, n, ids, block, partition, len, b, pos)
         == Gather(a.Cells(), tables[n], ids, block, partition, len)[b][pos]
  {
    hide Prod, ShardState, ShardedPageTable;
    ShardStateStarts(a, slab, pages);
    forall j | 0 <= j < a.shardCount
      ensures ShardedPaging.DeviceRun(a.Cells(), tables, devices[j], calls, j, a.ShardHeads())
    {
      assert StartsAsShard(a, shards[j], whole, pages, j);
    }
    assert a.shardCount * a.ShardHeads() == a.heads;
    ShardedPaging.ShardingIsInvisible(a.Cells(), tables, devices, calls, a.ShardHeads(), n, ids, block, partition, len, b, pos);
  }
}
