/** The paged KV cache: one flat slab of pages that every layer and every sequence shares,
    addressed by mixed-radix arithmetic through a table of page ids.

    The type parameter `V` stands for what one sequence position stores in one cache partition:
    a `[attn_head_count, attn_head_dim]` block. */
module Paging {
  import opened Radices
  import opened Scatter
  import Tensors

  /** The attributes of the cache that fix the shape of a page. */
  datatype Layout = Layout(blockCount: nat, partitionCount: nat, stride: nat)

  /** A coordinate of the page table seen as a tensor of pages, transformer blocks, cache
      partitions (K or V) and positions within a page. */
  datatype Cell = Cell(page: nat, block: nat, partition: nat, offset: nat)

  /** A page table of one batch: one row of page ids per sequence. */
  type PageIds = seq<seq<nat>>

  function SlabSize(c: Layout, pages: nat): nat {
    pages * c.blockCount * c.partitionCount * c.stride
  }

  predicate InRange(c: Layout, pages: nat, cell: Cell) {
    && cell.page < pages
    && cell.block < c.blockCount
    && cell.partition < c.partitionCount
    && cell.offset < c.stride
  }

  /** Where a cell lives in the flat slab: `unflatten` on the sub-page dimensions is row-major. */
  function Address(c: Layout, cell: Cell): nat {
    Radix(Radix(Radix(cell.page, cell.block, c.blockCount), cell.partition, c.partitionCount), cell.offset, c.stride)
  }

  /** The index of a sub-block in the table flattened over its first three dimensions, as `read`
      and `write` compute it from a page id. */
  function SubblockId(c: Layout, page: nat, block: nat, partition: nat): nat {
    var pageStride := c.blockCount * c.partitionCount;
    page * pageStride + block * c.partitionCount + partition
  }

  lemma AddressBound(c: Layout, pages: nat, cell: Cell)
    requires InRange(c, pages, cell)
    ensures Address(c, cell) < SlabSize(c, pages)
  {
    var i := Radix(cell.page, cell.block, c.blockCount);
    var k := Radix(i, cell.partition, c.partitionCount);
    RadixMonotone(cell.page, cell.block, pages, 0, c.blockCount);
    RadixMonotone(i, cell.partition, pages * c.blockCount, 0, c.partitionCount);
    RadixMonotone(k, cell.offset, pages * c.blockCount * c.partitionCount, 0, c.stride);
  }

  /** Different coordinates never share a slab element. */
  lemma AddressInjective(c: Layout, pages: nat, x: Cell, y: Cell)
    requires InRange(c, pages, x) && InRange(c, pages, y)
    requires Address(c, x) == Address(c, y)
    ensures x == y
  {
    var i, i' := Radix(x.page, x.block, c.blockCount), Radix(y.page, y.block, c.blockCount);
    var k, k' := Radix(i, x.partition, c.partitionCount), Radix(i', y.partition, c.partitionCount);
    RadixInjective(k, x.offset, k', y.offset, c.stride);
    RadixInjective(i, x.partition, i', y.partition, c.partitionCount);
    RadixInjective(x.page, x.block, y.page, y.block, c.blockCount);
  }

  /** Indexing sub-blocks and indexing the unflattened table meet at the same element. */
  lemma SubblockAddress(c: Layout, cell: Cell)
    ensures Radix(SubblockId(c, cell.page, cell.block, cell.partition), cell.offset, c.stride) == Address(c, cell)
  {
    var i := Radix(cell.page, cell.block, c.blockCount);
    assert i * c.partitionCount
        == cell.page * (c.blockCount * c.partitionCount) + cell.block * c.partitionCount;
  }

  /** The address is the row-major place in a tensor of pages, transformer blocks, partitions and positions. */
  lemma AddressIsOffset(c: Layout, pages: nat, cell: Cell)
    requires InRange(c, pages, cell)
    ensures Tensors.InBounds([cell.page, cell.block, cell.partition, cell.offset], [pages, c.blockCount, c.partitionCount, c.stride])
    ensures Address(c, cell)
         == Tensors.Offset([pages, c.blockCount, c.partitionCount, c.stride], [cell.page, cell.block, cell.partition, cell.offset])
  {
    hide Tensors.Offset;
    Tensors.Place4(pages, c.blockCount, c.partitionCount, c.stride, cell.page, cell.block, cell.partition, cell.offset);
  }

  /** The index of a sub-block is the row-major place in a tensor of pages, transformer blocks and partitions. */
  lemma SubblockIsOffset(c: Layout, pages: nat, page: nat, block: nat, partition: nat)
    requires page < pages && block < c.blockCount && partition < c.partitionCount
    ensures Tensors.InBounds([page, block, partition], [pages, c.blockCount, c.partitionCount])
    ensures SubblockId(c, page, block, partition) == Tensors.Offset([pages, c.blockCount, c.partitionCount], [page, block, partition])
  {
    hide Tensors.Offset;
    Tensors.Place3(pages, c.blockCount, c.partitionCount, page, block, partition);
    assert page * (c.blockCount * c.partitionCount) == page * c.blockCount * c.partitionCount;
  }

  /** The slab seen as a page table (`unflatten_page_table`). */
  ghost function Unflatten<V>(c: Layout, pages: nat, slab: seq<V>): imap<Cell, V>
    requires |slab| == SlabSize(c, pages)
  {
    imap cell: Cell | InRange(c, pages, cell) :: AddressBound(c, pages, cell); slab[Address(c, cell)]
  }

  lemma UnflattenUpdate<V>(c: Layout, pages: nat, slab: seq<V>, cell: Cell, v: V)
    requires |slab| == SlabSize(c, pages) && InRange(c, pages, cell)
    ensures Address(c, cell) < |slab|
    ensures Unflatten(c, pages, slab[Address(c, cell) := v]) == Unflatten(c, pages, slab)[cell := v]
  {
    AddressBound(c, pages, cell);
    var slab' := slab[Address(c, cell) := v];
    forall x: Cell | InRange(c, pages, x)
      ensures Unflatten(c, pages, slab')[x] == Unflatten(c, pages, slab)[cell := v][x]
    {
      AddressBound(c, pages, x);
      if Address(c, x) == Address(c, cell) {
        AddressInjective(c, pages, x, cell);
      }
    }
  }

  // ---- Page tables of a batch ----

  /** Every row of a page-id tensor has the same width and names existing pages. */
  predicate Rectangular(ids: PageIds, width: nat, pages: nat) {
    forall b | 0 <= b < |ids| :: |ids[b]| == width && forall j | 0 <= j < width :: ids[b][j] < pages
  }

  /** The page that stores position `pos` of sequence `b`; the padding page 0 past the end of a row. */
  function PageOf(c: Layout, ids: PageIds, b: nat, pos: nat): nat {
    if c.stride > 0 && b < |ids| && pos / c.stride < |ids[b]| then ids[b][pos / c.stride] else 0
  }

  function OffsetOf(c: Layout, pos: nat): nat {
    if c.stride > 0 then pos % c.stride else 0
  }

  /** The cell that stores position `pos` of sequence `b`. */
  function Target(c: Layout, ids: PageIds, b: nat, pos: nat, block: nat, partition: nat): Cell {
    Cell(PageOf(c, ids, b, pos), block, partition, OffsetOf(c, pos))
  }

  lemma BlockOfPosition(c: Layout, width: nat, pos: nat)
    requires c.stride > 0
    ensures pos < width * c.stride <==> pos / c.stride < width
  {
    assert pos == pos / c.stride * c.stride + pos % c.stride;
    if pos / c.stride < width {
      assert (pos / c.stride + 1) * c.stride <= width * c.stride;
    } else {
      assert width * c.stride <= pos / c.stride * c.stride;
    }
  }

  /** What `write` stores for the first `n` positions of one sequence in one partition. */
  ghost function RowWrites<V>(c: Layout, ids: PageIds, row: seq<V>, b: nat, block: nat, partition: nat, n: nat)
    : iset<(Cell, V)>
    requires n <= |row|
  {
    iset pos | 0 <= pos < n :: (Target(c, ids, b, pos, block, partition), row[pos])
  }

  /** What `write` stores for one partition, sequences `0..rows` only. */
  ghost function PartWrites<V>(c: Layout, ids: PageIds, part: seq<seq<V>>, block: nat, partition: nat, rows: nat)
    : iset<(Cell, V)>
    requires rows <= |part|
  {
    iset b, pos | 0 <= b < rows && 0 <= pos < |part[b]| :: (Target(c, ids, b, pos, block, partition), part[b][pos])
  }

  /** What `write` stores for one transformer block, partitions `0..count` only. */
  ghost function BlockWrites<V>(c: Layout, ids: PageIds, parts: seq<seq<seq<V>>>, block: nat, count: nat)
    : iset<(Cell, V)>
    requires count <= |parts|
  {
    iset p, b, pos | 0 <= p < count && 0 <= b < |parts[p]| && 0 <= pos < |parts[p][b]| ::
      (Target(c, ids, b, pos, block, p), parts[p][b][pos])
  }

  lemma RowWritesNext<V>(c: Layout, ids: PageIds, row: seq<V>, b: nat, block: nat, partition: nat, n: nat)
    requires n < |row|
    ensures RowWrites(c, ids, row, b, block, partition, n + 1)
         == RowWrites(c, ids, row, b, block, partition, n) + iset{(Target(c, ids, b, n, block, partition), row[n])}
  {
  }

  lemma PartWritesNext<V>(c: Layout, ids: PageIds, part: seq<seq<V>>, block: nat, partition: nat, rows: nat)
    requires rows < |part|
    ensures PartWrites(c, ids, part, block, partition, rows + 1)
         == PartWrites(c, ids, part, block, partition, rows)
          + RowWrites(c, ids, part[rows], rows, block, partition, |part[rows]|)
  {
  }

  lemma BlockWritesNext<V>(c: Layout, ids: PageIds, parts: seq<seq<seq<V>>>, block: nat, count: nat)
    requires count < |parts|
    ensures BlockWrites(c, ids, parts, block, count + 1)
         == BlockWrites(c, ids, parts, block, count) + PartWrites(c, ids, parts[count], block, count, |parts[count]|)
  {
  }

  /** Each sequence has room for the position it writes next. */
  predicate Ragged(c: Layout, ids: PageIds, positions: seq<nat>) {
    && c.stride > 0 && |positions| == |ids|
    && forall b | 0 <= b < |ids| :: positions[b] / c.stride < |ids[b]|
  }

  /** What `write_timestep` stores for one partition, sequences `0..rows` only. */
  ghost function StepRowWrites<V>(c: Layout, ids: PageIds, positions: seq<nat>, part: seq<V>,
                                  block: nat, partition: nat, rows: nat): iset<(Cell, V)>
    requires rows <= |positions| && rows <= |part|
  {
    iset b | 0 <= b < rows :: (Target(c, ids, b, positions[b], block, partition), part[b])
  }

  /** What `write_timestep` stores for one transformer block, partitions `0..count` only. */
  ghost function StepWrites<V>(c: Layout, ids: PageIds, positions: seq<nat>, parts: seq<seq<V>>, block: nat, count: nat)
    : iset<(Cell, V)>
    requires count <= |parts|
  {
    iset p, b | 0 <= p < count && 0 <= b < |parts[p]| && b < |positions| ::
      (Target(c, ids, b, positions[b], block, p), parts[p][b])
  }

  lemma StepRowWritesNext<V>(c: Layout, ids: PageIds, positions: seq<nat>, part: seq<V>, block: nat, partition: nat, rows: nat)
    requires rows < |positions| && rows < |part|
    ensures StepRowWrites(c, ids, positions, part, block, partition, rows + 1)
         == StepRowWrites(c, ids, positions, part, block, partition, rows)
          + iset{(Target(c, ids, rows, positions[rows], block, partition), part[rows])}
  {
  }

  lemma StepWritesNext<V>(c: Layout, ids: PageIds, positions: seq<nat>, parts: seq<seq<V>>, block: nat, count: nat)
    requires count < |parts| && |parts[count]| == |positions|
    ensures StepWrites(c, ids, positions, parts, block, count + 1)
         == StepWrites(c, ids, positions, parts, block, count)
          + StepRowWrites(c, ids, positions, parts[count], block, count, |positions|)
  {
  }

  /** The first `n` positions of every sequence of a batch in one partition. */
  ghost function Gather<V>(c: Layout, table: imap<Cell, V>, ids: PageIds, block: nat, partition: nat, n: nat)
    : seq<seq<V>>
    requires forall b, pos | 0 <= b < |ids| && 0 <= pos < n :: Target(c, ids, b, pos, block, partition) in table
  {
    seq(|ids|, b requires 0 <= b < |ids| =>
      seq(n, pos requires 0 <= pos < n => table[Target(c, ids, b, pos, block, partition)]))
  }

  /** The rows hold what the page table stores for the sequences of a batch in one partition. */
  ghost predicate Selected<V>(c: Layout, table: imap<Cell, V>, ids: PageIds, block: nat, partition: nat, rows: seq<seq<V>>) {
    forall b, pos | 0 <= b < |rows| && 0 <= pos < |rows[b]| ::
      var cell := Target(c, ids, b, pos, block, partition);
      cell in table && rows[b][pos] == table[cell]
  }

  /** `[:, :n]` of rows that are long enough. */
  function Cut<V>(rows: seq<seq<V>>, n: nat): seq<seq<V>>
    requires forall b | 0 <= b < |rows| :: n <= |rows[b]|
  {
    seq(|rows|, b requires 0 <= b < |rows| => rows[b][..n])
  }

  lemma GatherPrefix<V>(c: Layout, table: imap<Cell, V>, ids: PageIds, block: nat, partition: nat, rows: seq<seq<V>>, n: nat)
    requires Selected(c, table, ids, block, partition, rows) && |rows| == |ids| && forall b | 0 <= b < |rows| :: n <= |rows[b]|
    ensures forall b, pos | 0 <= b < |ids| && 0 <= pos < n :: Target(c, ids, b, pos, block, partition) in table
    ensures Cut(rows, n) == Gather(c, table, ids, block, partition, n)
  {
    forall b, pos | 0 <= b < |ids| && 0 <= pos < n
      ensures Target(c, ids, b, pos, block, partition) in table
      ensures rows[b][pos] == table[Target(c, ids, b, pos, block, partition)]
    {
    }
    var gathered := Gather(c, table, ids, block, partition, n);
    forall b | 0 <= b < |rows| ensures rows[b][..n] == gathered[b] {
    }
  }

  /** The cells behind the positions a page table has room for exist. */
  lemma TargetInRange(c: Layout, pages: nat, ids: PageIds, width: nat, b: nat, pos: nat, block: nat, partition: nat)
    requires c.stride > 0 && Rectangular(ids, width, pages) && b < |ids| && pos / c.stride < width
    requires block < c.blockCount && partition < c.partitionCount
    ensures PageOf(c, ids, b, pos) == ids[b][pos / c.stride]
    ensures InRange(c, pages, Target(c, ids, b, pos, block, partition))
  {
  }

  class PagedKVCache<V(0)> {
    const layout: Layout

    constructor (blockCount: nat, partitionCount: nat, stride: nat)
      requires stride > 0
      ensures layout == Layout(blockCount, partitionCount, stride)
    {
      layout := Layout(blockCount, partitionCount, stride);
    }

    /** `torch.empty`: the contents are arbitrary. */
    method Allocate(pageCount: nat) returns (state: array<V>)
      ensures fresh(state) && state.Length == SlabSize(layout, pageCount)
    {
      state := new V[SlabSize(layout, pageCount)];
    }

    /** Writes whole blocks from a linear layout, as prefill does. */
    method Write(state: array<V>, ghost pages: nat, partitions: seq<seq<seq<V>>>, block: nat, pageIds: PageIds, width: nat)
      requires layout.stride > 0 && state.Length == SlabSize(layout, pages)
      requires block < layout.blockCount && |partitions| <= layout.partitionCount
      requires Rectangular(pageIds, width, pages)
      requires forall p | 0 <= p < |partitions| ::
                 |partitions[p]| == |pageIds| && forall b | 0 <= b < |pageIds| :: |partitions[p][b]| == width * layout.stride
      modifies state
      ensures Scattered(Unflatten(layout, pages, old(state[..])), Unflatten(layout, pages, state[..]),
                        BlockWrites(layout, pageIds, partitions, block, |partitions|))
    {
      ghost var table := Unflatten(layout, pages, state[..]);
      for index := 0 to |partitions|
        invariant Scattered(table, Unflatten(layout, pages, state[..]),
                            BlockWrites(layout, pageIds, partitions, block, index))
      {
        ghost var mid := Unflatten(layout, pages, state[..]);
        ghost var before := BlockWrites(layout, pageIds, partitions, block, index);
        var part := partitions[index];
        IndexCopy(state, pages, part, block, index, pageIds, width);
        ghost var now := PartWrites(layout, pageIds, part, block, index, |part|);
        ScatterCompose(table, mid, Unflatten(layout, pages, state[..]), before, now);
        BlockWritesNext(layout, pageIds, partitions, block, index);
      }
    }

    /** `index_copy_` of one partition into the table of sub-blocks. */
    method IndexCopy(state: array<V>, ghost pages: nat, part: seq<seq<V>>, block: nat, index: nat, pageIds: PageIds, width: nat)
      requires layout.stride > 0 && state.Length == SlabSize(layout, pages)
      requires block < layout.blockCount && index < layout.partitionCount
      requires Rectangular(pageIds, width, pages) && |part| == |pageIds|
      requires forall b | 0 <= b < |pageIds| :: |part[b]| == width * layout.stride
      modifies state
      ensures Scattered(Unflatten(layout, pages, old(state[..])), Unflatten(layout, pages, state[..]),
                        PartWrites(layout, pageIds, part, block, index, |part|))
    {
      ghost var table := Unflatten(layout, pages, state[..]);
      for b := 0 to |pageIds|
        invariant Scattered(table, Unflatten(layout, pages, state[..]), PartWrites(layout, pageIds, part, block, index, b))
      {
        ghost var mid := Unflatten(layout, pages, state[..]);
        ghost var before := PartWrites(layout, pageIds, part, block, index, b);
        CopyRow(state, pages, part[b], b, block, index, pageIds, width);
        ghost var now := RowWrites(layout, pageIds, part[b], b, block, index, |part[b]|);
        ScatterCompose(table, mid, Unflatten(layout, pages, state[..]), before, now);
        PartWritesNext(layout, pageIds, part, block, index, b);
      }
    }

    /** Copies the blocks of one sequence to the sub-blocks its page ids name. */
    method CopyRow(state: array<V>, ghost pages: nat, row: seq<V>, b: nat, block: nat, index: nat, pageIds: PageIds, width: nat)
      requires layout.stride > 0 && state.Length == SlabSize(layout, pages)
      requires block < layout.blockCount && index < layout.partitionCount
      requires Rectangular(pageIds, width, pages) && b < |pageIds| && |row| == width * layout.stride
      modifies state
      ensures Scattered(Unflatten(layout, pages, old(state[..])), Unflatten(layout, pages, state[..]),
                        RowWrites(layout, pageIds, row, b, block, index, |row|))
    {
      ghost var table := Unflatten(layout, pages, state[..]);
      for pos := 0 to |row|
        invariant Scattered(table, Unflatten(layout, pages, state[..]), RowWrites(layout, pageIds, row, b, block, index, pos))
      {
        ghost var mid := Unflatten(layout, pages, state[..]);
        ghost var cell := Target(layout, pageIds, b, pos, block, index);
        BlockOfPosition(layout, width, pos);
        TargetInRange(layout, pages, pageIds, width, b, pos, block, index);
        SubblockAddress(layout, cell);
        var subblockId := SubblockId(layout, pageIds[b][pos / layout.stride], block, index);
        Store(state, pages, Radix(subblockId, pos % layout.stride, layout.stride), cell, row[pos]);
        ScatterOne(table, mid, RowWrites(layout, pageIds, row, b, block, index, pos), cell, row[pos]);
        RowWritesNext(layout, pageIds, row, b, block, index, pos);
      }
    }

    /** One element of an in-place scatter. */
    method Store(state: array<V>, ghost pages: nat, address: nat, ghost cell: Cell, v: V)
      requires state.Length == SlabSize(layout, pages) && InRange(layout, pages, cell)
      requires address == Address(layout, cell)
      modifies state
      ensures Unflatten(layout, pages, state[..]) == Unflatten(layout, pages, old(state[..]))[cell := v]
    {
      AddressBound(layout, pages, cell);
      UnflattenUpdate(layout, pages, state[..], cell, v);
      ghost var before := state[..];
      state[address] := v;
      assert state[..] == before[address := v];
    }

    /** Writes one position per sequence, each at its own place, as decode does. */
    method WriteTimestep(state: array<V>, ghost pages: nat, partitions: seq<seq<V>>, block: nat,
                         seqPositions: seq<nat>, pageIds: PageIds, ghost width: nat)
      requires state.Length == SlabSize(layout, pages)
      requires block < layout.blockCount && |partitions| == layout.partitionCount
      requires Rectangular(pageIds, width, pages) && Ragged(layout, pageIds, seqPositions)
      requires forall p | 0 <= p < |partitions| :: |partitions[p]| == |pageIds|
      modifies state
      ensures Scattered(Unflatten(layout, pages, old(state[..])), Unflatten(layout, pages, state[..]),
                        StepWrites(layout, pageIds, seqPositions, partitions, block, |partitions|))
    {
      ghost var table := Unflatten(layout, pages, state[..]);
      for index := 0 to |partitions|
        invariant Scattered(table, Unflatten(layout, pages, state[..]),
                            StepWrites(layout, pageIds, seqPositions, partitions, block, index))
      {
        ghost var mid := Unflatten(layout, pages, state[..]);
        ghost var before := StepWrites(layout, pageIds, seqPositions, partitions, block, index);
        IndexPut(state, pages, partitions[index], block, index, seqPositions, pageIds, width);
        ghost var now := StepRowWrites(layout, pageIds, seqPositions, partitions[index], block, index, |pageIds|);
        ScatterCompose(table, mid, Unflatten(layout, pages, state[..]), before, now);
        StepWritesNext(layout, pageIds, seqPositions, partitions, block, index);
      }
    }

    /** `index_put_` of one partition into the unflattened table. */
    method IndexPut(state: array<V>, ghost pages: nat, part: seq<V>, block: nat, index: nat,
                    seqPositions: seq<nat>, pageIds: PageIds, ghost width: nat)
      requires state.Length == SlabSize(layout, pages)
      requires block < layout.blockCount && index < layout.partitionCount
      requires Rectangular(pageIds, width, pages) && Ragged(layout, pageIds, seqPositions) && |part| == |pageIds|
      modifies state
      ensures Scattered(Unflatten(layout, pages, old(state[..])), Unflatten(layout, pages, state[..]),
                        StepRowWrites(layout, pageIds, seqPositions, part, block, index, |pageIds|))
    {
      ghost var table := Unflatten(layout, pages, state[..]);
      for b := 0 to |pageIds|
        invariant Scattered(table, Unflatten(layout, pages, state[..]),
                            StepRowWrites(layout, pageIds, seqPositions, part, block, index, b))
      {
        ghost var mid := Unflatten(layout, pages, state[..]);
        var pageIndex := seqPositions[b] / layout.stride;
        var cell := Cell(pageIds[b][pageIndex], block, index, seqPositions[b] % layout.stride);
        TargetInRange(layout, pages, pageIds, width, b, seqPositions[b], block, index);
        Store(state, pages, Address(layout, cell), cell, part[b]);
        ScatterOne(table, mid, StepRowWrites(layout, pageIds, seqPositions, part, block, index, b), cell, part[b]);
        StepRowWritesNext(layout, pageIds, seqPositions, part, block, index, b);
      }
    }

    /** Reads the pages of every sequence back into a linear layout, cut at `seqLen` positions. */
    method Read(state: array<V>, ghost pages: nat, partitionCount: nat, block: nat, seqLen: nat, pageIds: PageIds, width: nat)
      returns (kv: seq<seq<seq<V>>>)
      requires layout.stride > 0 && state.Length == SlabSize(layout, pages)
      requires block < layout.blockCount && partitionCount <= layout.partitionCount
      requires Rectangular(pageIds, width, pages) && seqLen <= width * layout.stride
      ensures |kv| == partitionCount
      ensures forall p, b, pos | 0 <= p < partitionCount && 0 <= b < |pageIds| && 0 <= pos < seqLen ::
                Target(layout, pageIds, b, pos, block, p) in Unflatten(layout, pages, state[..])
      ensures forall p | 0 <= p < partitionCount ::
                kv[p] == Gather(layout, Unflatten(layout, pages, state[..]), pageIds, block, p, seqLen)
    {
      forall p, b, pos | 0 <= p < partitionCount && 0 <= b < |pageIds| && 0 <= pos < seqLen
        ensures Target(layout, pageIds, b, pos, block, p) in Unflatten(layout, pages, state[..])
      {
        BlockOfPosition(layout, width, pos);
        TargetInRange(layout, pages, pageIds, width, b, pos, block, p);
      }
      ghost var table := Unflatten(layout, pages, state[..]);
      kv := [];
      for index := 0 to partitionCount
        invariant |kv| == index
        invariant forall p | 0 <= p < index :: kv[p] == Gather(layout, table, pageIds, block, p, seqLen)
      {
        var selected := IndexSelect(state, pages, block, index, pageIds, width);
        kv := kv + [Cut(selected, seqLen)];
        GatherPrefix(layout, table, pageIds, block, index, selected, seqLen);
      }
    }

    /** `index_select` of the sub-blocks of every sequence in one partition, flattened over blocks and offsets. */
    method IndexSelect(state: array<V>, ghost pages: nat, block: nat, index: nat, pageIds: PageIds, width: nat)
      returns (rows: seq<seq<V>>)
      requires layout.stride > 0 && state.Length == SlabSize(layout, pages)
      requires block < layout.blockCount && index < layout.partitionCount && Rectangular(pageIds, width, pages)
      ensures |rows| == |pageIds| && forall b | 0 <= b < |rows| :: |rows[b]| == width * layout.stride
      ensures Selected(layout, Unflatten(layout, pages, state[..]), pageIds, block, index, rows)
    {
      rows := [];
      for b := 0 to |pageIds|
        invariant |rows| == b && forall b' | 0 <= b' < b :: |rows[b']| == width * layout.stride
        invariant Selected(layout, Unflatten(layout, pages, state[..]), pageIds, block, index, rows)
      {
        var row := SelectRow(state, pages, block, index, pageIds, b, width);
        rows := rows + [row];
      }
    }

    /** `index_select` of the sub-blocks of one sequence, flattened over blocks and offsets. */
    method SelectRow(state: array<V>, ghost pages: nat, block: nat, index: nat, pageIds: PageIds, b: nat, width: nat)
      returns (row: seq<V>)
      requires layout.stride > 0 && state.Length == SlabSize(layout, pages) && b < |pageIds|
      requires block < layout.blockCount && index < layout.partitionCount && Rectangular(pageIds, width, pages)
      ensures |row| == width * layout.stride
      ensures forall pos | 0 <= pos < |row| ::
                var cell := Target(layout, pageIds, b, pos, block, index);
                InRange(layout, pages, cell) && row[pos] == Unflatten(layout, pages, state[..])[cell]
    {
      ghost var table := Unflatten(layout, pages, state[..]);
      row := [];
      for pos := 0 to width * layout.stride
        invariant |row| == pos
        invariant forall q | 0 <= q < pos ::
                    var cell := Target(layout, pageIds, b, q, block, index);
                    InRange(layout, pages, cell) && row[q] == table[cell]
      {
        BlockOfPosition(layout, width, pos);
        TargetInRange(layout, pages, pageIds, width, b, pos, block, index);
        ghost var cell := Target(layout, pageIds, b, pos, block, index);
        SubblockAddress(layout, cell);
        AddressBound(layout, pages, cell);
        var subblockId := SubblockId(layout, pageIds[b][pos / layout.stride], block, index);
        row := row + [state[Radix(subblockId, pos % layout.stride, layout.stride)]];
      }
    }
  }
}
