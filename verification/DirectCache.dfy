/** The dense cache, with one tensor for each transformer block and partition, and the proof that the paged
    cache behaves like it through any page table whose nonzero entries are distinct. */
module DirectCache {
  import opened Paging
  import opened Radices
  import opened Scatter

  /** `[batch, position]` for each transformer block and partition. */
  type Dense<V> = seq<seq<seq<V>>>

  predicate DenseShaped<V>(c: Layout, d: Dense<V>, batch: nat, seqLength: nat) {
    && |d| == c.blockCount * c.partitionCount
    && (forall k | 0 <= k < |d| :: |d[k]| == batch)
    && (forall k, b | 0 <= k < |d| && 0 <= b < batch :: |d[k][b]| == seqLength)
  }

  /** The contents after `write`: the leading positions of one transformer block are replaced. */
  ghost predicate DenseWritten<V>(c: Layout, pre: Dense<V>, post: Dense<V>, parts: seq<seq<seq<V>>>, block: nat, count: nat) {
    && |post| == |pre|
    && (forall k | 0 <= k < |pre| :: |post[k]| == |pre[k]|)
    && (forall k, b | 0 <= k < |pre| && 0 <= b < |pre[k]| :: |post[k][b]| == |pre[k][b]|)
    && (forall k, b, pos | 0 <= k < |pre| && 0 <= b < |pre[k]| && 0 <= pos < |pre[k][b]| ::
          post[k][b][pos] == WrittenValue(c, pre, parts, block, count, k, b, pos))
  }

  ghost function WrittenValue<V>(c: Layout, pre: Dense<V>, parts: seq<seq<seq<V>>>, block: nat, count: nat, k: nat, b: nat, pos: nat): V
    requires k < |pre| && b < |pre[k]| && pos < |pre[k][b]|
  {
    var p := k - block * c.partitionCount;
    if 0 <= p < count && p < |parts| && b < |parts[p]| && pos < |parts[p][b]| then parts[p][b][pos] else pre[k][b][pos]
  }

  /** The contents after `write_timestep`: one position per sequence of one transformer block is replaced. */
  ghost predicate DenseStepped<V>(c: Layout, pre: Dense<V>, post: Dense<V>, parts: seq<seq<V>>, block: nat,
                                  positions: seq<nat>, rows: nat, count: nat) {
    && |post| == |pre|
    && (forall k | 0 <= k < |pre| :: |post[k]| == |pre[k]|)
    && (forall k, b | 0 <= k < |pre| && 0 <= b < |pre[k]| :: |post[k][b]| == |pre[k][b]|)
    && (forall k, b, pos | 0 <= k < |pre| && 0 <= b < |pre[k]| && 0 <= pos < |pre[k][b]| ::
          post[k][b][pos] == SteppedValue(c, pre, parts, block, positions, rows, count, k, b, pos))
  }

  /** Sequences `0..rows` have been stepped in all partitions, sequence `rows` in partitions `0..count`. */
  ghost function SteppedValue<V>(c: Layout, pre: Dense<V>, parts: seq<seq<V>>, block: nat, positions: seq<nat>,
                                 rows: nat, count: nat, k: nat, b: nat, pos: nat): V
    requires k < |pre| && b < |pre[k]| && pos < |pre[k][b]|
  {
    var p := k - block * c.partitionCount;
    if 0 <= p < |parts| && b < |positions| && b < |parts[p]| && pos == positions[b] && (b < rows || (b == rows && p < count))
    then parts[p][b] else pre[k][b][pos]
  }

  class DirectKVCache<V(0)> {
    const layout: Layout
    const seqLength: nat

    constructor (layout: Layout, seqLength: nat)
      ensures this.layout == layout && this.seqLength == seqLength
    {
      this.layout := layout;
      this.seqLength := seqLength;
    }

    method Write(state: array<seq<seq<V>>>, ghost batch: nat, partitions: seq<seq<seq<V>>>, block: nat)
      requires DenseShaped(layout, state[..], batch, seqLength)
      requires block < layout.blockCount && |partitions| == layout.partitionCount
      requires forall p | 0 <= p < |partitions| :: |partitions[p]| == batch && forall b | 0 <= b < batch :: |partitions[p][b]| <= seqLength
      modifies state
      ensures DenseWritten(layout, old(state[..]), state[..], partitions, block, |partitions|)
    {
      ghost var pre := state[..];
      for idx := 0 to |partitions|
        invariant DenseWritten(layout, pre, state[..], partitions, block, idx)
      {
        DestinationExists(layout, block, idx);
        var dest := Radix(block, idx, layout.partitionCount);
        var tensor, src := state[dest], partitions[idx];
        state[dest] := seq(|tensor|, b requires 0 <= b < |tensor| && |tensor| == |src| && |src[b]| <= |tensor[b]| =>
          src[b] + tensor[b][|src[b]|..]);
      }
    }

    method WriteTimestep(state: array<seq<seq<V>>>, partitions: seq<seq<V>>, block: nat, seqPositions: seq<nat>)
      requires DenseShaped(layout, state[..], |seqPositions|, seqLength)
      requires block < layout.blockCount && |partitions| == layout.partitionCount
      requires forall p | 0 <= p < |partitions| :: |partitions[p]| == |seqPositions|
      requires forall b | 0 <= b < |seqPositions| :: seqPositions[b] < seqLength
      modifies state
      ensures DenseStepped(layout, old(state[..]), state[..], partitions, block, seqPositions, |seqPositions|, 0)
    {
      ghost var pre := state[..];
      for b := 0 to |seqPositions|
        invariant DenseStepped(layout, pre, state[..], partitions, block, seqPositions, b, 0)
      {
        for i := 0 to |partitions|
          invariant DenseStepped(layout, pre, state[..], partitions, block, seqPositions, b, i)
        {
          DestinationExists(layout, block, i);
          var dest := Radix(block, i, layout.partitionCount);
          var tensor := state[dest];
          ghost var mid := state[..];
          state[dest] := tensor[b := tensor[b][seqPositions[b] := partitions[i][b]]];
          SteppedCell(layout, pre, mid, state[..], partitions, block, seqPositions, b, i, dest);
        }
        SteppedRow(layout, pre, state[..], partitions, block, seqPositions, b);
      }
    }

    method Read(state: array<seq<seq<V>>>, batch: nat, partitionCount: nat, block: nat, seqLen: nat) returns (kv: seq<seq<seq<V>>>)
      requires DenseShaped(layout, state[..], batch, seqLength)
      requires block < layout.blockCount && partitionCount == layout.partitionCount
      ensures |kv| == partitionCount
      ensures forall p | 0 <= p < partitionCount ::
                Radix(block, p, partitionCount) < state.Length && kv[p] == Prefixes(state[Radix(block, p, partitionCount)], seqLen)
    {
      kv := [];
      for i := 0 to partitionCount
        invariant |kv| == i
        invariant forall p | 0 <= p < i ::
                    Radix(block, p, partitionCount) < state.Length && kv[p] == Prefixes(state[Radix(block, p, partitionCount)], seqLen)
      {
        DestinationExists(layout, block, i);
        kv := kv + [Prefixes(state[Radix(block, i, partitionCount)], seqLen)];
      }
    }
  }

  /** `[:, :n]` */
  function Prefixes<V>(tensor: seq<seq<V>>, n: nat): seq<seq<V>> {
    seq(|tensor|, b requires 0 <= b < |tensor| => if n <= |tensor[b]| then tensor[b][..n] else tensor[b])
  }

  /** One more position of the row is replaced. */
  lemma SteppedCell<V>(c: Layout, pre: Dense<V>, mid: Dense<V>, post: Dense<V>, parts: seq<seq<V>>, block: nat,
                       positions: seq<nat>, b: nat, p: nat, dest: nat)
    requires DenseStepped(c, pre, mid, parts, block, positions, b, p)
    requires b < |positions| && p < |parts| && b < |parts[p]| && dest == Radix(block, p, c.partitionCount) < |mid|
    requires b < |mid[dest]| && positions[b] < |mid[dest][b]|
    requires post == mid[dest := mid[dest][b := mid[dest][b][positions[b] := parts[p][b]]]]
    ensures DenseStepped(c, pre, post, parts, block, positions, b, p + 1)
  {
    forall k, b', pos | 0 <= k < |pre| && 0 <= b' < |pre[k]| && 0 <= pos < |pre[k][b']|
      ensures post[k][b'][pos] == SteppedValue(c, pre, parts, block, positions, b, p + 1, k, b', pos)
    {
      assert mid[k][b'][pos] == SteppedValue(c, pre, parts, block, positions, b, p, k, b', pos);
    }
  }

  lemma SteppedRow<V>(c: Layout, pre: Dense<V>, post: Dense<V>, parts: seq<seq<V>>, block: nat, positions: seq<nat>, rows: nat)
    requires DenseStepped(c, pre, post, parts, block, positions, rows, |parts|)
    ensures DenseStepped(c, pre, post, parts, block, positions, rows + 1, 0)
  {
    forall k, b, pos | 0 <= k < |pre| && 0 <= b < |pre[k]| && 0 <= pos < |pre[k][b]|
      ensures SteppedValue(c, pre, parts, block, positions, rows, |parts|, k, b, pos)
           == SteppedValue(c, pre, parts, block, positions, rows + 1, 0, k, b, pos)
    {
    }
  }

  lemma DestinationExists(c: Layout, block: nat, idx: nat)
    requires block < c.blockCount && idx < c.partitionCount
    ensures Radix(block, idx, c.partitionCount) < c.blockCount * c.partitionCount
  {
    RadixMonotone(block, idx, c.blockCount, 0, c.partitionCount);
  }

  // ---- Refinement ----

  /** Nonzero page ids are pairwise distinct; the padding page may repeat. */
  ghost predicate DistinctPages(ids: PageIds) {
    forall b, j, b', j' | 0 <= b < |ids| && 0 <= j < |ids[b]| && 0 <= b' < |ids| && 0 <= j' < |ids[b']|
      && ids[b][j] == ids[b'][j'] && ids[b][j] != 0 :: b == b' && j == j'
  }

  /** Both caches have a place for the position. */
  ghost predicate HasPlace<V>(c: Layout, ids: PageIds, table: imap<Cell, V>, d: Dense<V>, b: nat, pos: nat, t: nat, p: nat) {
    && Radix(t, p, c.partitionCount) < |d| && b < |d[Radix(t, p, c.partitionCount)]|
    && pos < |d[Radix(t, p, c.partitionCount)][b]|
    && Target(c, ids, b, pos, t, p) in table
  }

  /** Both caches hold the same value there. */
  ghost predicate AgreeAt<V>(c: Layout, ids: PageIds, table: imap<Cell, V>, d: Dense<V>, b: nat, pos: nat, t: nat, p: nat) {
    && HasPlace(c, ids, table, d, b, pos, t, p)
    && table[Target(c, ids, b, pos, t, p)] == d[Radix(t, p, c.partitionCount)][b][pos]
  }

  /** A position of a block that a sequence owns. */
  predicate OwnedPosition(c: Layout, ids: PageIds, b: nat, pos: nat, t: nat, p: nat) {
    PageOf(c, ids, b, pos) != 0 && t < c.blockCount && p < c.partitionCount
  }

  /** Both caches have places for all positions of the blocks that the sequences own. */
  ghost predicate HasPlaces<V>(c: Layout, ids: PageIds, table: imap<Cell, V>, d: Dense<V>) {
    forall b: nat, pos: nat, t: nat, p: nat | OwnedPosition(c, ids, b, pos, t, p) :: HasPlace(c, ids, table, d, b, pos, t, p)
  }

  /** Any slab and any dense cache of the sizes that are allocated have places, whatever they contain. */
  lemma AllocatedPlaces<V>(c: Layout, pages: nat, ids: PageIds, width: nat, slab: seq<V>, d: Dense<V>, seqLength: nat)
    requires c.stride > 0 && |slab| == SlabSize(c, pages) && Rectangular(ids, width, pages)
    requires DenseShaped(c, d, |ids|, seqLength) && width * c.stride <= seqLength
    ensures HasPlaces(c, ids, Unflatten(c, pages, slab), d)
  {
    forall b: nat, pos: nat, t: nat, p: nat | OwnedPosition(c, ids, b, pos, t, p)
      ensures HasPlace(c, ids, Unflatten(c, pages, slab), d, b, pos, t, p)
    {
      BlockOfPosition(c, width, pos);
      TargetInRange(c, pages, ids, width, b, pos, t, p);
      DestinationExists(c, t, p);
    }
  }

  lemma OwnedTargets(c: Layout, ids: PageIds, b: nat, pos: nat, t: nat, p: nat, b': nat, pos': nat, t': nat, p': nat)
    requires DistinctPages(ids) && PageOf(c, ids, b, pos) != 0
    requires Target(c, ids, b, pos, t, p) == Target(c, ids, b', pos', t', p')
    ensures b == b' && pos == pos' && t == t' && p == p'
  {
    assert pos == pos / c.stride * c.stride + pos % c.stride;
    assert pos' == pos' / c.stride * c.stride + pos' % c.stride;
  }

  datatype Op<!V> =
    | Write(block: nat, parts: seq<seq<seq<V>>>)
    | WriteTimestep(block: nat, positions: seq<nat>, step: seq<seq<V>>)

  /** What the callers of the caches provide: whole tables of blocks, or one position per sequence. */
  predicate OpShaped<V>(c: Layout, ids: PageIds, width: nat, op: Op<V>) {
    match op
    case Write(block, parts) =>
      && block < c.blockCount && |parts| == c.partitionCount
      && (forall p | 0 <= p < |parts| :: |parts[p]| == |ids|)
      && (forall p, b | 0 <= p < |parts| && 0 <= b < |ids| :: |parts[p][b]| == width * c.stride)
    case WriteTimestep(block, positions, step) =>
      && block < c.blockCount && |step| == c.partitionCount && |positions| == |ids|
      && (forall p | 0 <= p < |step| :: |step[p]| == |ids|)
  }

  /** The same operation on both caches. */
  ghost predicate Both<V>(c: Layout, ids: PageIds, table: imap<Cell, V>, table': imap<Cell, V>, d: Dense<V>, d': Dense<V>, op: Op<V>)
  {
    match op
    case Write(block, parts) =>
      && Scattered(table, table', BlockWrites(c, ids, parts, block, |parts|))
      && DenseWritten(c, d, d', parts, block, |parts|)
    case WriteTimestep(block, positions, step) =>
      && Scattered(table, table', StepWrites(c, ids, positions, step, block, |step|))
      && DenseStepped(c, d, d', step, block, positions, |positions|, 0)
  }

  /** The operation stores something at the position of a sequence. */
  predicate Stores<V>(op: Op<V>, b: nat, pos: nat, t: nat) {
    match op
    case Write(block, _) => t == block
    case WriteTimestep(block, positions, _) => t == block && b < |positions| && pos == positions[b]
  }

  lemma WriteAgrees<V>(c: Layout, ids: PageIds, width: nat, table: imap<Cell, V>, table': imap<Cell, V>, d: Dense<V>, d': Dense<V>,
                       op: Op<V>, b: nat, pos: nat, t: nat, p: nat)
    requires op.Write? && c.stride > 0 && OpShaped(c, ids, width, op) && Both(c, ids, table, table', d, d', op)
    requires DistinctPages(ids) && (forall b | 0 <= b < |ids| :: |ids[b]| == width)
    requires OwnedPosition(c, ids, b, pos, t, p) && HasPlace(c, ids, table, d, b, pos, t, p)
    ensures HasPlace(c, ids, table', d', b, pos, t, p)
    ensures AgreeAt(c, ids, table', d', b, pos, t, p) <==> AgreeAt(c, ids, table, d, b, pos, t, p) || Stores(op, b, pos, t)
  {
    var writes := BlockWrites(c, ids, op.parts, op.block, |op.parts|);
    var cell := Target(c, ids, b, pos, t, p);
    BlockOfPosition(c, width, pos);
    forall w | w in writes && w.0 == cell
      ensures t == op.block && w.1 == op.parts[p][b][pos]
    {
      var p', b', q :| 0 <= p' < |op.parts| && 0 <= b' < |op.parts[p']| && 0 <= q < |op.parts[p'][b']|
        && w == (Target(c, ids, b', q, op.block, p'), op.parts[p'][b'][q]);
      OwnedTargets(c, ids, b, pos, t, p, b', q, op.block, p');
    }
    PartitionOf(c, op.block, t, p);
    if t == op.block {
      assert (cell, op.parts[p][b][pos]) in writes;
      ScatterRead(table, table', writes, cell, op.parts[p][b][pos]);
    } else {
      assert !Hits(writes, cell);
    }
  }

  /** A tensor belongs to a transformer block exactly if its index does. */
  lemma PartitionOf(c: Layout, block: nat, t: nat, p: nat)
    requires p < c.partitionCount
    ensures 0 <= Radix(t, p, c.partitionCount) - block * c.partitionCount < c.partitionCount <==> t == block
    ensures Radix(block, p, c.partitionCount) - block * c.partitionCount == p
  {
    if t < block {
      RadixMonotone(t, p, block, 0, c.partitionCount);
    } else if t > block {
      assert (block + 1) * c.partitionCount <= t * c.partitionCount;
    }
  }

  lemma StepAgrees<V>(c: Layout, ids: PageIds, width: nat, table: imap<Cell, V>, table': imap<Cell, V>, d: Dense<V>, d': Dense<V>,
                      op: Op<V>, b: nat, pos: nat, t: nat, p: nat)
    requires op.WriteTimestep? && c.stride > 0 && OpShaped(c, ids, width, op) && Both(c, ids, table, table', d, d', op)
    requires DistinctPages(ids)
    requires OwnedPosition(c, ids, b, pos, t, p) && HasPlace(c, ids, table, d, b, pos, t, p)
    ensures HasPlace(c, ids, table', d', b, pos, t, p)
    ensures AgreeAt(c, ids, table', d', b, pos, t, p) <==> AgreeAt(c, ids, table, d, b, pos, t, p) || Stores(op, b, pos, t)
  {
    var cell := Target(c, ids, b, pos, t, p);
    StepScatters(c, ids, table, table', op, b, pos, t, p);
    DenseStepAt(c, d, d', op, b, pos, t, p);
    hide Target, StepWrites, Scattered, DenseStepped;
  }

  /** What a timestep leaves at a position of the dense cache. */
  lemma DenseStepAt<V>(c: Layout, d: Dense<V>, d': Dense<V>, op: Op<V>, b: nat, pos: nat, t: nat, p: nat)
    requires op.WriteTimestep? && p < |op.step| == c.partitionCount && b < |op.step[p]| && |op.positions| == |op.step[p]|
    requires DenseStepped(c, d, d', op.step, op.block, op.positions, |op.positions|, 0)
    requires var k := Radix(t, p, c.partitionCount); k < |d| && b < |d[k]| && pos < |d[k][b]|
    ensures var k := Radix(t, p, c.partitionCount);
      && k < |d'| && b < |d'[k]| && pos < |d'[k][b]|
      && d'[k][b][pos] == if t == op.block && pos == op.positions[b] then op.step[p][b] else d[k][b][pos]
  {
    PartitionOf(c, op.block, t, p);
    assert d'[Radix(t, p, c.partitionCount)][b][pos]
        == SteppedValue(c, d, op.step, op.block, op.positions, |op.positions|, 0, Radix(t, p, c.partitionCount), b, pos);
  }

  /** What a timestep leaves in the cell of an owned position. */
  lemma StepScatters<V>(c: Layout, ids: PageIds, table: imap<Cell, V>, table': imap<Cell, V>, op: Op<V>, b: nat, pos: nat, t: nat, p: nat)
    requires op.WriteTimestep? && DistinctPages(ids) && PageOf(c, ids, b, pos) != 0 && p < |op.step| && b < |op.step[p]| && b < |op.positions|
    requires Scattered(table, table', StepWrites(c, ids, op.positions, op.step, op.block, |op.step|))
    requires Target(c, ids, b, pos, t, p) in table
    ensures var cell := Target(c, ids, b, pos, t, p);
      && cell in table'
      && table'[cell] == if t == op.block && pos == op.positions[b] then op.step[p][b] else table[cell]
  {
    var writes := StepWrites(c, ids, op.positions, op.step, op.block, |op.step|);
    var cell := Target(c, ids, b, pos, t, p);
    StepWritesTo(c, ids, op, b, pos, t, p);
    if t == op.block && pos == op.positions[b] {
      assert (cell, op.step[p][b]) in writes;
      ScatterRead(table, table', writes, cell, op.step[p][b]);
    } else {
      assert !Hits(writes, cell);
    }
  }

  /** Only the sequence that owns a position writes it. */
  lemma StepWritesTo<V>(c: Layout, ids: PageIds, op: Op<V>, b: nat, pos: nat, t: nat, p: nat)
    requires op.WriteTimestep? && DistinctPages(ids) && PageOf(c, ids, b, pos) != 0
    ensures forall w | w in StepWrites(c, ids, op.positions, op.step, op.block, |op.step|) && w.0 == Target(c, ids, b, pos, t, p) ::
      t == op.block && p < |op.step| && b < |op.step[p]| && b < |op.positions| && pos == op.positions[b] && w.1 == op.step[p][b]
  {
    forall w | w in StepWrites(c, ids, op.positions, op.step, op.block, |op.step|) && w.0 == Target(c, ids, b, pos, t, p)
      ensures t == op.block && p < |op.step| && b < |op.step[p]| && b < |op.positions| && pos == op.positions[b] && w.1 == op.step[p][b]
    {
      var p', b' :| 0 <= p' < |op.step| && 0 <= b' < |op.step[p']| && b' < |op.positions|
        && w == (Target(c, ids, b', op.positions[b'], op.block, p'), op.step[p'][b']);
      OwnedTargets(c, ids, b, pos, t, p, b', op.positions[b'], op.block, p');
    }
  }

  ghost predicate BothAt<V>(c: Layout, ids: PageIds, width: nat, tables: seq<imap<Cell, V>>, dense: seq<Dense<V>>, ops: seq<Op<V>>, n: nat) {
    && n < |ops| && n + 1 < |tables| && n + 1 < |dense|
    && OpShaped(c, ids, width, ops[n]) && Both(c, ids, tables[n], tables[n + 1], dense[n], dense[n + 1], ops[n])
  }

  /** A run of both caches through one page table, from any contents they have places in. */
  ghost predicate BothRun<V>(c: Layout, ids: PageIds, width: nat, tables: seq<imap<Cell, V>>, dense: seq<Dense<V>>, ops: seq<Op<V>>) {
    && c.stride > 0 && DistinctPages(ids) && (forall b | 0 <= b < |ids| :: |ids[b]| == width)
    && |tables| == |dense| == |ops| + 1 && HasPlaces(c, ids, tables[0], dense[0])
    && forall m | 0 <= m < |ops| :: BothAt(c, ids, width, tables, dense, ops, m)
  }

  /** One of the first `n` operations stores something at the position. */
  predicate StoredBefore<V>(ops: seq<Op<V>>, n: nat, b: nat, pos: nat, t: nat)
    requires n <= |ops|
  {
    exists m | 0 <= m < n :: Stores(ops[m], b, pos, t)
  }

  /** After any sequence of writes and timestep writes through one page table, the two caches agree at a position of
      an owned block exactly if it has been written or they happened to agree there at the start. */
  lemma {:induction false} PagedRefinesDirect<V>(c: Layout, ids: PageIds, width: nat, tables: seq<imap<Cell, V>>, dense: seq<Dense<V>>,
                                                 ops: seq<Op<V>>, n: nat, b: nat, pos: nat, t: nat, p: nat)
    requires BothRun(c, ids, width, tables, dense, ops) && n <= |ops| && OwnedPosition(c, ids, b, pos, t, p)
    ensures HasPlace(c, ids, tables[n], dense[n], b, pos, t, p)
    ensures AgreeAt(c, ids, tables[n], dense[n], b, pos, t, p)
       <==> AgreeAt(c, ids, tables[0], dense[0], b, pos, t, p) || StoredBefore(ops, n, b, pos, t)
  {
    if n > 0 {
      PagedRefinesDirect(c, ids, width, tables, dense, ops, n - 1, b, pos, t, p);
      assert BothAt(c, ids, width, tables, dense, ops, n - 1);
      match ops[n - 1]
      case Write(_, _) => WriteAgrees(c, ids, width, tables[n - 1], tables[n], dense[n - 1], dense[n], ops[n - 1], b, pos, t, p);
      case WriteTimestep(_, _, _) => StepAgrees(c, ids, width, tables[n - 1], tables[n], dense[n - 1], dense[n], ops[n - 1], b, pos, t, p);
    }
  }

  /** After any such sequence of operations both caches read the same value at every position of an owned block that
      has been written, whatever they contained at the start. */
  lemma PagedReadsLikeDirect<V>(c: Layout, ids: PageIds, width: nat, tables: seq<imap<Cell, V>>, dense: seq<Dense<V>>,
                                ops: seq<Op<V>>, n: nat, b: nat, pos: nat, t: nat, p: nat, len: nat)
    requires BothRun(c, ids, width, tables, dense, ops) && n <= |ops| && OwnedPosition(c, ids, b, pos, t, p)
    requires StoredBefore(ops, n, b, pos, t) && pos < len
    requires forall b, pos | 0 <= b < |ids| && 0 <= pos < len :: Target(c, ids, b, pos, t, p) in tables[n]
    ensures var k := Radix(t, p, c.partitionCount);
      && b < |ids| && k < |dense[n]| && b < |dense[n][k]| && pos < |Prefixes(dense[n][k], len)[b]|
      && Gather(c, tables[n], ids, t, p, len)[b][pos] == Prefixes(dense[n][k], len)[b][pos]
  {
    PagedRefinesDirect(c, ids, width, tables, dense, ops, n, b, pos, t, p);
  }

  /** An operation leaves every other transformer block, and every page its table does not name, as it was. */
  lemma OperationsStayInTheirBlocks<V>(c: Layout, ids: PageIds, table: imap<Cell, V>, table': imap<Cell, V>, d: Dense<V>, d': Dense<V>,
                                       op: Op<V>, cell: Cell)
    requires Both(c, ids, table, table', d, d', op) && cell in table
    requires cell.block != op.block || (cell.page != 0 && forall b | 0 <= b < |ids| :: cell.page !in ids[b])
    ensures table'[cell] == table[cell]
  {
    match op
    case Write(block, parts) => assert !Hits(BlockWrites(c, ids, parts, block, |parts|), cell);
    case WriteTimestep(block, positions, step) => assert !Hits(StepWrites(c, ids, positions, step, block, |step|), cell);
  }
}
