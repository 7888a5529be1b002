/** The paged KV cache split over attention heads: every device holds all pages, with its share of the heads. */
module ShardedPaging {
  import opened DirectCache
  import opened Paging
  import opened Scatter

  // ---- The shards ----

  /** The heads that shard `j` of several shards of `size` heads holds of one position. */
  function HeadSlice<E>(v: seq<E>, j: nat, size: nat): seq<E> {
    if (j + 1) * size <= |v| then v[j * size..(j + 1) * size] else []
  }

  /** Concatenates what the shards from `j` to `count` hold. */
  function JoinHeads<E>(slices: seq<seq<E>>): seq<E> {
    if |slices| == 0 then [] else slices[0] + JoinHeads(slices[1..])
  }

  ghost predicate SlicesFrom<E>(slices: seq<seq<E>>, v: seq<E>, from: nat, size: nat) {
    forall i | 0 <= i < |slices| :: slices[i] == HeadSlice(v, from + i, size)
  }

  /** Joining the slices of all shards restores the heads. */
  lemma {:induction false} SlicesJoin<E>(slices: seq<seq<E>>, v: seq<E>, from: nat, size: nat)
    requires SlicesFrom(slices, v, from, size) && |v| == (from + |slices|) * size
    ensures from * size <= |v| && JoinHeads(slices) == v[from * size..]
    decreases |slices|
  {
    assert (from + |slices|) * size == from * size + |slices| * size;
    if slices != [] {
      assert (from + 1) * size == from * size + size && |slices| * size == size + (|slices| - 1) * size;
      assert slices[0] == HeadSlice(v, from + 0, size);
      forall i | 0 <= i < |slices[1..]| ensures slices[1..][i] == HeadSlice(v, from + 1 + i, size) {
        assert slices[1..][i] == slices[i + 1];
      }
      SlicesJoin(slices[1..], v, from + 1, size);
      assert v[from * size..] == v[from * size..(from + 1) * size] + v[(from + 1) * size..];
    } else {
      assert v[from * size..] == [];
    }
  }

  // ---- Operations on shards ----

  /** One operation through the page table of one batch. */
  datatype Call<!V> = Call(ids: PageIds, op: Op<V>)

  function MapEach<V, W>(f: V -> W, s: seq<V>): (r: seq<W>)
    ensures |r| == |s| && forall i | 0 <= i < |s| :: r[i] == f(s[i])
  {
    seq(|s|, i requires 0 <= i < |s| => f(s[i]))
  }

  /** The operation a device sees: every value is cut to the device's heads. */
  function MapOp<V, W>(f: V -> W, op: Op<V>): Op<W> {
    match op
    case Write(block, parts) =>
      Op<W>.Write(block, seq(|parts|, p requires 0 <= p < |parts| =>
        seq(|parts[p]|, b requires 0 <= b < |parts[p]| => MapEach(f, parts[p][b]))))
    case WriteTimestep(block, positions, step) =>
      Op<W>.WriteTimestep(block, positions, seq(|step|, p requires 0 <= p < |step| => MapEach(f, step[p])))
  }

  ghost function Writes<V>(c: Layout, ids: PageIds, op: Op<V>): iset<(Cell, V)> {
    match op
    case Write(block, parts) => BlockWrites(c, ids, parts, block, |parts|)
    case WriteTimestep(block, positions, step) => StepWrites(c, ids, positions, step, block, |step|)
  }

  /** A device stores the device's heads of exactly what is stored, where it is stored. */
  lemma MappedWrites<V, W>(c: Layout, ids: PageIds, f: V -> W, op: Op<V>)
    ensures forall w | w in Writes(c, ids, op) :: (w.0, f(w.1)) in Writes(c, ids, MapOp(f, op))
    ensures forall u | u in Writes(c, ids, MapOp(f, op)) :: exists w | w in Writes(c, ids, op) :: u == (w.0, f(w.1))
  {
    match op
    case Write(block, parts) => MappedBlock(c, ids, f, op);
    case WriteTimestep(block, positions, step) => MappedStep(c, ids, f, op);
  }

  lemma MappedBlock<V, W>(c: Layout, ids: PageIds, f: V -> W, op: Op<V>)
    requires op.Write?
    ensures forall w | w in Writes(c, ids, op) :: (w.0, f(w.1)) in Writes(c, ids, MapOp(f, op))
    ensures forall u | u in Writes(c, ids, MapOp(f, op)) :: exists w | w in Writes(c, ids, op) :: u == (w.0, f(w.1))
  {
    var parts, parts' := op.parts, MapOp(f, op).parts;
    forall w | w in Writes(c, ids, op) ensures (w.0, f(w.1)) in Writes(c, ids, MapOp(f, op)) {
      var p, b, pos :| 0 <= p < |parts| && 0 <= b < |parts[p]| && 0 <= pos < |parts[p][b]|
        && w == (Target(c, ids, b, pos, op.block, p), parts[p][b][pos]);
      assert parts'[p][b][pos] == f(w.1);
    }
    forall u | u in Writes(c, ids, MapOp(f, op)) ensures exists w | w in Writes(c, ids, op) :: u == (w.0, f(w.1)) {
      var p, b, pos :| 0 <= p < |parts'| && 0 <= b < |parts'[p]| && 0 <= pos < |parts'[p][b]|
        && u == (Target(c, ids, b, pos, op.block, p), parts'[p][b][pos]);
      assert (Target(c, ids, b, pos, op.block, p), parts[p][b][pos]) in Writes(c, ids, op);
    }
  }

  lemma MappedStep<V, W>(c: Layout, ids: PageIds, f: V -> W, op: Op<V>)
    requires op.WriteTimestep?
    ensures forall w | w in Writes(c, ids, op) :: (w.0, f(w.1)) in Writes(c, ids, MapOp(f, op))
    ensures forall u | u in Writes(c, ids, MapOp(f, op)) :: exists w | w in Writes(c, ids, op) :: u == (w.0, f(w.1))
  {
    var step, step' := op.step, MapOp(f, op).step;
    forall w | w in Writes(c, ids, op) ensures (w.0, f(w.1)) in Writes(c, ids, MapOp(f, op)) {
      var p, b :| 0 <= p < |step| && 0 <= b < |step[p]| && b < |op.positions|
        && w == (Target(c, ids, b, op.positions[b], op.block, p), step[p][b]);
      assert step'[p][b] == f(w.1);
    }
    forall u | u in Writes(c, ids, MapOp(f, op)) ensures exists w | w in Writes(c, ids, op) :: u == (w.0, f(w.1)) {
      var p, b :| 0 <= p < |step'| && 0 <= b < |step'[p]| && b < |op.positions|
        && u == (Target(c, ids, b, op.positions[b], op.block, p), step'[p][b]);
      assert (Target(c, ids, b, op.positions[b], op.block, p), step[p][b]) in Writes(c, ids, op);
    }
  }

  /** Only the padding page can be written more than once. */
  lemma OwnedWrittenOnce<V>(c: Layout, ids: PageIds, op: Op<V>, cell: Cell)
    requires DistinctPages(ids) && cell.page != 0
    ensures Functional(Writes(c, ids, op), cell)
  {
    forall w, w' | w in Writes(c, ids, op) && w' in Writes(c, ids, op) && w.0 == cell && w'.0 == cell ensures w == w' {
      match op
      case Write(block, parts) =>
        var p, b, pos :| 0 <= p < |parts| && 0 <= b < |parts[p]| && 0 <= pos < |parts[p][b]|
          && w == (Target(c, ids, b, pos, block, p), parts[p][b][pos]);
        var p', b', pos' :| 0 <= p' < |parts| && 0 <= b' < |parts[p']| && 0 <= pos' < |parts[p'][b']|
          && w' == (Target(c, ids, b', pos', block, p'), parts[p'][b'][pos']);
        OwnedTargets(c, ids, b, pos, block, p, b', pos', block, p');
      case WriteTimestep(block, positions, step) =>
        var p, b :| 0 <= p < |step| && 0 <= b < |step[p]| && b < |positions|
          && w == (Target(c, ids, b, positions[b], block, p), step[p][b]);
        var p', b' :| 0 <= p' < |step| && 0 <= b' < |step[p']| && b' < |positions|
          && w' == (Target(c, ids, b', positions[b'], block, p'), step[p'][b']);
        OwnedTargets(c, ids, b, positions[b], block, p, b', positions[b'], block, p');
    }
  }

  // ---- Runs ----

  /** Outside the padding page a shard holds its heads of the table. */
  ghost predicate ShardOf<V, W>(f: V -> W, table: imap<Cell, V>, shard: imap<Cell, W>) {
    && shard.Keys == table.Keys
    && forall cell | cell in table && cell.page != 0 :: shard[cell] == f(table[cell])
  }

  ghost predicate CallAt<V, W>(c: Layout, f: V -> W, tables: seq<imap<Cell, V>>, shards: seq<imap<Cell, W>>,
                               calls: seq<Call<V>>, m: nat)
  {
    && m < |calls| && m + 1 < |tables| && m + 1 < |shards| && DistinctPages(calls[m].ids)
    && Scattered(tables[m], tables[m + 1], Writes(c, calls[m].ids, calls[m].op))
    && Scattered(shards[m], shards[m + 1], Writes(c, calls[m].ids, MapOp(f, calls[m].op)))
  }

  lemma CallKeepsShard<V, W>(c: Layout, f: V -> W, table: imap<Cell, V>, table': imap<Cell, V>, shard: imap<Cell, W>,
                             shard': imap<Cell, W>, ids: PageIds, op: Op<V>, cell: Cell)
    requires DistinctPages(ids) && cell in table && cell.page != 0 && cell in shard && shard[cell] == f(table[cell])
    requires Scattered(table, table', Writes(c, ids, op)) && Scattered(shard, shard', Writes(c, ids, MapOp(f, op)))
    ensures shard'[cell] == f(table'[cell])
  {
    MappedWrites(c, ids, f, op);
    OwnedWrittenOnce(c, ids, MapOp(f, op), cell);
    var writes, mapped := Writes(c, ids, op), Writes(c, ids, MapOp(f, op));
    if Hits(writes, cell) {
      assert (cell, f(table'[cell])) in mapped;
      ScatterRead(shard, shard', mapped, cell, f(table'[cell]));
    } else {
      assert !Hits(mapped, cell);
    }
  }

  /** Any run of writes and timestep writes, of any number of batches, keeps every device a shard of the whole. */
  lemma {:induction false} ShardsFollow<V, W>(c: Layout, f: V -> W, tables: seq<imap<Cell, V>>, shards: seq<imap<Cell, W>>,
                                              calls: seq<Call<V>>, n: nat)
    requires |tables| == |shards| == |calls| + 1 && n <= |calls| && ShardOf(f, tables[0], shards[0])
    requires forall m | 0 <= m < |calls| :: CallAt(c, f, tables, shards, calls, m)
    ensures ShardOf(f, tables[n], shards[n])
  {
    if n > 0 {
      ShardsFollow(c, f, tables, shards, calls, n - 1);
      assert CallAt(c, f, tables, shards, calls, n - 1);
      forall cell | cell in tables[n] && cell.page != 0 ensures shards[n][cell] == f(tables[n][cell]) {
        CallKeepsShard(c, f, tables[n - 1], tables[n], shards[n - 1], shards[n], calls[n - 1].ids, calls[n - 1].op, cell);
      }
    }
  }

  function Heads<E>(j: nat, size: nat): seq<E> -> seq<E> {
    v => HeadSlice(v, j, size)
  }

  /** The states of the device with shard `j` during a run. */
  ghost predicate DeviceRun<E>(c: Layout, tables: seq<imap<Cell, seq<E>>>, device: seq<imap<Cell, seq<E>>>,
                               calls: seq<Call<seq<E>>>, j: nat, size: nat)
  {
    && |tables| == |device| == |calls| + 1 && ShardOf(Heads(j, size), tables[0], device[0])
    && forall m | 0 <= m < |calls| :: CallAt(c, Heads(j, size), tables, device, calls, m)
  }

  lemma DeviceHolds<E>(c: Layout, tables: seq<imap<Cell, seq<E>>>, device: seq<imap<Cell, seq<E>>>,
                       calls: seq<Call<seq<E>>>, j: nat, size: nat, n: nat, cell: Cell)
    requires DeviceRun(c, tables, device, calls, j, size) && n <= |calls| && cell in tables[n] && cell.page != 0
    ensures cell in device[n] && device[n][cell] == HeadSlice(tables[n][cell], j, size)
  {
    ShardsFollow(c, Heads(j, size), tables, device, calls, n);
  }

  /** Every position holds the given number of heads. */
  ghost predicate Headed<E>(table: imap<Cell, seq<E>>, heads: nat) {
    forall cell | cell in table :: |table[cell]| == heads
  }

  ghost predicate CallHeaded<E>(c: Layout, call: Call<seq<E>>, heads: nat) {
    forall w | w in Writes(c, call.ids, call.op) :: |w.1| == heads
  }

  lemma {:induction false} TablesHeaded<E>(c: Layout, tables: seq<imap<Cell, seq<E>>>, device: seq<imap<Cell, seq<E>>>,
                                           calls: seq<Call<seq<E>>>, j: nat, size: nat, heads: nat, n: nat)
    requires DeviceRun(c, tables, device, calls, j, size) && n <= |calls| && Headed(tables[0], heads)
    requires forall m | 0 <= m < |calls| :: CallHeaded(c, calls[m], heads)
    ensures Headed(tables[n], heads)
  {
    if n > 0 {
      TablesHeaded(c, tables, device, calls, j, size, heads, n - 1);
      assert CallAt(c, Heads(j, size), tables, device, calls, n - 1);
    }
  }

  /** The cells behind the positions of a batch exist. */
  ghost predicate Gathers<V>(c: Layout, table: imap<Cell, V>, ids: PageIds, block: nat, partition: nat, n: nat) {
    forall b, pos | 0 <= b < |ids| && 0 <= pos < n :: Target(c, ids, b, pos, block, partition) in table
  }

  /** What one device reads of one position. */
  ghost function DeviceRead<E>(c: Layout, device: imap<Cell, seq<E>>, ids: PageIds, block: nat, partition: nat, len: nat,
                               b: nat, pos: nat): seq<E>
    requires Gathers(c, device, ids, block, partition, len) && b < |ids| && pos < len
  {
    Gather(c, device, ids, block, partition, len)[b][pos]
  }

  /** What the devices read of one position after `n` operations, put together along the heads. */
  ghost function ReadJoined<E>(c: Layout, devices: seq<seq<imap<Cell, seq<E>>>>, n: nat, ids: PageIds, block: nat, partition: nat,
                               len: nat, b: nat, pos: nat): seq<E>
    requires forall j | 0 <= j < |devices| :: n < |devices[j]| && Gathers(c, devices[j][n], ids, block, partition, len)
    requires b < |ids| && pos < len
  {
    JoinHeads(seq(|devices|, j requires 0 <= j < |devices| => DeviceRead(c, devices[j][n], ids, block, partition, len, b, pos)))
  }

  /** Sharded paging is invisible: after any run, what the devices read of a position of an owned block, joined along
      the heads, is what the unsharded cache reads. */
  lemma ShardingIsInvisible<E>(c: Layout, tables: seq<imap<Cell, seq<E>>>, devices: seq<seq<imap<Cell, seq<E>>>>,
                               calls: seq<Call<seq<E>>>, size: nat, n: nat, ids: PageIds, block: nat, partition: nat, len: nat,
                               b: nat, pos: nat)
    requires devices != [] && forall j | 0 <= j < |devices| :: DeviceRun(c, tables, devices[j], calls, j, size)
    requires |tables| == |calls| + 1 && n <= |calls| && Headed(tables[0], |devices| * size)
    requires forall m | 0 <= m < |calls| :: CallHeaded(c, calls[m], |devices| * size)
    requires Gathers(c, tables[n], ids, block, partition, len) && b < |ids| && pos < len && PageOf(c, ids, b, pos) != 0
    ensures forall j | 0 <= j < |devices| :: n < |devices[j]| && Gathers(c, devices[j][n], ids, block, partition, len)
    ensures ReadJoined(c, devices, n, ids, block, partition, len, b, pos)
         == Gather(c, tables[n], ids, block, partition, len)[b][pos]
  {
    var cell := Target(c, ids, b, pos, block, partition);
    var v := tables[n][cell];
    TablesHeaded(c, tables, devices[0], calls, 0, size, |devices| * size, n);
    forall j | 0 <= j < |devices|
      ensures n < |devices[j]| && Gathers(c, devices[j][n], ids, block, partition, len)
      ensures DeviceRead(c, devices[j][n], ids, block, partition, len, b, pos) == HeadSlice(v, j, size)
    {
      assert DeviceRun(c, tables, devices[j], calls, j, size);
      DeviceReads(c, tables, devices[j], calls, j, size, n, ids, block, partition, len, b, pos);
    }
    var slices := seq(|devices|, j requires 0 <= j < |devices| => DeviceRead(c, devices[j][n], ids, block, partition, len, b, pos));
    forall i | 0 <= i < |slices| ensures slices[i] == HeadSlice(v, 0 + i, size) {
    }
    SlicesJoin(slices, v, 0, size);
  }

  lemma DeviceReads<E>(c: Layout, tables: seq<imap<Cell, seq<E>>>, device: seq<imap<Cell, seq<E>>>, calls: seq<Call<seq<E>>>,
                       j: nat, size: nat, n: nat, ids: PageIds, block: nat, partition: nat, len: nat, b: nat, pos: nat)
    requires DeviceRun(c, tables, device, calls, j, size) && n <= |calls|
    requires Gathers(c, tables[n], ids, block, partition, len) && b < |ids| && pos < len && PageOf(c, ids, b, pos) != 0
    ensures Gathers(c, device[n], ids, block, partition, len)
    ensures DeviceRead(c, device[n], ids, block, partition, len, b, pos)
         == HeadSlice(tables[n][Target(c, ids, b, pos, block, partition)], j, size)
  {
    ShardsFollow(c, Heads(j, size), tables, device, calls, n);
    DeviceHolds(c, tables, device, calls, j, size, n, Target(c, ids, b, pos, block, partition));
  }

  // ---- The operations on the shards in place ----

  /** The next partition extends what every device has stored. */
  lemma NextPartition<V>(c: Layout, ids: PageIds, pre: seq<imap<Cell, V>>, mid: seq<imap<Cell, V>>, post: seq<imap<Cell, V>>,
                         partitions: seq<seq<seq<seq<V>>>>, block: nat, index: nat)
    requires |pre| == |mid| == |post| && index < |partitions| && forall p | 0 <= p < |partitions| :: |partitions[p]| == |pre|
    requires forall j | 0 <= j < |pre| :: Scattered(pre[j], mid[j], BlockWrites(c, ids, OfShard(partitions, j), block, index))
    requires forall j | 0 <= j < |pre| ::
      Scattered(mid[j], post[j], PartWrites(c, ids, partitions[index][j], block, index, |partitions[index][j]|))
    ensures forall j | 0 <= j < |pre| :: Scattered(pre[j], post[j], BlockWrites(c, ids, OfShard(partitions, j), block, index + 1))
  {
    forall j | 0 <= j < |pre| ensures Scattered(pre[j], post[j], BlockWrites(c, ids, OfShard(partitions, j), block, index + 1)) {
      var parts := OfShard(partitions, j);
      ScatterCompose(pre[j], mid[j], post[j], BlockWrites(c, ids, parts, block, index),
                     PartWrites(c, ids, parts[index], block, index, |parts[index]|));
      BlockWritesNext(c, ids, parts, block, index);
    }
  }

  lemma NextStepPartition<V>(c: Layout, ids: PageIds, pre: seq<imap<Cell, V>>, mid: seq<imap<Cell, V>>, post: seq<imap<Cell, V>>,
                             positions: seq<nat>, partitions: seq<seq<seq<V>>>, block: nat, index: nat)
    requires |pre| == |mid| == |post| && index < |partitions| && forall p | 0 <= p < |partitions| :: |partitions[p]| == |pre|
    requires forall j | 0 <= j < |pre| :: |partitions[index][j]| == |positions|
    requires forall j | 0 <= j < |pre| :: Scattered(pre[j], mid[j], StepWrites(c, ids, positions, OfShard(partitions, j), block, index))
    requires forall j | 0 <= j < |pre| ::
      Scattered(mid[j], post[j], StepRowWrites(c, ids, positions, partitions[index][j], block, index, |positions|))
    ensures forall j | 0 <= j < |pre| :: Scattered(pre[j], post[j], StepWrites(c, ids, positions, OfShard(partitions, j), block, index + 1))
  {
    forall j | 0 <= j < |pre| ensures Scattered(pre[j], post[j], StepWrites(c, ids, positions, OfShard(partitions, j), block, index + 1)) {
      var parts := OfShard(partitions, j);
      ScatterCompose(pre[j], mid[j], post[j], StepWrites(c, ids, positions, parts, block, index),
                     StepRowWrites(c, ids, positions, parts[index], block, index, |positions|));
      StepWritesNext(c, ids, positions, parts, block, index);
    }
  }

  /** One cache per device; a state is one slab per device. */
  class ShardedPagedKVCache<V(0)> {
    const device: PagedKVCache<V>
    const shardCount: nat

    constructor (blockCount: nat, partitionCount: nat, stride: nat, shardCount: nat)
      requires stride > 0
      ensures device.layout == Layout(blockCount, partitionCount, stride) && this.shardCount == shardCount
    {
      device := new PagedKVCache(blockCount, partitionCount, stride);
      this.shardCount := shardCount;
    }

    /** One slab of the given number of pages for each device. */
    predicate States(states: seq<array<V>>, pages: nat) {
      && |states| == shardCount && device.layout.stride > 0
      && (forall j | 0 <= j < |states| :: states[j].Length == SlabSize(device.layout, pages))
      && (forall i, j | 0 <= i < j < |states| :: states[i] != states[j])
    }

    /** The page table of every device. */
    ghost function Tables(states: seq<array<V>>, pages: nat): (tables: seq<imap<Cell, V>>)
      requires States(states, pages)
      reads states
      ensures |tables| == shardCount
    {
      seq(shardCount, j requires 0 <= j < shardCount reads states => Unflatten(device.layout, pages, states[j][..]))
    }

    /** `index_copy_` on every shard. */
    method IndexCopy(states: seq<array<V>>, ghost pages: nat, parts: seq<seq<seq<V>>>, block: nat, index: nat,
                     pageIds: PageIds, width: nat)
      requires States(states, pages) && |parts| == shardCount
      requires block < device.layout.blockCount && index < device.layout.partitionCount && Rectangular(pageIds, width, pages)
      requires forall j | 0 <= j < shardCount ::
                 |parts[j]| == |pageIds| && forall b | 0 <= b < |pageIds| :: |parts[j][b]| == width * device.layout.stride
      modifies states
      ensures forall j | 0 <= j < shardCount ::
                Scattered(old(Tables(states, pages))[j], Tables(states, pages)[j],
                          PartWrites(device.layout, pageIds, parts[j], block, index, |parts[j]|))
    {
      hide Unflatten, Scattered, PartWrites;
      ghost var before := Tables(states, pages);
      for i := 0 to shardCount
        invariant forall j | i <= j < shardCount :: Tables(states, pages)[j] == before[j]
        invariant forall j | 0 <= j < i ::
                    Scattered(before[j], Tables(states, pages)[j],
                              PartWrites(device.layout, pageIds, parts[j], block, index, |parts[j]|))
      {
        device.IndexCopy(states[i], pages, parts[i], block, index, pageIds, width);
      }
    }

    /** Writes whole blocks: every device stores its heads. `partitions` are the K and V tensors, each as its shards. */
    method Write(states: seq<array<V>>, ghost pages: nat, partitions: seq<seq<seq<seq<V>>>>, block: nat, pageIds: PageIds, width: nat)
      requires States(states, pages) && block < device.layout.blockCount && |partitions| <= device.layout.partitionCount
      requires Rectangular(pageIds, width, pages) && forall p | 0 <= p < |partitions| :: |partitions[p]| == shardCount
      requires forall p, j | 0 <= p < |partitions| && 0 <= j < shardCount ::
                 |partitions[p][j]| == |pageIds| && forall b | 0 <= b < |pageIds| :: |partitions[p][j][b]| == width * device.layout.stride
      modifies states
      ensures forall j | 0 <= j < shardCount ::
                Scattered(old(Tables(states, pages))[j], Tables(states, pages)[j],
                          BlockWrites(device.layout, pageIds, OfShard(partitions, j), block, |partitions|))
    {
      ghost var before := Tables(states, pages);
      for index := 0 to |partitions|
        invariant forall j | 0 <= j < shardCount ::
                    Scattered(before[j], Tables(states, pages)[j],
                              BlockWrites(device.layout, pageIds, OfShard(partitions, j), block, index))
      {
        ghost var mid := Tables(states, pages);
        IndexCopy(states, pages, partitions[index], block, index, pageIds, width);
        NextPartition(device.layout, pageIds, before, mid, Tables(states, pages), partitions, block, index);
      }
    }

    /** `index_put_` on every shard. */
    method IndexPut(states: seq<array<V>>, ghost pages: nat, parts: seq<seq<V>>, block: nat, index: nat,
                    seqPositions: seq<nat>, pageIds: PageIds, ghost width: nat)
      requires States(states, pages) && |parts| == shardCount
      requires block < device.layout.blockCount && index < device.layout.partitionCount
      requires Rectangular(pageIds, width, pages) && Ragged(device.layout, pageIds, seqPositions)
      requires forall j | 0 <= j < shardCount :: |parts[j]| == |pageIds|
      modifies states
      ensures forall j | 0 <= j < shardCount ::
                Scattered(old(Tables(states, pages))[j], Tables(states, pages)[j],
                          StepRowWrites(device.layout, pageIds, seqPositions, parts[j], block, index, |seqPositions|))
    {
      hide Unflatten, Scattered, StepRowWrites;
      ghost var before := Tables(states, pages);
      for i := 0 to shardCount
        invariant forall j | i <= j < shardCount :: Tables(states, pages)[j] == before[j]
        invariant forall j | 0 <= j < i ::
                    Scattered(before[j], Tables(states, pages)[j],
                              StepRowWrites(device.layout, pageIds, seqPositions, parts[j], block, index, |seqPositions|))
      {
        device.IndexPut(states[i], pages, parts[i], block, index, seqPositions, pageIds, width);
      }
    }

    /** Writes one position per sequence: every device stores its heads. */
    method WriteTimestep(states: seq<array<V>>, ghost pages: nat, partitions: seq<seq<seq<V>>>, block: nat,
                         seqPositions: seq<nat>, pageIds: PageIds, ghost width: nat)
      requires States(states, pages) && block < device.layout.blockCount && |partitions| == device.layout.partitionCount
      requires Rectangular(pageIds, width, pages) && Ragged(device.layout, pageIds, seqPositions)
      requires forall p | 0 <= p < |partitions| :: |partitions[p]| == shardCount
      requires forall p, j | 0 <= p < |partitions| && 0 <= j < shardCount :: |partitions[p][j]| == |pageIds|
      modifies states
      ensures forall j | 0 <= j < shardCount ::
                Scattered(old(Tables(states, pages))[j], Tables(states, pages)[j],
                          StepWrites(device.layout, pageIds, seqPositions, OfShard(partitions, j), block, |partitions|))
    {
      ghost var before := Tables(states, pages);
      for index := 0 to |partitions|
        invariant forall j | 0 <= j < shardCount ::
                    Scattered(before[j], Tables(states, pages)[j],
                              StepWrites(device.layout, pageIds, seqPositions, OfShard(partitions, j), block, index))
      {
        ghost var mid := Tables(states, pages);
        IndexPut(states, pages, partitions[index], block, index, seqPositions, pageIds, width);
        NextStepPartition(device.layout, pageIds, before, mid, Tables(states, pages), seqPositions, partitions, block, index);
      }
    }

    /** `index_select` on every shard. */
    method IndexSelect(states: seq<array<V>>, ghost pages: nat, block: nat, index: nat, pageIds: PageIds, width: nat)
      returns (shards: seq<seq<seq<V>>>)
      requires States(states, pages) && block < device.layout.blockCount && index < device.layout.partitionCount
      requires Rectangular(pageIds, width, pages)
      ensures |shards| == shardCount
      ensures forall j | 0 <= j < shardCount ::
                && |shards[j]| == |pageIds| && (forall b | 0 <= b < |pageIds| :: |shards[j][b]| == width * device.layout.stride)
                && Selected(device.layout, Tables(states, pages)[j], pageIds, block, index, shards[j])
    {
      shards := [];
      for i := 0 to shardCount
        invariant |shards| == i
        invariant forall j | 0 <= j < i ::
                    && |shards[j]| == |pageIds| && (forall b | 0 <= b < |pageIds| :: |shards[j][b]| == width * device.layout.stride)
                    && Selected(device.layout, Tables(states, pages)[j], pageIds, block, index, shards[j])
      {
        var rows := device.IndexSelect(states[i], pages, block, index, pageIds, width);
        shards := shards + [rows];
      }
    }

    /** Reads the leading positions: the K and V tensors, each as its shards. */
    method Read(states: seq<array<V>>, ghost pages: nat, partitionCount: nat, block: nat, seqLen: nat, pageIds: PageIds, width: nat)
      returns (kv: seq<seq<seq<seq<V>>>>)
      requires States(states, pages) && block < device.layout.blockCount && partitionCount <= device.layout.partitionCount
      requires Rectangular(pageIds, width, pages) && seqLen <= width * device.layout.stride
      ensures |kv| == partitionCount
      ensures forall p | 0 <= p < partitionCount ::
                ShardsRead(device.layout, Tables(states, pages), pageIds, block, p, seqLen, kv[p])
    {
      ghost var tables := Tables(states, pages);
      kv := [];
      for index := 0 to partitionCount
        invariant |kv| == index
        invariant forall p | 0 <= p < index :: ShardsRead(device.layout, tables, pageIds, block, p, seqLen, kv[p])
      {
        var shards := IndexSelect(states, pages, block, index, pageIds, width);
        CutShardsRead(device.layout, tables, pageIds, block, index, shards, seqLen);
        kv := kv + [CutShards(shards, seqLen)];
      }
    }
  }

  /** The shards of a partition hold what each device gathers for it. */
  ghost predicate ShardsRead<V>(c: Layout, tables: seq<imap<Cell, V>>, ids: PageIds, block: nat, partition: nat, n: nat,
                                shards: seq<seq<seq<V>>>)
  {
    && |shards| == |tables|
    && forall j | 0 <= j < |tables| ::
         Gathers(c, tables[j], ids, block, partition, n) && shards[j] == Gather(c, tables[j], ids, block, partition, n)
  }

  function CutShards<V>(shards: seq<seq<seq<V>>>, n: nat): seq<seq<seq<V>>>
    requires forall j, b | 0 <= j < |shards| && 0 <= b < |shards[j]| :: n <= |shards[j][b]|
  {
    seq(|shards|, j requires 0 <= j < |shards| => Cut(shards[j], n))
  }

  lemma CutShardsRead<V>(c: Layout, tables: seq<imap<Cell, V>>, ids: PageIds, block: nat, partition: nat, shards: seq<seq<seq<V>>>,
                         n: nat)
    requires |shards| == |tables| && forall j, b | 0 <= j < |shards| && 0 <= b < |shards[j]| :: n <= |shards[j][b]|
    requires forall j | 0 <= j < |shards| :: |shards[j]| == |ids| && Selected(c, tables[j], ids, block, partition, shards[j])
    ensures ShardsRead(c, tables, ids, block, partition, n, CutShards(shards, n))
  {
    forall j | 0 <= j < |tables|
      ensures Gathers(c, tables[j], ids, block, partition, n)
      ensures Cut(shards[j], n) == Gather(c, tables[j], ids, block, partition, n)
    {
      GatherPrefix(c, tables[j], ids, block, partition, shards[j], n);
    }
  }

  /** The shard of every partition that one device holds. */
  function OfShard<T>(partitions: seq<seq<T>>, j: nat): (parts: seq<T>)
    requires forall p | 0 <= p < |partitions| :: j < |partitions[p]|
    ensures |parts| == |partitions| && forall p | 0 <= p < |parts| :: parts[p] == partitions[p][j]
  {
    seq(|partitions|, p requires 0 <= p < |partitions| => partitions[p][j])
  }
}
