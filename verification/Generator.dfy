/** The generator, its batches and the cache transactions of its attention blocks, as objects that
    update their fields and the shared page slab in place. */
module Generator {
  import opened PageOwnership
  import opened Paging
  import opened Scatter
  import opened Serving
  import opened ServingRuns
  import opened Wrappers

  /** Runs directly on the model; owns the page slab and the free list. */
  class TorchGenerator<V(0)> {
    const cache: PagedKVCache<V>
    const pageCacheSize: nat
    const cacheState: array<V>
    var freePages: seq<nat>

    ghost predicate Valid() {
      cache.layout.stride > 0 && cacheState.Length == SlabSize(cache.layout, pageCacheSize)
    }

    ghost function Table(): imap<Cell, V>
      requires Valid()
      reads cacheState
    {
      Unflatten(cache.layout, pageCacheSize, cacheState[..])
    }

    constructor (cache: PagedKVCache<V>, pageCacheSize: nat)
      requires cache.layout.stride > 0
      ensures this.cache == cache && this.pageCacheSize == pageCacheSize && Valid() && fresh(cacheState)
      ensures Init(cache.layout, pageCacheSize, State(freePages, Table(), []))
    {
      this.cache := cache;
      this.pageCacheSize := pageCacheSize;
      var state := cache.Allocate(pageCacheSize);
      cacheState := state;
      freePages := seq(if pageCacheSize > 0 then pageCacheSize - 1 else 0, i requires i >= 0 => i + 1);
    }

    /** `free_pages.pop()`; popping an empty list is an error. */
    method AllocPage() returns (page: Option<nat>)
      modifies this`freePages
      ensures if old(freePages) == [] then page == None && freePages == []
              else page == Some(old(freePages)[|old(freePages)| - 1]) && freePages == old(freePages)[..|old(freePages)| - 1]
    {
      if freePages == [] {
        return None;
      }
      page := Some(freePages[|freePages| - 1]);
      freePages := freePages[..|freePages| - 1];
    }

    method ReleasePage(index: nat)
      modifies this`freePages
      ensures freePages == old(freePages) + [index]
    {
      freePages := freePages + [index];
    }
  }

  /** The sequences of one batch of prompts and the pages they own. */
  class Batch<V(0)> {
    const parent: TorchGenerator<V>
    var seqLens: seq<nat>
    var seqBlockIds: seq<seq<nat>>
    ghost var phase: Phase

    ghost function View(): BatchState
      reads this
    {
      BatchState(seqLens, seqBlockIds, phase)
    }

    /** Takes the pages every prompt needs.  If they run out the batch is not usable. */
    constructor (parent: TorchGenerator<V>, seqLens: seq<nat>)
      requires parent.Valid()
      modifies parent`freePages
      ensures this.parent == parent && (phase == Created || phase == Broken)
      ensures forall others: seq<BatchState> ::
                BeginStep(parent.cache.layout, State(old(parent.freePages), parent.Table(), others),
                          State(parent.freePages, parent.Table(), if phase == Created then others + [View()] else others), seqLens)
    {
      this.parent := parent;
      this.seqLens := seqLens;
      var seqStride := parent.cache.layout.stride;
      ghost var free := parent.freePages;
      ghost var empty: seq<seq<nat>> := Repeat([], |seqLens|);
      ghost var needs := PromptNeeds(seqStride, seqLens);
      var rows: seq<seq<nat>> := [];
      var ok := true;
      var b := 0;
      while b < |seqLens| && ok
        invariant b <= |seqLens| && |rows| == b
        invariant GrowRows(free, empty, needs, b).ok == ok
        invariant GrowRows(free, empty, needs, b).free == parent.freePages
        invariant GrowRows(free, empty, needs, b).rows[..b] == rows
      {
        var blocksNeeded := PromptBlocks(seqStride, seqLens[b]);
        var row: seq<nat> := [];
        ghost var start := parent.freePages;
        while |row| < blocksNeeded && ok
          invariant Grow(start, [], blocksNeeded) == Grow(parent.freePages, row, blocksNeeded)
          invariant !ok ==> parent.freePages == [] && |row| < blocksNeeded
          decreases blocksNeeded - |row|, ok
        {
          var page := parent.AllocPage();
          match page
          case None => ok := false;
          case Some(p) => row := row + [p];
        }
        rows := rows + [row];
        b := b + 1;
      }
      if !ok {
        GrowRowsStops(free, empty, needs, b, |seqLens|);
      }
      seqBlockIds := rows;
      phase := if ok then Created else Broken;
      new;
      assert ok ==> GrowRows(free, empty, needs, |seqLens|).rows == rows;
    }

    /** Grows every row to the blocks its sequence needs now; stops at the first page that is missing. */
    method AllocateSeqBlockIds() returns (ok: bool)
      requires parent.Valid() && |seqLens| == |seqBlockIds|
      modifies this`seqBlockIds, parent`freePages
      ensures var g := GrowRows(old(parent.freePages), old(seqBlockIds), DecodeNeeds(parent.cache.layout.stride, seqLens), |seqLens|);
        ok == g.ok && seqBlockIds == g.rows && parent.freePages == g.free
    {
      var stride := parent.cache.layout.stride;
      ghost var free, rows, needs := parent.freePages, seqBlockIds, DecodeNeeds(stride, seqLens);
      ok := true;
      var i := 0;
      while i < |seqLens| && ok
        invariant i <= |seqLens|
        invariant GrowRows(free, rows, needs, i) == GrownRows(parent.freePages, seqBlockIds, ok)
      {
        var neededBlocks := DecodeBlocks(stride, seqLens[i]);
        ghost var before, start := seqBlockIds, parent.freePages;
        while |seqBlockIds[i]| < neededBlocks && ok
          invariant |seqBlockIds| == |before| && seqBlockIds == before[i := seqBlockIds[i]]
          invariant Grow(start, before[i], neededBlocks) == Grow(parent.freePages, seqBlockIds[i], neededBlocks)
          invariant !ok ==> parent.freePages == [] && |seqBlockIds[i]| < neededBlocks
          decreases neededBlocks - |seqBlockIds[i]|, ok
        {
          var page := parent.AllocPage();
          match page
          case None => ok := false;
          case Some(p) => seqBlockIds := seqBlockIds[i := seqBlockIds[i] + [p]];
        }
        i := i + 1;
      }
      if !ok {
        GrowRowsStops(free, rows, needs, i, |seqLens|);
      }
    }

    /** Runs the prompts of the batch through every attention block. */
    method Prefill(kv: PromptKV<V>, ghost before: seq<BatchState>, ghost after: seq<BatchState>)
      requires parent.Valid() && phase == Created && seqBlockIds != []
      requires PagesInRange(seqBlockIds, parent.pageCacheSize) && parent.pageCacheSize > 0
      requires PromptShaped(parent.cache.layout, kv, |seqBlockIds|, MaxLen(seqBlockIds))
      modifies this`phase, parent.cacheState
      ensures PrefillStep(parent.cache.layout,
                          State(parent.freePages, old(parent.Table()), before + [old(View())] + after),
                          State(parent.freePages, parent.Table(), before + [View()] + after), |before|, kv)
    {
      var ids, width := PadBlockIds(seqBlockIds), MaxLen(seqBlockIds);
      PaddedIsRectangular(seqBlockIds, parent.pageCacheSize);
      RunPrefillBlocks(parent.cache, parent.cacheState, parent.pageCacheSize, kv, ids, width);
      phase := Prefilled;
    }

    /** Runs one more token of every sequence of the batch through every attention block and returns what
        each block read back from the cache.  If a page is missing nothing is run. */
    method Decode(kv: TokenKV<V>, ghost before: seq<BatchState>, ghost after: seq<BatchState>)
      returns (out: Option<PromptKV<V>>)
      requires parent.Valid() && phase == Prefilled && seqBlockIds != [] && |seqLens| == |seqBlockIds|
      requires PagesInRange(seqBlockIds, parent.pageCacheSize) && parent.pageCacheSize > 0
      requires forall j | 0 <= j < |parent.freePages| :: parent.freePages[j] < parent.pageCacheSize
      requires TokenShaped(parent.cache.layout, kv, |seqBlockIds|)
      modifies this, parent`freePages, parent.cacheState
      ensures out.Some? <==> phase == Prefilled
      ensures DecodeStep(parent.cache.layout,
                         State(old(parent.freePages), old(parent.Table()), before + [old(View())] + after),
                         State(parent.freePages, parent.Table(), before + [View()] + after),
                         |before|, kv, if out.Some? then out.value else [])
    {
      var startPositions := seqLens;
      seqLens := Increment(seqLens);
      ghost var c, free, table, batch := parent.cache.layout, parent.freePages, parent.Table(), old(View());
      var ok := AllocateSeqBlockIds();
      if !ok {
        phase := Broken;
        DecodeFailed(c, free, table, batch, before, after, kv);
        return None;
      }
      var ids, width := PadBlockIds(seqBlockIds), MaxLen(seqBlockIds);
      DecodeReady(c, free, batch, parent.pageCacheSize);
      var gathered := RunDecodeBlocks(parent.cache, parent.cacheState, parent.pageCacheSize, kv, startPositions, ids, width);
      DecodeDone(c, free, table, batch, parent.Table(), before, after, kv, gathered);
      out := Some(gathered);
    }
  }

  ghost function GrownForDecode(c: Layout, free: seq<nat>, batch: BatchState): GrownRows
    requires c.stride > 0 && |batch.lens| == |batch.rows|
  {
    GrowRows(free, batch.rows, DecodeNeeds(c.stride, Increment(batch.lens)), |batch.rows|)
  }

  lemma DecodeFailed<V>(c: Layout, free: seq<nat>, table: imap<Cell, V>, batch: BatchState,
                        before: seq<BatchState>, after: seq<BatchState>, kv: TokenKV<V>)
    requires c.stride > 0 && |batch.lens| == |batch.rows| && batch.phase == Prefilled && batch.rows != []
    requires !GrownForDecode(c, free, batch).ok
    ensures var g := GrownForDecode(c, free, batch);
      DecodeStep(c, State(free, table, before + [batch] + after),
                 State(g.free, table, before + [BatchState(Increment(batch.lens), g.rows, Broken)] + after), |before|, kv, [])
  {
    var g := GrownForDecode(c, free, batch);
    assert (before + [batch] + after)[|before| := BatchState(Increment(batch.lens), g.rows, Broken)]
        == before + [BatchState(Increment(batch.lens), g.rows, Broken)] + after;
  }

  lemma DecodeReady(c: Layout, free: seq<nat>, batch: BatchState, pages: nat)
    requires c.stride > 0 && |batch.lens| == |batch.rows| && PagesInRange(batch.rows, pages) && pages > 0
    requires forall j | 0 <= j < |free| :: free[j] < pages
    ensures var g := GrownForDecode(c, free, batch);
      var ids := PadBlockIds(g.rows);
      Rectangular(ids, MaxLen(g.rows), pages) && (g.ok ==> Ragged(c, ids, batch.lens))
  {
    var g := GrownForDecode(c, free, batch);
    GrownInRange(free, batch.rows, DecodeNeeds(c.stride, Increment(batch.lens)), |batch.rows|, pages);
    PaddedIsRectangular(g.rows, pages);
    GrownIsRagged(c, free, batch.rows, batch.lens);
  }

  lemma DecodeDone<V>(c: Layout, free: seq<nat>, table: imap<Cell, V>, batch: BatchState, table': imap<Cell, V>,
                      before: seq<BatchState>, after: seq<BatchState>, kv: TokenKV<V>, out: PromptKV<V>)
    requires c.stride > 0 && |batch.lens| == |batch.rows| && batch.phase == Prefilled && batch.rows != []
    requires GrownForDecode(c, free, batch).ok && TokenShaped(c, kv, |batch.rows|) && |out| == c.blockCount
    requires var rows := GrownForDecode(c, free, batch).rows;
      && Scattered(table, table', TokenWrites(c, PadBlockIds(rows), batch.lens, kv, |kv|))
      && forall t | 0 <= t < |out| :: GatheredAll(c, table', PadBlockIds(rows), t, MaxLen(rows), out[t])
    ensures var g := GrownForDecode(c, free, batch);
      DecodeStep(c, State(free, table, before + [batch] + after),
                 State(g.free, table', before + [BatchState(Increment(batch.lens), g.rows, Prefilled)] + after), |before|, kv, out)
  {
    var g := GrownForDecode(c, free, batch);
    GatheredIsOut(c, table', PadBlockIds(g.rows), MaxLen(g.rows), out);
    assert (before + [batch] + after)[|before| := BatchState(Increment(batch.lens), g.rows, Prefilled)]
        == before + [BatchState(Increment(batch.lens), g.rows, Prefilled)] + after;
  }

  predicate PagesInRange(rows: seq<seq<nat>>, pages: nat) {
    forall b | 0 <= b < |rows| :: forall j | 0 <= j < |rows[b]| :: rows[b][j] < pages
  }

  lemma PaddedIsRectangular(rows: seq<seq<nat>>, pages: nat)
    requires PagesInRange(rows, pages) && pages > 0
    ensures Rectangular(PadBlockIds(rows), MaxLen(rows), pages)
  {
    MaxLenBounds(rows);
  }

  lemma {:induction false} GrownInRange(free: seq<nat>, rows: seq<seq<nat>>, needed: seq<nat>, n: nat, pages: nat)
    requires n <= |rows| == |needed| && PagesInRange(rows, pages)
    requires forall j | 0 <= j < |free| :: free[j] < pages
    ensures var g := GrowRows(free, rows, needed, n);
      PagesInRange(g.rows, pages) && forall j | 0 <= j < |g.free| :: g.free[j] < pages
  {
    if n > 0 {
      GrownInRange(free, rows, needed, n - 1, pages);
      var g := GrowRows(free, rows, needed, n - 1);
      if g.ok {
        GrowMoves(g.free, rows[n - 1], needed[n - 1]);
        var r := Grow(g.free, rows[n - 1], needed[n - 1]);
        forall j | 0 <= j < |r.row| ensures r.row[j] < pages {
        }
      }
    }
  }

  lemma GrownIsRagged(c: Layout, free: seq<nat>, rows: seq<seq<nat>>, lens: seq<nat>)
    requires c.stride > 0 && |lens| == |rows|
    ensures var g := GrowRows(free, rows, DecodeNeeds(c.stride, Increment(lens)), |lens|);
      g.ok ==> Ragged(c, PadBlockIds(g.rows), lens)
  {
    var needs := DecodeNeeds(c.stride, Increment(lens));
    var g := GrowRows(free, rows, needs, |lens|);
    GrowRowsFit(free, rows, needs, |lens|);
    MaxLenBounds(g.rows);
    if g.ok {
      forall b | 0 <= b < |lens| ensures lens[b] / c.stride < |g.rows[b]| {
        DecodeBlocksExact(c.stride, lens[b] + 1);
        DivSteps(c.stride, lens[b]);
      }
    }
  }

  lemma GatheredIsOut<V>(c: Layout, table: imap<Cell, V>, ids: PageIds, width: nat, out: PromptKV<V>)
    requires |out| == c.blockCount
    requires forall t | 0 <= t < |out| :: GatheredAll(c, table, ids, t, width, out[t])
    ensures PromptShaped(c, out, |ids|, width)
    ensures forall t, p, b, pos | 0 <= t < c.blockCount && 0 <= p < c.partitionCount && 0 <= b < |ids|
              && 0 <= pos < |out[t][p][b]| ::
              var cell := Target(c, ids, b, pos, t, p);
              cell in table && out[t][p][b][pos] == table[cell]
  {
  }

  /** A prefill's writes, one attention block after the other. */
  method RunPrefillBlocks<V(0)>(cache: PagedKVCache<V>, cacheState: array<V>, ghost pages: nat, kv: PromptKV<V>, ids: PageIds, width: nat)
    requires cache.layout.stride > 0 && cacheState.Length == SlabSize(cache.layout, pages)
    requires Rectangular(ids, width, pages) && PromptShaped(cache.layout, kv, |ids|, width)
    modifies cacheState
    ensures Scattered(Unflatten(cache.layout, pages, old(cacheState[..])), Unflatten(cache.layout, pages, cacheState[..]),
                      PromptWrites(cache.layout, ids, kv, |kv|))
  {
    ghost var c := cache.layout;
    ghost var table := Unflatten(c, pages, cacheState[..]);
    for t := 0 to |kv|
      invariant Scattered(table, Unflatten(c, pages, cacheState[..]), PromptWrites(c, ids, kv, t))
    {
      ghost var mid := Unflatten(c, pages, cacheState[..]);
      var unread := TransactCache(cache, cacheState, pages, t, kv[t], ids, width, None);
      ScatterCompose(table, mid, Unflatten(c, pages, cacheState[..]),
                     PromptWrites(c, ids, kv, t), BlockWrites(c, ids, kv[t], t, |kv[t]|));
      PromptWritesNext(c, ids, kv, t);
    }
  }

  lemma PromptWritesNext<V>(c: Layout, ids: PageIds, kv: PromptKV<V>, n: nat)
    requires n < |kv|
    ensures PromptWrites(c, ids, kv, n + 1) == PromptWrites(c, ids, kv, n) + BlockWrites(c, ids, kv[n], n, |kv[n]|)
  {
  }

  lemma TokenWritesNext<V>(c: Layout, ids: PageIds, positions: seq<nat>, kv: TokenKV<V>, n: nat)
    requires n < |kv|
    ensures TokenWrites(c, ids, positions, kv, n + 1)
         == TokenWrites(c, ids, positions, kv, n) + StepWrites(c, ids, positions, kv[n], n, |kv[n]|)
  {
  }

  /** A decode's writes and reads, one attention block after the other.  No block disturbs what an
      earlier one has read. */
  method RunDecodeBlocks<V(0)>(cache: PagedKVCache<V>, cacheState: array<V>, ghost pages: nat, kv: TokenKV<V>,
                             startPositions: seq<nat>, ids: PageIds, width: nat)
    returns (out: PromptKV<V>)
    requires cache.layout.stride > 0 && cacheState.Length == SlabSize(cache.layout, pages)
    requires Rectangular(ids, width, pages) && TokenShaped(cache.layout, kv, |ids|) && Ragged(cache.layout, ids, startPositions)
    modifies cacheState
    ensures Scattered(Unflatten(cache.layout, pages, old(cacheState[..])), Unflatten(cache.layout, pages, cacheState[..]),
                      TokenWrites(cache.layout, ids, startPositions, kv, |kv|))
    ensures |out| == |kv|
    ensures forall t | 0 <= t < |kv| ::
              GatheredAll(cache.layout, Unflatten(cache.layout, pages, cacheState[..]), ids, t, width, out[t])
  {
    hide Unflatten, GatheredAll;
    ghost var c := cache.layout;
    ghost var table := Unflatten(c, pages, cacheState[..]);
    out := [];
    for t := 0 to |kv|
      invariant Scattered(table, Unflatten(c, pages, cacheState[..]), TokenWrites(c, ids, startPositions, kv, t))
      invariant |out| == t
      invariant forall t' | 0 <= t' < t :: GatheredAll(c, Unflatten(c, pages, cacheState[..]), ids, t', width, out[t'])
    {
      ghost var mid := Unflatten(c, pages, cacheState[..]);
      var gathered := RunDecodeBlock(cache, cacheState, pages, t, kv[t], startPositions, ids, width);
      ghost var now := Unflatten(c, pages, cacheState[..]);
      ScatterCompose(table, mid, now, TokenWrites(c, ids, startPositions, kv, t), StepWrites(c, ids, startPositions, kv[t], t, |kv[t]|));
      TokenWritesNext(c, ids, startPositions, kv, t);
      forall t' | 0 <= t' < t ensures GatheredAll(c, now, ids, t', width, out[t']) {
        OtherBlocksUntouched(c, mid, now, ids, startPositions, kv[t], t, t', width, out[t']);
      }
      out := out + [gathered];
    }
  }

  method RunDecodeBlock<V(0)>(cache: PagedKVCache<V>, cacheState: array<V>, ghost pages: nat, t: nat, parts: seq<seq<V>>,
                              startPositions: seq<nat>, ids: PageIds, width: nat)
    returns (gathered: seq<seq<seq<V>>>)
    requires cache.layout.stride > 0 && cacheState.Length == SlabSize(cache.layout, pages)
    requires t < cache.layout.blockCount && |parts| == cache.layout.partitionCount
    requires forall p | 0 <= p < |parts| :: |parts[p]| == |ids|
    requires Rectangular(ids, width, pages) && Ragged(cache.layout, ids, startPositions)
    modifies cacheState
    ensures Scattered(Unflatten(cache.layout, pages, old(cacheState[..])), Unflatten(cache.layout, pages, cacheState[..]),
                      StepWrites(cache.layout, ids, startPositions, parts, t, |parts|))
    ensures GatheredAll(cache.layout, Unflatten(cache.layout, pages, cacheState[..]), ids, t, width, gathered)
  {
    var updates := SingleRows(parts, |ids|);
    forall p | 0 <= p < |parts| ensures FirstRows(updates, |ids|)[p] == parts[p] {
    }
    assert FirstRows(updates, |ids|) == parts;
    gathered := TransactCache(cache, cacheState, pages, t, updates, ids, width, Some(startPositions));
  }

  lemma OtherBlocksUntouched<V>(c: Layout, mid: imap<Cell, V>, now: imap<Cell, V>, ids: PageIds, positions: seq<nat>,
                                parts: seq<seq<V>>, t: nat, t': nat, width: nat, kv: seq<seq<seq<V>>>)
    requires Scattered(mid, now, StepWrites(c, ids, positions, parts, t, |parts|)) && t' != t
    requires GatheredAll(c, mid, ids, t', width, kv)
    ensures GatheredAll(c, now, ids, t', width, kv)
  {
    forall p, b, pos | 0 <= p < |kv| && 0 <= b < |ids| && 0 <= pos < |kv[p][b]|
      ensures Target(c, ids, b, pos, t', p) in now && kv[p][b][pos] == now[Target(c, ids, b, pos, t', p)]
    {
      var cell := Target(c, ids, b, pos, t', p);
      assert cell in mid;
      assert !Hits(StepWrites(c, ids, positions, parts, t, |parts|), cell);
    }
  }

  /** One token per sequence as a batch of sequences of length one. */
  function SingleRows<V>(part: seq<seq<V>>, batch: nat): seq<seq<seq<V>>>
    requires forall p | 0 <= p < |part| :: |part[p]| == batch
  {
    seq(|part|, p requires 0 <= p < |part| => seq(batch, b requires 0 <= b < batch => [part[p][b]]))
  }

  /** One attention block's turn with the cache.  Without start positions the whole update is written
      and used as it is; with them its single row per sequence is written and everything is read back. */
  method TransactCache<V(0)>(cache: PagedKVCache<V>, cacheState: array<V>, ghost pages: nat, block: nat, updates: seq<seq<seq<V>>>,
                             seqBlockIds: PageIds, width: nat, startPositions: Option<seq<nat>>)
    returns (kv: seq<seq<seq<V>>>)
    requires cache.layout.stride > 0 && cacheState.Length == SlabSize(cache.layout, pages)
    requires block < cache.layout.blockCount && |updates| == cache.layout.partitionCount
    requires Rectangular(seqBlockIds, width, pages)
    requires forall p | 0 <= p < |updates| :: |updates[p]| == |seqBlockIds| && forall b | 0 <= b < |seqBlockIds| ::
               |updates[p][b]| == if startPositions.None? then width * cache.layout.stride else 1
    requires startPositions.Some? ==> Ragged(cache.layout, seqBlockIds, startPositions.value)
    modifies cacheState
    ensures startPositions.None? ==>
              && kv == updates
              && Scattered(Unflatten(cache.layout, pages, old(cacheState[..])), Unflatten(cache.layout, pages, cacheState[..]),
                           BlockWrites(cache.layout, seqBlockIds, updates, block, |updates|))
    ensures startPositions.Some? ==>
              && Scattered(Unflatten(cache.layout, pages, old(cacheState[..])), Unflatten(cache.layout, pages, cacheState[..]),
                           StepWrites(cache.layout, seqBlockIds, startPositions.value, FirstRows(updates, |seqBlockIds|), block, |updates|))
              && GatheredAll(cache.layout, Unflatten(cache.layout, pages, cacheState[..]), seqBlockIds, block, width, kv)
  {
    match startPositions
    case None =>
      cache.Write(cacheState, pages, updates, block, seqBlockIds, width);
      kv := updates;
    case Some(positions) =>
      cache.WriteTimestep(cacheState, pages, FirstRows(updates, |seqBlockIds|), block, positions, seqBlockIds, width);
      kv := cache.Read(cacheState, pages, |updates|, block, width * cache.layout.stride, seqBlockIds, width);
  }

  /** `update[row_index, 0]` of every partition. */
  function FirstRows<V>(updates: seq<seq<seq<V>>>, batch: nat): seq<seq<V>>
    requires forall p | 0 <= p < |updates| :: |updates[p]| == batch && forall b | 0 <= b < batch :: |updates[p][b]| == 1
  {
    seq(|updates|, p requires 0 <= p < |updates| => seq(batch, b requires 0 <= b < batch => updates[p][b][0]))
  }

  /** `kv` is everything the page table has room for in one transformer block. */
  ghost predicate GatheredAll<V>(c: Layout, table: imap<Cell, V>, ids: PageIds, block: nat, width: nat, kv: seq<seq<seq<V>>>) {
    && |kv| == c.partitionCount
    && (forall p | 0 <= p < |kv| :: |kv[p]| == |ids|)
    && (forall p, b | 0 <= p < |kv| && 0 <= b < |ids| :: |kv[p][b]| == width * c.stride)
    && forall p, b, pos | 0 <= p < |kv| && 0 <= b < |ids| && 0 <= pos < |kv[p][b]| ::
         Target(c, ids, b, pos, block, p) in table && kv[p][b][pos] == table[Target(c, ids, b, pos, block, p)]
  }

  /** Once a row has failed the rows after it are not tried. */
  lemma {:induction false} GrowRowsStops(free: seq<nat>, rows: seq<seq<nat>>, needed: seq<nat>, m: nat, n: nat)
    requires m <= n <= |rows| == |needed| && !GrowRows(free, rows, needed, m).ok
    ensures GrowRows(free, rows, needed, n) == GrowRows(free, rows, needed, m)
  {
    if m < n {
      GrowRowsStops(free, rows, needed, m, n - 1);
    }
  }
}
