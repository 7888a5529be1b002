/** Properties of every run of a generator: pages are conserved, batches never disturb each other,
    and every decode reads back exactly the history of its own sequences. */
module ServingRuns {
  import DirectCache
  import opened Masks
  import opened PageOwnership
  import opened Paging
  import opened Radices
  import opened Scatter
  import opened Serving

  // ---- Page tables with padding ----

  lemma {:induction false} MaxLenBounds(rows: seq<seq<nat>>)
    ensures forall b | 0 <= b < |rows| :: |rows[b]| <= MaxLen(rows)
    ensures rows != [] ==> exists b | 0 <= b < |rows| :: |rows[b]| == MaxLen(rows)
  {
    if rows != [] {
      MaxLenBounds(rows[1..]);
      forall b | 0 <= b < |rows| ensures |rows[b]| <= MaxLen(rows) {
        if b > 0 {
          assert rows[b] == rows[1..][b - 1];
        }
      }
      if |rows[0]| <= MaxLen(rows[1..]) && |rows| > 1 {
        var b :| 0 <= b < |rows[1..]| && |rows[1..][b]| == MaxLen(rows[1..]);
        assert rows[b + 1] == rows[1..][b];
      }
    }
  }

  /** Padding never moves a position of a sequence. */
  lemma PaddingKeepsTargets(c: Layout, rows: seq<seq<nat>>, b: nat, pos: nat, t: nat, p: nat)
    ensures Target(c, PadBlockIds(rows), b, pos, t, p) == Target(c, rows, b, pos, t, p)
  {
    MaxLenBounds(rows);
  }

  // ---- Histories ----

  /** One sequence of one batch, seen by one transformer block and cache partition. */
  datatype Key = Key(batch: nat, row: nat, block: nat, partition: nat)

  /** The keys or values of every sequence so far, oldest first. */
  type Logs<!V> = imap<Key, seq<V>>

  ghost predicate InBatch(c: Layout, rows: nat, k: Key) {
    k.row < rows && k.block < c.blockCount && k.partition < c.partitionCount
  }

  ghost predicate InPrompt<V>(lens: seq<nat>, i: nat, kv: PromptKV<V>, k: Key) {
    && k.batch == i && k.row < |lens| && k.block < |kv| && k.partition < |kv[k.block]|
    && k.row < |kv[k.block][k.partition]| && lens[k.row] <= |kv[k.block][k.partition][k.row]|
  }

  /** A prefill starts the history of each sequence with its own prompt, cut at its own length. */
  ghost function PrefillLogs<V>(logs: Logs<V>, lens: seq<nat>, i: nat, kv: PromptKV<V>): Logs<V> {
    imap k: Key | k in logs || InPrompt(lens, i, kv, k) ::
      if InPrompt(lens, i, kv, k) then kv[k.block][k.partition][k.row][..lens[k.row]] else logs[k]
  }

  /** A decode appends one entry to the history of each sequence of its batch. */
  ghost function DecodeLogs<V>(logs: Logs<V>, i: nat, kv: TokenKV<V>): Logs<V>
  {
    imap k: Key | k in logs ::
      if k.batch == i && k.block < |kv| && k.partition < |kv[k.block]| && k.row < |kv[k.block][k.partition]|
      then logs[k] + [kv[k.block][k.partition][k.row]] else logs[k]
  }

  ghost function DropLogs<V>(logs: Logs<V>, i: nat): Logs<V> {
    imap k: Key | k in logs && k.batch != i :: logs[k]
  }

  /** The block that holds position `pos` of a history. */
  function Home(c: Layout, bs: seq<BatchState>, k: Key, pos: nat): Cell
    requires k.batch < |bs|
  {
    Target(c, bs[k.batch].rows, k.row, pos, k.block, k.partition)
  }

  /** A row has a block for each of its positions, and at most one more. */
  predicate RowFits(c: Layout, batch: BatchState, b: nat)
    requires c.stride > 0 && b < |batch.lens| == |batch.rows|
  {
    CeilDiv(batch.lens[b], c.stride) <= |batch.rows[b]| <= batch.lens[b] / c.stride + 1
  }

  predicate BatchFits(c: Layout, batch: BatchState)
    requires c.stride > 0
  {
    && |batch.lens| == |batch.rows|
    && (batch.phase != Broken ==> forall b | 0 <= b < |batch.rows| :: RowFits(c, batch, b))
  }

  ghost predicate Tracked(c: Layout, bs: seq<BatchState>, k: Key) {
    k.batch < |bs| && bs[k.batch].phase == Prefilled && InBatch(c, |bs[k.batch].rows|, k)
  }

  ghost predicate AllFit(c: Layout, bs: seq<BatchState>)
    requires c.stride > 0
  {
    forall i | 0 <= i < |bs| :: BatchFits(c, bs[i])
  }

  /** The position has a page of its own. */
  predicate HasPage(c: Layout, rows: seq<seq<nat>>, b: nat, pos: nat)
    requires c.stride > 0
  {
    b < |rows| && pos / c.stride < |rows[b]|
  }

  /** There is one history for each sequence, block and partition of each usable batch, as long as the sequence. */
  ghost predicate LogsFit<V>(c: Layout, bs: seq<BatchState>, logs: Logs<V>) {
    && (forall k: Key :: k in logs <==> Tracked(c, bs, k))
    && (forall k: Key | k in logs :: |bs[k.batch].lens| == |bs[k.batch].rows| && |logs[k]| == bs[k.batch].lens[k.row])
  }

  /** The table holds one entry of a history where the page table says it is. */
  ghost predicate StoredAt<V>(c: Layout, table: imap<Cell, V>, bs: seq<BatchState>, k: Key, pos: nat, v: V)
    requires c.stride > 0
  {
    && k.batch < |bs| && HasPage(c, bs[k.batch].rows, k.row, pos)
    && Home(c, bs, k, pos) in table && table[Home(c, bs, k, pos)] == v
  }

  ghost predicate Stored<V>(c: Layout, table: imap<Cell, V>, bs: seq<BatchState>, logs: Logs<V>)
    requires c.stride > 0
  {
    forall k: Key, pos: nat | k in logs && pos < |logs[k]| :: StoredAt(c, table, bs, k, pos, logs[k][pos])
  }

  /** Page ownership is exclusive, rows have the right size and the page table holds every history. */
  ghost predicate Faithful<V>(c: Layout, pages: nat, s: State<V>, logs: Logs<V>)
    requires c.stride > 0
  {
    && Owned(s.free, s.batches, pages)
    && (forall cell: Cell :: cell in s.table <==> InRange(c, pages, cell))
    && AllFit(c, s.batches)
    && LogsFit(c, s.batches, logs)
    && Stored(c, s.table, s.batches, logs)
  }

  /** A position within the length of a sequence has a page of its own. */
  lemma PositionHasPage(c: Layout, len: nat, row: seq<nat>, pos: nat)
    requires c.stride > 0 && CeilDiv(len, c.stride) <= |row| && pos < len
    ensures pos / c.stride < |row|
  {
    var q, r := pos / c.stride, pos % c.stride;
    assert len + c.stride - 1 >= (q + 1) * c.stride + r;
    DivAtLeast(c.stride, q + 1, len + c.stride - 1);
  }

  /** Two positions with pages of their own share a cell only if they are the same position of the
      same sequence of the same batch. */
  lemma HomesDistinct(c: Layout, free: seq<nat>, bs: seq<BatchState>, pages: nat, k: Key, pos: nat, k': Key, pos': nat)
    requires c.stride > 0 && Owned(free, bs, pages) && k.batch < |bs| && k'.batch < |bs|
    requires HasPage(c, bs[k.batch].rows, k.row, pos)
    requires Home(c, bs, k, pos) == Home(c, bs, k', pos')
    ensures k == k' && pos == pos'
  {
    var x := Slot(k.batch, k.row, pos / c.stride);
    assert ValidSlot(bs, x) && PageAt(bs, x) >= 1;
    var y := Slot(k'.batch, k'.row, pos' / c.stride);
    assert ValidSlot(bs, y) && PageAt(bs, y) == PageAt(bs, x);
    assert x == y;
    assert pos == pos / c.stride * c.stride + pos % c.stride;
    assert pos' == pos' / c.stride * c.stride + pos' % c.stride;
  }

  // ---- Where the writes of one step land ----

  /** Every pair a prefill writes belongs to a position of its own prompt. */
  lemma PromptWriteHome<V>(c: Layout, bs: seq<BatchState>, i: nat, kv: PromptKV<V>, w: (Cell, V)) returns (k: Key, pos: nat)
    requires i < |bs| && PromptShaped(c, kv, |bs[i].rows|, MaxLen(bs[i].rows))
    requires w in PromptWrites(c, PadBlockIds(bs[i].rows), kv, |kv|)
    ensures k.batch == i && InBatch(c, |bs[i].rows|, k) && pos < |kv[k.block][k.partition][k.row]|
    ensures w == (Home(c, bs, k, pos), kv[k.block][k.partition][k.row][pos])
  {
    var ids := PadBlockIds(bs[i].rows);
    var t, p, b, q :| 0 <= t < |kv| && 0 <= p < |kv[t]| && 0 <= b < |kv[t][p]| && 0 <= q < |kv[t][p][b]|
      && w == (Target(c, ids, b, q, t, p), kv[t][p][b][q]);
    PaddingKeepsTargets(c, bs[i].rows, b, q, t, p);
    k, pos := Key(i, b, t, p), q;
  }

  lemma PromptWriteIn<V>(c: Layout, bs: seq<BatchState>, i: nat, kv: PromptKV<V>, k: Key, pos: nat)
    requires i < |bs| && PromptShaped(c, kv, |bs[i].rows|, MaxLen(bs[i].rows))
    requires k.batch == i && InBatch(c, |bs[i].rows|, k) && pos < |kv[k.block][k.partition][k.row]|
    ensures (Home(c, bs, k, pos), kv[k.block][k.partition][k.row][pos]) in PromptWrites(c, PadBlockIds(bs[i].rows), kv, |kv|)
  {
    PaddingKeepsTargets(c, bs[i].rows, k.row, pos, k.block, k.partition);
  }

  /** A position with a page of its own is written by a prefill exactly if it is one of the prompt. */
  lemma PromptWriteLands<V>(c: Layout, free: seq<nat>, bs: seq<BatchState>, pages: nat, i: nat, kv: PromptKV<V>, k: Key, pos: nat)
    requires c.stride > 0 && Owned(free, bs, pages) && i < |bs| && k.batch < |bs|
    requires PromptShaped(c, kv, |bs[i].rows|, MaxLen(bs[i].rows))
    requires HasPage(c, bs[k.batch].rows, k.row, pos)
    ensures var writes := PromptWrites(c, PadBlockIds(bs[i].rows), kv, |kv|);
      var cell := Home(c, bs, k, pos);
      if k.batch == i && InBatch(c, |bs[i].rows|, k) && pos < |kv[k.block][k.partition][k.row]| then
        (cell, kv[k.block][k.partition][k.row][pos]) in writes && Functional(writes, cell)
      else !Hits(writes, cell)
  {
    var writes := PromptWrites(c, PadBlockIds(bs[i].rows), kv, |kv|);
    var cell := Home(c, bs, k, pos);
    forall w | w in writes && w.0 == cell
      ensures k.batch == i && InBatch(c, |bs[i].rows|, k) && pos < |kv[k.block][k.partition][k.row]|
      ensures w.1 == kv[k.block][k.partition][k.row][pos]
    {
      var k', q := PromptWriteHome(c, bs, i, kv, w);
      HomesDistinct(c, free, bs, pages, k, pos, k', q);
    }
    if k.batch == i && InBatch(c, |bs[i].rows|, k) && pos < |kv[k.block][k.partition][k.row]| {
      PromptWriteIn(c, bs, i, kv, k, pos);
    }
  }

  /** Every pair a decode writes belongs to the next position of one of its sequences. */
  lemma TokenWriteHome<V>(c: Layout, bs: seq<BatchState>, i: nat, positions: seq<nat>, kv: TokenKV<V>, w: (Cell, V))
    returns (k: Key)
    requires i < |bs| && TokenShaped(c, kv, |bs[i].rows|) && |positions| == |bs[i].rows|
    requires w in TokenWrites(c, PadBlockIds(bs[i].rows), positions, kv, |kv|)
    ensures k.batch == i && InBatch(c, |bs[i].rows|, k)
    ensures w == (Home(c, bs, k, positions[k.row]), kv[k.block][k.partition][k.row])
  {
    var ids := PadBlockIds(bs[i].rows);
    var t, p, b :| 0 <= t < |kv| && 0 <= p < |kv[t]| && 0 <= b < |kv[t][p]| && b < |positions|
      && w == (Target(c, ids, b, positions[b], t, p), kv[t][p][b]);
    PaddingKeepsTargets(c, bs[i].rows, b, positions[b], t, p);
    k := Key(i, b, t, p);
  }

  lemma TokenWriteIn<V>(c: Layout, bs: seq<BatchState>, i: nat, positions: seq<nat>, kv: TokenKV<V>, k: Key)
    requires i < |bs| && TokenShaped(c, kv, |bs[i].rows|) && |positions| == |bs[i].rows|
    requires k.batch == i && InBatch(c, |bs[i].rows|, k)
    ensures (Home(c, bs, k, positions[k.row]), kv[k.block][k.partition][k.row])
         in TokenWrites(c, PadBlockIds(bs[i].rows), positions, kv, |kv|)
  {
    PaddingKeepsTargets(c, bs[i].rows, k.row, positions[k.row], k.block, k.partition);
  }

  /** A position with a page of its own is written by a decode exactly if it is the next one of its sequence. */
  lemma TokenWriteLands<V>(c: Layout, free: seq<nat>, bs: seq<BatchState>, pages: nat, i: nat, positions: seq<nat>,
                           kv: TokenKV<V>, k: Key, pos: nat)
    requires c.stride > 0 && Owned(free, bs, pages) && i < |bs| && k.batch < |bs|
    requires TokenShaped(c, kv, |bs[i].rows|) && |positions| == |bs[i].rows|
    requires HasPage(c, bs[k.batch].rows, k.row, pos)
    ensures var writes := TokenWrites(c, PadBlockIds(bs[i].rows), positions, kv, |kv|);
      var cell := Home(c, bs, k, pos);
      if k.batch == i && InBatch(c, |bs[i].rows|, k) && pos == positions[k.row] then
        (cell, kv[k.block][k.partition][k.row]) in writes && Functional(writes, cell)
      else !Hits(writes, cell)
  {
    var writes := TokenWrites(c, PadBlockIds(bs[i].rows), positions, kv, |kv|);
    var cell := Home(c, bs, k, pos);
    forall w | w in writes && w.0 == cell
      ensures k.batch == i && InBatch(c, |bs[i].rows|, k) && pos == positions[k.row]
      ensures w.1 == kv[k.block][k.partition][k.row]
    {
      var k' := TokenWriteHome(c, bs, i, positions, kv, w);
      HomesDistinct(c, free, bs, pages, k, pos, k', positions[k'.row]);
    }
    if k.batch == i && InBatch(c, |bs[i].rows|, k) && pos == positions[k.row] {
      TokenWriteIn(c, bs, i, positions, kv, k);
    }
  }

  // ---- Every step keeps the page table faithful ----

  /** A batch that finds its pages starts with exactly as many blocks as each prompt needs. */
  lemma BeginFits(c: Layout, free: seq<nat>, lens: seq<nat>)
    requires c.stride > 0
    ensures var g := GrowRows(free, Repeat([], |lens|), PromptNeeds(c.stride, lens), |lens|);
      g.ok ==>
        && (forall b | 0 <= b < |lens| :: |g.rows[b]| == CeilDiv(lens[b], c.stride))
        && BatchFits(c, BatchState(lens, g.rows, Created))
  {
    var needs := PromptNeeds(c.stride, lens);
    var g := GrowRows(free, Repeat([], |lens|), needs, |lens|);
    GrowRowsFit(free, Repeat([], |lens|), needs, |lens|);
    if g.ok {
      forall b | 0 <= b < |lens|
        ensures |g.rows[b]| == CeilDiv(lens[b], c.stride) && RowFits(c, BatchState(lens, g.rows, Created), b)
      {
        CeilDivBounds(c.stride, lens[b]);
      }
    }
  }

  /** A batch without pages changes nothing. */
  lemma EmptyRowsOwned(free: seq<nat>, bs: seq<BatchState>, batch: BatchState, pages: nat)
    requires Owned(free, bs, pages) && forall b | 0 <= b < |batch.rows| :: batch.rows[b] == []
    ensures Owned(free, bs + [batch], pages) && SameHeld(free, bs, free, bs + [batch])
  {
    var bs' := bs + [batch];
    forall x: Slot
      ensures ValidSlot(bs', x) <==> ValidSlot(bs, x)
      ensures ValidSlot(bs', x) ==> PageAt(bs', x) == PageAt(bs, x)
    {
    }
  }

  lemma BeginOwned<V>(c: Layout, pages: nat, s: State<V>, s': State<V>, lens: seq<nat>)
    requires c.stride > 0 && Owned(s.free, s.batches, pages) && BeginStep(c, s, s', lens)
    ensures Owned(s'.free, s'.batches, pages)
    ensures forall page: nat :: Held(s'.free, s'.batches, page) <==>
              Held(s.free, s.batches, page) && !(|s'.batches| == |s.batches| && page in s.free)
  {
    var rows := Repeat([], |lens|);
    var needs := PromptNeeds(c.stride, lens);
    var bs := s.batches + [BatchState(lens, rows, Created)];
    EmptyRowsOwned(s.free, s.batches, BatchState(lens, rows, Created), pages);
    GrowRowsOwned(s.free, bs, |s.batches|, needs, |lens|, pages);
    GrowRowsFit(s.free, rows, needs, |lens|);
    var g := GrowRows(s.free, rows, needs, |lens|);
    if g.ok {
      assert s'.batches == WithRows(bs, |s.batches|, g.rows);
    }
  }

  lemma BeginFaithful<V>(c: Layout, pages: nat, s: State<V>, s': State<V>, lens: seq<nat>, logs: Logs<V>)
    requires c.stride > 0 && Faithful(c, pages, s, logs) && BeginStep(c, s, s', lens)
    ensures Faithful(c, pages, s', logs)
  {
    BeginOwned(c, pages, s, s', lens);
    BeginFits(c, s.free, lens);
    StoredByRows(c, s.table, s.batches, s'.batches, logs);
  }

  /** After a prefill the table holds every history, with the prompts of its own batch added. */
  lemma PrefillTable<V>(c: Layout, pages: nat, table: imap<Cell, V>, table': imap<Cell, V>, i: nat, lens: seq<nat>,
                        kv: PromptKV<V>, free: seq<nat>, bs: seq<BatchState>, logs: Logs<V>)
    requires c.stride > 0 && Owned(free, bs, pages) && i < |bs|
    requires PromptShaped(c, kv, |bs[i].rows|, MaxLen(bs[i].rows)) && |lens| == |bs[i].rows|
    requires Scattered(table, table', PromptWrites(c, PadBlockIds(bs[i].rows), kv, |kv|))
    requires forall b, pos | 0 <= b < |lens| && 0 <= pos < lens[b] :: HasPage(c, bs[i].rows, b, pos)
    requires forall k: Key | k in logs :: k.batch != i
    requires Stored(c, table, bs, logs)
    ensures Stored(c, table', bs, PrefillLogs(logs, lens, i, kv))
  {
    var logs' := PrefillLogs(logs, lens, i, kv);
    var writes := PromptWrites(c, PadBlockIds(bs[i].rows), kv, |kv|);
    forall k: Key, pos: nat | k in logs' && pos < |logs'[k]|
      ensures StoredAt(c, table', bs, k, pos, logs'[k][pos])
    {
      if k.batch == i {
        PromptWriteLands(c, free, bs, pages, i, kv, k, pos);
        ScatterRead(table, table', writes, Home(c, bs, k, pos), kv[k.block][k.partition][k.row][pos]);
      } else {
        assert StoredAt(c, table, bs, k, pos, logs[k][pos]);
        PromptWriteLands(c, free, bs, pages, i, kv, k, pos);
        assert table'[Home(c, bs, k, pos)] == table[Home(c, bs, k, pos)];
      }
    }
  }

  /** Every position of a usable batch has a page of its own. */
  lemma BatchHasPages(c: Layout, batch: BatchState)
    requires c.stride > 0 && batch.phase != Broken && BatchFits(c, batch)
    ensures forall b, pos | 0 <= b < |batch.lens| && 0 <= pos < batch.lens[b] :: HasPage(c, batch.rows, b, pos)
  {
    forall b, pos | 0 <= b < |batch.lens| && 0 <= pos < batch.lens[b]
      ensures HasPage(c, batch.rows, b, pos)
    {
      assert RowFits(c, batch, b);
      PositionHasPage(c, batch.lens[b], batch.rows[b], pos);
    }
  }

  lemma PrefillFaithful<V>(c: Layout, pages: nat, s: State<V>, s': State<V>, i: nat, kv: PromptKV<V>, logs: Logs<V>)
    requires c.stride > 0 && Faithful(c, pages, s, logs) && PrefillStep(c, s, s', i, kv)
    ensures Faithful(c, pages, s', PrefillLogs(logs, s.batches[i].lens, i, kv))
  {
    var batch := s.batches[i];
    var logs' := PrefillLogs(logs, batch.lens, i, kv);
    SamePlaces(s.free, s.batches, s'.batches, pages);
    BatchHasPages(c, batch);
    PromptHoldsLengths(c, batch, kv);
    PrefillTable(c, pages, s.table, s'.table, i, batch.lens, kv, s.free, s.batches, logs);
    PrefillFits(c, s.batches, i);
    StoredByRows(c, s'.table, s.batches, s'.batches, logs');
    forall k: Key
      ensures InPrompt(batch.lens, i, kv, k) <==> k.batch == i && InBatch(c, |batch.rows|, k)
    {
      InPromptIsInBatch(c, batch, i, kv, k);
    }
    PrefillLogsFit(c, s.batches, i, kv, logs);
  }

  lemma InPromptIsInBatch<V>(c: Layout, batch: BatchState, i: nat, kv: PromptKV<V>, k: Key)
    requires PromptShaped(c, kv, |batch.rows|, MaxLen(batch.rows)) && |batch.lens| == |batch.rows|
    requires forall t, p, b | 0 <= t < |kv| && 0 <= p < |kv[t]| && 0 <= b < |batch.rows| :: batch.lens[b] <= |kv[t][p][b]|
    ensures InPrompt(batch.lens, i, kv, k) <==> k.batch == i && InBatch(c, |batch.rows|, k)
  {
  }

  lemma PrefillLogsFit<V>(c: Layout, bs: seq<BatchState>, i: nat, kv: PromptKV<V>, logs: Logs<V>)
    requires i < |bs| && LogsFit(c, bs, logs) && bs[i].phase == Created && |bs[i].lens| == |bs[i].rows|
    requires forall k: Key :: InPrompt(bs[i].lens, i, kv, k) <==> k.batch == i && InBatch(c, |bs[i].rows|, k)
    ensures LogsFit(c, bs[i := bs[i].(phase := Prefilled)], PrefillLogs(logs, bs[i].lens, i, kv))
  {
    var logs' := PrefillLogs(logs, bs[i].lens, i, kv);
    var bs' := bs[i := bs[i].(phase := Prefilled)];
    forall k: Key
      ensures k in logs' <==> Tracked(c, bs', k)
      ensures k in logs' ==> |logs'[k]| == bs'[k.batch].lens[k.row]
    {
    }
  }

  lemma DecodeLogsFit<V>(c: Layout, bs: seq<BatchState>, i: nat, batch: BatchState, kv: TokenKV<V>, logs: Logs<V>)
    requires i < |bs| && LogsFit(c, bs, logs) && bs[i].phase == batch.phase == Prefilled
    requires |batch.rows| == |bs[i].rows| == |bs[i].lens| && batch.lens == Increment(bs[i].lens)
    requires TokenShaped(c, kv, |batch.rows|)
    ensures LogsFit(c, bs[i := batch], DecodeLogs(logs, i, kv))
  {
    var logs', bs' := DecodeLogs(logs, i, kv), bs[i := batch];
    forall k: Key
      ensures k in logs' <==> Tracked(c, bs', k)
      ensures k in logs' ==> |logs'[k]| == bs'[k.batch].lens[k.row]
    {
      assert k in logs <==> Tracked(c, bs, k);
    }
  }

  /** Where a history is stored depends on the rows of the batches only. */
  lemma StoredByRows<V>(c: Layout, table: imap<Cell, V>, bs: seq<BatchState>, bs': seq<BatchState>, logs: Logs<V>)
    requires c.stride > 0 && Stored(c, table, bs, logs) && |bs| <= |bs'|
    requires forall i | 0 <= i < |bs| :: bs'[i].rows == bs[i].rows
    ensures Stored(c, table, bs', logs)
  {
    forall k: Key, pos: nat | k in logs && pos < |logs[k]|
      ensures StoredAt(c, table, bs', k, pos, logs[k][pos])
    {
      assert StoredAt(c, table, bs, k, pos, logs[k][pos]);
    }
  }

  lemma PrefillFits(c: Layout, bs: seq<BatchState>, i: nat)
    requires c.stride > 0 && i < |bs| && bs[i].phase == Created
    requires AllFit(c, bs)
    ensures AllFit(c, bs[i := bs[i].(phase := Prefilled)])
  {
    var batch := bs[i].(phase := Prefilled);
    forall b | 0 <= b < |batch.rows| ensures RowFits(c, batch, b) {
      assert RowFits(c, bs[i], b);
    }
  }

  /** The token matrix of a prefill is wide enough for every prompt of the batch. */
  lemma PromptHoldsLengths<V>(c: Layout, batch: BatchState, kv: PromptKV<V>)
    requires c.stride > 0 && batch.phase != Broken && BatchFits(c, batch)
    requires PromptShaped(c, kv, |batch.rows|, MaxLen(batch.rows))
    ensures forall t, p, b | 0 <= t < |kv| && 0 <= p < |kv[t]| && 0 <= b < |batch.rows| :: batch.lens[b] <= |kv[t][p][b]|
  {
    BatchHasPages(c, batch);
    MaxLenBounds(batch.rows);
    var room := MaxLen(batch.rows) * c.stride;
    DivAtLeast(c.stride, MaxLen(batch.rows), room);
    forall b | 0 <= b < |batch.lens| ensures batch.lens[b] <= room {
      assert batch.lens[b] > room ==> HasPage(c, batch.rows, b, room);
    }
  }

  /** After a decode the table holds every history, the ones of its own batch one entry longer. */
  lemma DecodeTable<V>(c: Layout, pages: nat, table: imap<Cell, V>, table': imap<Cell, V>, i: nat, positions: seq<nat>,
                       kv: TokenKV<V>, free: seq<nat>, bs: seq<BatchState>, logs: Logs<V>)
    requires c.stride > 0 && Owned(free, bs, pages) && i < |bs|
    requires TokenShaped(c, kv, |bs[i].rows|) && |positions| == |bs[i].rows|
    requires Scattered(table, table', TokenWrites(c, PadBlockIds(bs[i].rows), positions, kv, |kv|))
    requires forall b | 0 <= b < |bs[i].rows| :: HasPage(c, bs[i].rows, b, positions[b])
    requires forall k: Key | k in logs :: k.batch == i ==> InBatch(c, |bs[i].rows|, k) && |logs[k]| == positions[k.row]
    requires Stored(c, table, bs, logs)
    ensures Stored(c, table', bs, DecodeLogs(logs, i, kv))
  {
    var logs' := DecodeLogs(logs, i, kv);
    var writes := TokenWrites(c, PadBlockIds(bs[i].rows), positions, kv, |kv|);
    forall k: Key, pos: nat | k in logs' && pos < |logs'[k]|
      ensures StoredAt(c, table', bs, k, pos, logs'[k][pos])
    {
      if pos < |logs[k]| {
        assert StoredAt(c, table, bs, k, pos, logs[k][pos]);
        TokenWriteLands(c, free, bs, pages, i, positions, kv, k, pos);
        assert table'[Home(c, bs, k, pos)] == table[Home(c, bs, k, pos)];
      } else {
        assert k.batch == i && pos == positions[k.row];
        TokenWriteLands(c, free, bs, pages, i, positions, kv, k, pos);
        ScatterRead(table, table', writes, Home(c, bs, k, pos), kv[k.block][k.partition][k.row]);
      }
    }
  }

  lemma DecodeFaithful<V>(c: Layout, pages: nat, s: State<V>, s': State<V>, i: nat, kv: TokenKV<V>, out: PromptKV<V>, logs: Logs<V>)
    requires c.stride > 0 && Faithful(c, pages, s, logs) && DecodeStep(c, s, s', i, kv, out)
    ensures Faithful(c, pages, s', if s'.batches[i].phase == Prefilled then DecodeLogs(logs, i, kv) else DropLogs(logs, i))
  {
    DecodeOwned(c, pages, s, s', i, kv, out);
    DecodeStored(c, pages, s, s', i, kv, out, logs);
    DecodeShapes(c, pages, s, s', i, kv, out, logs);
    hide DecodeStep, Owned, AllFit, LogsFit, Stored, DecodeLogs, DropLogs;
  }

  lemma DecodeShapes<V>(c: Layout, pages: nat, s: State<V>, s': State<V>, i: nat, kv: TokenKV<V>, out: PromptKV<V>, logs: Logs<V>)
    requires c.stride > 0 && Faithful(c, pages, s, logs) && DecodeStep(c, s, s', i, kv, out)
    ensures i < |s'.batches| && forall cell: Cell :: cell in s'.table <==> InRange(c, pages, cell)
    ensures AllFit(c, s'.batches)
    ensures LogsFit(c, s'.batches, if s'.batches[i].phase == Prefilled then DecodeLogs(logs, i, kv) else DropLogs(logs, i))
  {
    hide Owned, Stored;
    DecodeFits(c, s.free, s.batches[i]);
    if s'.batches[i].phase == Prefilled {
      DecodeLogsFit(c, s.batches, i, s'.batches[i], kv, logs);
    }
  }

  lemma DecodeOwned<V>(c: Layout, pages: nat, s: State<V>, s': State<V>, i: nat, kv: TokenKV<V>, out: PromptKV<V>)
    requires c.stride > 0 && Owned(s.free, s.batches, pages) && DecodeStep(c, s, s', i, kv, out)
    ensures Owned(s'.free, s'.batches, pages)
    ensures SameHeld(s.free, s.batches, s'.free, s'.batches)
  {
    var batch := s.batches[i];
    var needs := DecodeNeeds(c.stride, Increment(batch.lens));
    var g := GrowRows(s.free, batch.rows, needs, |batch.rows|);
    GrowRowsOwned(s.free, s.batches, i, needs, |batch.rows|, pages);
    SamePlaces(g.free, WithRows(s.batches, i, g.rows), s'.batches, pages);
  }

  lemma DecodeStored<V>(c: Layout, pages: nat, s: State<V>, s': State<V>, i: nat, kv: TokenKV<V>, out: PromptKV<V>, logs: Logs<V>)
    requires c.stride > 0 && Faithful(c, pages, s, logs) && DecodeStep(c, s, s', i, kv, out)
    ensures Stored(c, s'.table, s'.batches, if s'.batches[i].phase == Prefilled then DecodeLogs(logs, i, kv) else DropLogs(logs, i))
  {
    var batch := s.batches[i];
    var needs := DecodeNeeds(c.stride, Increment(batch.lens));
    var g := GrowRows(s.free, batch.rows, needs, |batch.rows|);
    var bs := WithRows(s.batches, i, g.rows);
    DecodeMovesNoHistory(c, s.table, s.free, s.batches, i, needs, logs);
    if g.ok {
      hide Owned, StoredAt, GrowRows;
      GrowRowsOwned(s.free, s.batches, i, needs, |batch.rows|, pages);
      DecodeFits(c, s.free, batch);
      DecodeTable(c, pages, s.table, s'.table, i, batch.lens, kv, g.free, bs, logs);
      StoredByRows(c, s'.table, bs, s'.batches, DecodeLogs(logs, i, kv));
    } else {
      StoredByRows(c, s.table, bs, s'.batches, logs);
    }
  }

  /** Growing the rows of a batch leaves the stored positions where they were. */
  lemma DecodeMovesNoHistory<V>(c: Layout, table: imap<Cell, V>, free: seq<nat>, bs: seq<BatchState>, i: nat,
                                needs: seq<nat>, logs: Logs<V>)
    requires c.stride > 0 && i < |bs| && |needs| == |bs[i].rows| && Stored(c, table, bs, logs)
    ensures Stored(c, table, WithRows(bs, i, GrowRows(free, bs[i].rows, needs, |bs[i].rows|).rows), logs)
  {
    var rows := bs[i].rows;
    GrowRowsFit(free, rows, needs, |rows|);
    var g := GrowRows(free, rows, needs, |rows|);
    var bs' := WithRows(bs, i, g.rows);
    forall k: Key, pos: nat | k in logs && pos < |logs[k]|
      ensures StoredAt(c, table, bs', k, pos, logs[k][pos])
    {
      assert StoredAt(c, table, bs, k, pos, logs[k][pos]);
      if k.batch == i {
        assert g.rows[k.row][..|rows[k.row]|] == rows[k.row];
      }
    }
  }

  /** Room for position `len`, and a slot left over behind it. */
  predicate LeavesRoom(c: Layout, row: seq<nat>, len: nat)
    requires c.stride > 0
  {
    && |row| == (len + 1) / c.stride + 1
    && len / c.stride < |row|
    && len + 1 < |row| * c.stride
  }

  /** A decode that finds its pages leaves each row with exactly one block more than its full blocks:
      room for the position it writes, and a free slot behind it. */
  lemma DecodeFits(c: Layout, free: seq<nat>, batch: BatchState)
    requires c.stride > 0 && batch.phase != Broken && BatchFits(c, batch)
    ensures var lens := Increment(batch.lens);
      var g := GrowRows(free, batch.rows, DecodeNeeds(c.stride, lens), |batch.rows|);
      g.ok ==>
        && (forall b | 0 <= b < |batch.rows| :: LeavesRoom(c, g.rows[b], batch.lens[b]))
        && (forall b | 0 <= b < |batch.rows| :: HasPage(c, g.rows, b, batch.lens[b]))
        && BatchFits(c, BatchState(lens, g.rows, Prefilled))
  {
    var lens := Increment(batch.lens);
    var needs := DecodeNeeds(c.stride, lens);
    var g := GrowRows(free, batch.rows, needs, |batch.rows|);
    GrowRowsFit(free, batch.rows, needs, |batch.rows|);
    if g.ok {
      forall b | 0 <= b < |batch.rows|
        ensures LeavesRoom(c, g.rows[b], batch.lens[b]) && HasPage(c, g.rows, b, batch.lens[b])
        ensures RowFits(c, BatchState(lens, g.rows, Prefilled), b)
      {
        assert RowFits(c, batch, b);
        DecodeBlocksExact(c.stride, lens[b]);
        CeilDivBounds(c.stride, lens[b]);
        DivSteps(c.stride, batch.lens[b]);
        DivSteps(c.stride, lens[b]);
      }
    }
  }

  /** A slot goes, and its page is free. */
  ghost predicate Freed(free: seq<nat>, bs: seq<BatchState>, free': seq<nat>, bs': seq<BatchState>, last: Slot) {
    && ValidSlot(bs, last) && free' == free + [PageAt(bs, last)]
    && (forall x: Slot :: ValidSlot(bs', x) <==> ValidSlot(bs, x) && x != last)
    && (forall x: Slot | ValidSlot(bs', x) :: PageAt(bs', x) == PageAt(bs, x))
  }

  lemma ReleaseFrees<V>(s: State<V>, s': State<V>, i: nat, b: nat)
    requires ReleaseStep(s, s', i, b)
    ensures Freed(s.free, s.batches, s'.free, s'.batches, Slot(i, b, |s.batches[i].rows[b]| - 1))
  {
  }

  lemma FreedOwned(free: seq<nat>, bs: seq<BatchState>, free': seq<nat>, bs': seq<BatchState>, last: Slot, pages: nat)
    requires Freed(free, bs, free', bs', last) && Owned(free, bs, pages)
    ensures Owned(free', bs', pages)
  {
    hide ValidSlot, PageAt;
  }

  lemma FreedHeld(free: seq<nat>, bs: seq<BatchState>, free': seq<nat>, bs': seq<BatchState>, last: Slot)
    requires Freed(free, bs, free', bs', last)
    ensures SameHeld(free, bs, free', bs')
  {
    hide ValidSlot, PageAt;
    forall page: nat ensures Held(free, bs, page) <==> Held(free', bs', page) {
      if x: Slot :| ValidSlot(bs, x) && PageAt(bs, x) == page {
        assert x != last ==> ValidSlot(bs', x) && PageAt(bs', x) == page;
      }
    }
  }

  lemma ReleaseOwned<V>(s: State<V>, s': State<V>, i: nat, b: nat, pages: nat)
    requires Owned(s.free, s.batches, pages) && ReleaseStep(s, s', i, b)
    ensures Owned(s'.free, s'.batches, pages)
    ensures SameHeld(s.free, s.batches, s'.free, s'.batches)
  {
    var last := Slot(i, b, |s.batches[i].rows[b]| - 1);
    hide Owned, SameHeld, Freed;
    ReleaseFrees(s, s', i, b);
    FreedOwned(s.free, s.batches, s'.free, s'.batches, last, pages);
    FreedHeld(s.free, s.batches, s'.free, s'.batches, last);
  }

  lemma ReleaseFaithful<V>(c: Layout, pages: nat, s: State<V>, s': State<V>, i: nat, b: nat, logs: Logs<V>)
    requires c.stride > 0 && Faithful(c, pages, s, logs) && ReleaseStep(s, s', i, b)
    ensures Faithful(c, pages, s', DropLogs(logs, i))
  {
    ReleaseOwned(s, s', i, b, pages);
    forall k: Key, pos: nat | k in DropLogs(logs, i) && pos < |logs[k]|
      ensures StoredAt(c, s'.table, s'.batches, k, pos, logs[k][pos])
    {
      assert StoredAt(c, s.table, s.batches, k, pos, logs[k][pos]);
    }
  }

  // ---- Every run ----

  ghost function NextLogs<V>(logs: Logs<V>, s: State<V>, s': State<V>, e: Event<V>): Logs<V> {
    match e
    case Begin(_) => logs
    case Prefill(i, kv) => if i < |s.batches| then PrefillLogs(logs, s.batches[i].lens, i, kv) else logs
    case Decode(i, kv, _) =>
      if i < |s'.batches| && s'.batches[i].phase == Prefilled then DecodeLogs(logs, i, kv) else DropLogs(logs, i)
    case Release(i, _) => DropLogs(logs, i)
  }

  lemma StepFaithful<V>(c: Layout, pages: nat, s: State<V>, s': State<V>, e: Event<V>, logs: Logs<V>)
    requires c.stride > 0 && Faithful(c, pages, s, logs) && Step(c, s, s', e)
    ensures Faithful(c, pages, s', NextLogs(logs, s, s', e))
  {
    hide Faithful, PrefillLogs, DecodeLogs, DropLogs, Scattered;
    match e
    case Begin(lens) => BeginFaithful(c, pages, s, s', lens, logs);
    case Prefill(i, kv) => PrefillFaithful(c, pages, s, s', i, kv, logs);
    case Decode(i, kv, out) => DecodeFaithful(c, pages, s, s', i, kv, out, logs);
    case Release(i, b) => ReleaseFaithful(c, pages, s, s', i, b, logs);
  }

  /** The histories after the first `n` events of a run. */
  ghost function LogsAfter<V>(states: seq<State<V>>, events: seq<Event<V>>, n: nat): Logs<V>
    requires n <= |events| && |states| == |events| + 1
  {
    if n == 0 then imap[] else NextLogs(LogsAfter(states, events, n - 1), states[n - 1], states[n], events[n - 1])
  }

  lemma InitFaithful<V>(c: Layout, pages: nat, s: State<V>)
    requires c.stride > 0 && Init(c, pages, s)
    ensures Faithful(c, pages, s, imap[])
  {
  }

  /** In every state of every run the page table holds the history of every sequence. */
  lemma {:induction false} RunFaithful<V>(c: Layout, pages: nat, states: seq<State<V>>, events: seq<Event<V>>, n: nat)
    requires Run(c, pages, states, events) && n <= |events|
    ensures Faithful(c, pages, states[n], LogsAfter(states, events, n))
  {
    if n == 0 {
      InitFaithful(c, pages, states[0]);
    } else {
      RunFaithful(c, pages, states, events, n - 1);
      assert StepAt(c, states, events, n - 1);
      StepFaithful(c, pages, states[n - 1], states[n], events[n - 1], LogsAfter(states, events, n - 1));
    }
  }

  /** What a decode shows the attention of a sequence, in every transformer block and partition, is
      the history of that sequence: its prompt and every decoded token, in order, and nothing else. */
  lemma DecodeReadsHistory<V>(c: Layout, pages: nat, states: seq<State<V>>, events: seq<Event<V>>, n: nat, k: Key)
    requires Run(c, pages, states, events) && n < |events| && events[n].Decode?
    requires events[n].i == k.batch < |states[n + 1].batches| && Tracked(c, states[n + 1].batches, k)
    ensures k in LogsAfter(states, events, n + 1)
    ensures k.row < |states[n + 1].batches[k.batch].lens|
    ensures k.block < |events[n].out| && k.partition < |events[n].out[k.block]| && k.row < |events[n].out[k.block][k.partition]|
    ensures var row := events[n].out[k.block][k.partition][k.row];
      Unmasked(row, InputMask(states[n + 1].batches[k.batch].lens[k.row], |row|)) == LogsAfter(states, events, n + 1)[k]
  {
    RunFaithful(c, pages, states, events, n + 1);
    assert StepAt(c, states, events, n);
    var logs, bs := LogsAfter(states, events, n + 1), states[n + 1].batches;
    DecodeOutput(c, states[n], states[n + 1], k.batch, events[n].token, events[n].out, logs, k);
    InputMaskShowsPrefix(events[n].out[k.block][k.partition][k.row], |logs[k]|);
  }

  /** What a decode shows a sequence is what the last token of a one-shot prefill of the same history would see,
      however that prefill is padded. */
  lemma DecodeShowsLikePrefill<V>(c: Layout, pages: nat, states: seq<State<V>>, events: seq<Event<V>>, n: nat, k: Key,
                                  prompt: seq<V>, contextLength: nat)
    requires Run(c, pages, states, events) && n < |events| && events[n].Decode?
    requires events[n].i == k.batch < |states[n + 1].batches| && Tracked(c, states[n + 1].batches, k)
    requires k in LogsAfter(states, events, n + 1) && LogsAfter(states, events, n + 1)[k] <= prompt
    requires |prompt| <= contextLength
    ensures k.row < |states[n + 1].batches[k.batch].lens|
    ensures k.block < |events[n].out| && k.partition < |events[n].out[k.block]| && k.row < |events[n].out[k.block][k.partition]|
    ensures var len, row := states[n + 1].batches[k.batch].lens[k.row], events[n].out[k.block][k.partition][k.row];
      && 0 < len <= |prompt|
      && Unmasked(row, InputMask(len, |row|)) == Unmasked(prompt, AttentionMask(len, |prompt|, contextLength)[len - 1])
  {
    hide LogsAfter, Tracked, Unmasked, InputMask, AttentionMask, StepAt, Init;
    DecodeReadsHistory(c, pages, states, events, n, k);
    LogLength(c, pages, states, events, n, k);
    ShownAlike(events[n].out[k.block][k.partition][k.row], prompt, LogsAfter(states, events, n + 1)[k], contextLength);
  }

  lemma LogLength<V>(c: Layout, pages: nat, states: seq<State<V>>, events: seq<Event<V>>, n: nat, k: Key)
    requires Run(c, pages, states, events) && n < |events| && events[n].Decode?
    requires events[n].i == k.batch < |states[n + 1].batches| && Tracked(c, states[n + 1].batches, k)
    requires k in LogsAfter(states, events, n + 1) && k.row < |states[n + 1].batches[k.batch].lens|
    ensures |LogsAfter(states, events, n + 1)[k]| == states[n + 1].batches[k.batch].lens[k.row] > 0
  {
    hide Faithful, LogsAfter, DecodeStep, Tracked;
    RunFaithful(c, pages, states, events, n + 1);
    FaithfulLength(c, pages, states[n + 1], LogsAfter(states, events, n + 1), k);
    assert StepAt(c, states, events, n);
    DecodedLength(c, states[n], states[n + 1], k.batch, events[n].token, events[n].out, k.row);
  }

  lemma FaithfulLength<V>(c: Layout, pages: nat, s: State<V>, logs: Logs<V>, k: Key)
    requires c.stride > 0 && Faithful(c, pages, s, logs) && k in logs
    ensures Tracked(c, s.batches, k) && k.row < |s.batches[k.batch].lens| && |logs[k]| == s.batches[k.batch].lens[k.row]
  {
  }

  lemma DecodedLength<V>(c: Layout, s: State<V>, s': State<V>, i: nat, kv: TokenKV<V>, out: PromptKV<V>, b: nat)
    requires c.stride > 0 && DecodeStep(c, s, s', i, kv, out) && b < |s'.batches[i].lens|
    ensures s'.batches[i].lens[b] > 0
  {
  }

  /** A row that shows a history shows what the last token of a prefill sees that begins with it. */
  lemma ShownAlike<V>(row: seq<V>, prompt: seq<V>, log: seq<V>, contextLength: nat)
    requires 0 < |log| && log <= prompt && |prompt| <= contextLength && Unmasked(row, InputMask(|log|, |row|)) == log
    ensures Unmasked(row, InputMask(|log|, |row|)) == Unmasked(prompt, AttentionMask(|log|, |prompt|, contextLength)[|log| - 1])
  {
    hide Unmasked, InputMask, AttentionMask;
    DecodeSeesLikePrefill(|log|, |prompt|, contextLength);
    InputMaskShowsPrefix(prompt, |log|);
    assert prompt[..|log|] == log;
  }

  lemma DecodeOutput<V>(c: Layout, s: State<V>, s': State<V>, i: nat, kv: TokenKV<V>, out: PromptKV<V>, logs: Logs<V>, k: Key)
    requires c.stride > 0 && DecodeStep(c, s, s', i, kv, out) && k.batch == i && Tracked(c, s'.batches, k)
    requires k in logs && Stored(c, s'.table, s'.batches, logs)
    ensures k.block < |out| && k.partition < |out[k.block]| && k.row < |out[k.block][k.partition]|
    ensures var row := out[k.block][k.partition][k.row];
      |logs[k]| <= |row| && row[..|logs[k]|] == logs[k]
  {
    var rows := s'.batches[i].rows;
    var row := out[k.block][k.partition][k.row];
    MaxLenBounds(rows);
    DivAtLeast(c.stride, MaxLen(rows), |row|);
    assert |logs[k]| > |row| ==> StoredAt(c, s'.table, s'.batches, k, |row|, logs[k][|row|]);
    forall pos | 0 <= pos < |logs[k]| ensures row[pos] == logs[k][pos] {
      assert StoredAt(c, s'.table, s'.batches, k, pos, logs[k][pos]);
      PaddingKeepsTargets(c, rows, k.row, pos, k.block, k.partition);
    }
  }

  lemma OtherBatchKeepsLog<V>(logs: Logs<V>, s: State<V>, s': State<V>, e: Event<V>, k: Key)
    requires k in logs && (e.Begin? || e.i != k.batch)
    ensures k in NextLogs(logs, s, s', e) && NextLogs(logs, s, s', e)[k] == logs[k]
  {
  }

  /** An event of one batch never changes the history, and so the stored entries, of another. */
  lemma BatchesDoNotInterfere<V>(c: Layout, pages: nat, states: seq<State<V>>, events: seq<Event<V>>, n: nat, k: Key)
    requires Run(c, pages, states, events) && n < |events| && k in LogsAfter(states, events, n)
    requires events[n].Begin? || events[n].i != k.batch
    ensures var log := LogsAfter(states, events, n)[k];
      && k in LogsAfter(states, events, n + 1) && LogsAfter(states, events, n + 1)[k] == log
      && forall pos | 0 <= pos < |log| :: StoredAt(c, states[n + 1].table, states[n + 1].batches, k, pos, log[pos])
  {
    hide Owned, AllFit, LogsFit, StoredAt, StepAt, Init;
    var logs := LogsAfter(states, events, n);
    OtherBatchKeepsLog(logs, states[n], states[n + 1], events[n], k);
    assert LogsAfter(states, events, n + 1) == NextLogs(logs, states[n], states[n + 1], events[n]);
    RunFaithful(c, pages, states, events, n + 1);
  }

  // ---- Page tables of one batch ----

  /** The padded page table of a batch names no page twice, apart from the padding. */
  lemma OwnedPagesDistinct(free: seq<nat>, bs: seq<BatchState>, pages: nat, i: nat)
    requires Owned(free, bs, pages) && i < |bs|
    ensures DirectCache.DistinctPages(PadBlockIds(bs[i].rows))
  {
    var rows := bs[i].rows;
    var ids := PadBlockIds(rows);
    forall b, j, b', j' | 0 <= b < |ids| && 0 <= j < |ids[b]| && 0 <= b' < |ids| && 0 <= j' < |ids[b']|
        && ids[b][j] == ids[b'][j'] && ids[b][j] != 0
      ensures b == b' && j == j'
    {
      var x, y := Slot(i, b, j), Slot(i, b', j');
      assert ValidSlot(bs, x) && ValidSlot(bs, y) && PageAt(bs, x) == ids[b][j] && PageAt(bs, y) == ids[b'][j'];
    }
  }

  /** So in every state of every run the page table of every batch is one through which the paged cache refines the direct one. */
  lemma RunPagesDistinct<V>(c: Layout, pages: nat, states: seq<State<V>>, events: seq<Event<V>>, n: nat, i: nat)
    requires Run(c, pages, states, events) && n <= |events| && i < |states[n].batches|
    ensures DirectCache.DistinctPages(PadBlockIds(states[n].batches[i].rows))
  {
    RunFaithful(c, pages, states, events, n);
    hide DirectCache.DistinctPages, PadBlockIds, AllFit, LogsFit, Stored;
    OwnedPagesDistinct(states[n].free, states[n].batches, pages, i);
  }

  // ---- Conservation of pages ----

  /** The prompts of a new batch take more pages than are free, but some are.  A batch that cannot be constructed never
      gives back the pages it had already popped. */
  ghost predicate Leaks<V>(c: Layout, s: State<V>, e: Event<V>)
    requires c.stride > 0
  {
    e.Begin? && 0 < |s.free| < PromptPages(c.stride, e.lens)
  }

  ghost predicate LeakAt<V>(c: Layout, states: seq<State<V>>, events: seq<Event<V>>, n: nat)
    requires c.stride > 0
  {
    n < |events| && n < |states| && Leaks(c, states[n], events[n])
  }

  ghost predicate Complete<V>(pages: nat, s: State<V>) {
    forall page | 1 <= page < pages :: Held(s.free, s.batches, page)
  }

  lemma StepHeld<V>(c: Layout, pages: nat, s: State<V>, s': State<V>, e: Event<V>)
    requires c.stride > 0 && Owned(s.free, s.batches, pages) && Step(c, s, s', e)
    ensures Owned(s'.free, s'.batches, pages)
    ensures Complete(pages, s') <==> Complete(pages, s) && !Leaks(c, s, e)
  {
    match e
    case Begin(lens) =>
      BeginOwned(c, pages, s, s', lens);
      GrowRowsFit(s.free, Repeat([], |lens|), PromptNeeds(c.stride, lens), |lens|);
      BeginSucceeds(c.stride, s.free, lens);
      if Leaks(c, s, e) {
        assert !Held(s'.free, s'.batches, s.free[0]);
      }
    case Prefill(i, kv) => SamePlaces(s.free, s.batches, s'.batches, pages);
    case Decode(i, kv, out) => DecodeOwned(c, pages, s, s', i, kv, out);
    case Release(i, b) => ReleaseOwned(s, s', i, b, pages);
  }

  /** In every state of every run no page is in two places and page 0 is in none; and all pages are
      accounted for exactly if no batch construction has run out of pages after popping some. */
  lemma {:induction false} PagesConserved<V>(c: Layout, pages: nat, states: seq<State<V>>, events: seq<Event<V>>, n: nat)
    requires Run(c, pages, states, events) && n <= |events|
    ensures Owned(states[n].free, states[n].batches, pages)
    ensures Complete(pages, states[n]) <==> forall m | 0 <= m < n :: !LeakAt(c, states, events, m)
  {
    if n == 0 {
      InitComplete(c, pages, states[0]);
    } else {
      PagesConserved(c, pages, states, events, n - 1);
      assert StepAt(c, states, events, n - 1);
      StepHeld(c, pages, states[n - 1], states[n], events[n - 1]);
      assert LeakAt(c, states, events, n - 1) <==> Leaks(c, states[n - 1], events[n - 1]);
    }
  }

  /** Two prompts of one block each take the only page of a new generator and lose it. */
  lemma LeakingRun<V>(c: Layout, table: imap<Cell, V>)
    requires c.stride > 0 && forall cell: Cell :: cell in table <==> InRange(c, 2, cell)
    ensures var states := [State([1], table, []), State([], table, [])];
      var events: seq<Event<V>> := [Begin([1, 1])];
      Run(c, 2, states, events) && LeakAt(c, states, events, 0) && !Complete(2, states[1])
  {
    var states := [State([1], table, []), State([], table, [])];
    var events: seq<Event<V>> := [Begin([1, 1])];
    CeilDivIs(c.stride, 0, 1);
    assert PromptNeeds(c.stride, [1, 1]) == [1, 1] && Repeat<seq<nat>>([], 2) == [[], []];
    OneOfTwo();
    assert PromptPages(c.stride, [1, 1]) == 2 by {
      assert [1, 1][..1] == [1] && [1][..0] == [];
      assert PromptPages(c.stride, [1]) == PromptPages(c.stride, []) + 1;
    }
    assert StepAt(c, states, events, 0);
    assert !Held(states[1].free, states[1].batches, 1);
  }

  lemma OneOfTwo()
    ensures var g := GrowRows([1], [[], []], [1, 1], 2); g.free == [] && !g.ok
  {
    assert Grow([1], [], 1) == Grow([], [1], 1) by {
      assert [1][..0] == [] && [] + [1] == [1];
    }
    assert GrowRows([1], [[], []], [1, 1], 0) == GrownRows([1], [[], []], true);
    assert GrowRows([1], [[], []], [1, 1], 1) == GrownRows([], [[1], []], true);
  }

  lemma InitComplete<V>(c: Layout, pages: nat, s: State<V>)
    requires Init(c, pages, s)
    ensures Owned(s.free, s.batches, pages) && Complete(pages, s)
  {
    forall page | 1 <= page < pages ensures page in s.free {
      assert s.free[page - 1] == page;
    }
  }

  lemma DecodeRoom<V>(c: Layout, pages: nat, s: State<V>, s': State<V>, i: nat, kv: TokenKV<V>, out: PromptKV<V>, b: nat)
    requires c.stride > 0 && DecodeStep(c, s, s', i, kv, out) && s'.batches[i].phase == Prefilled
    requires AllFit(c, s.batches) && b < |s.batches[i].lens|
    ensures b < |s'.batches[i].rows| && LeavesRoom(c, s'.batches[i].rows[b], s.batches[i].lens[b])
  {
    DecodeFits(c, s.free, s.batches[i]);
  }

  /** A decode that finds its pages leaves every row with exactly one block more than its full blocks,
      so that the position it writes is on a page of its own and at least one slot stays free. */
  lemma DecodeLeavesRoom<V>(c: Layout, pages: nat, states: seq<State<V>>, events: seq<Event<V>>, n: nat, b: nat)
    requires Run(c, pages, states, events) && n < |events| && events[n].Decode?
    requires events[n].i < |states[n].batches| && events[n].i < |states[n + 1].batches|
    requires states[n + 1].batches[events[n].i].phase == Prefilled && b < |states[n].batches[events[n].i].lens|
    ensures b < |states[n + 1].batches[events[n].i].rows|
    ensures LeavesRoom(c, states[n + 1].batches[events[n].i].rows[b], states[n].batches[events[n].i].lens[b])
    ensures RealPages(states[n + 1].batches[events[n].i].rows[b], pages)
  {
    RunFaithful(c, pages, states, events, n);
    assert StepAt(c, states, events, n);
    DecodeRoom(c, pages, states[n], states[n + 1], events[n].i, events[n].token, events[n].out, b);
    PagesConserved(c, pages, states, events, n + 1);
    RowsHoldRealPages(states[n + 1].free, states[n + 1].batches, pages, events[n].i, b);
  }

  /** No entry of the row is the padding page. */
  predicate RealPages(row: seq<nat>, pages: nat) {
    forall j | 0 <= j < |row| :: 1 <= row[j] < pages
  }

  lemma RowsHoldRealPages(free: seq<nat>, bs: seq<BatchState>, pages: nat, i: nat, b: nat)
    requires Owned(free, bs, pages) && i < |bs| && b < |bs[i].rows|
    ensures RealPages(bs[i].rows[b], pages)
  {
    forall j | 0 <= j < |bs[i].rows[b]| ensures 1 <= bs[i].rows[b][j] < pages {
      assert ValidSlot(bs, Slot(i, b, j)) && PageAt(bs, Slot(i, b, j)) == bs[i].rows[b][j];
    }
  }
}
