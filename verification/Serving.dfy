/** What one step of a generator does to its free list, to the page table and to its batches:
    the specification that the classes of `Generator` meet and that `ServingRuns` reasons about. */
module Serving {
  import opened Paging
  import opened Radices
  import opened Scatter

  // ---- Page allocation ----

  datatype Grown = Grown(free: seq<nat>, row: seq<nat>, ok: bool)

  /** Appends pages popped from the end of the free list until the row has `needed` of them.
      Popping an empty list fails and leaves the row as far as it got. */
  function Grow(free: seq<nat>, row: seq<nat>, needed: nat): Grown
    decreases needed - |row|
  {
    if |row| >= needed then Grown(free, row, true)
    else if free == [] then Grown(free, row, false)
    else Grow(free[..|free| - 1], row + [free[|free| - 1]], needed)
  }

  datatype GrownRows = GrownRows(free: seq<nat>, rows: seq<seq<nat>>, ok: bool)

  /** Grows the first `n` rows in order, stopping at the first one that fails. */
  function GrowRows(free: seq<nat>, rows: seq<seq<nat>>, needed: seq<nat>, n: nat): GrownRows
    requires n <= |rows| == |needed|
    ensures |GrowRows(free, rows, needed, n).rows| == |rows|
    ensures forall b | n <= b < |rows| :: GrowRows(free, rows, needed, n).rows[b] == rows[b]
  {
    if n == 0 then GrownRows(free, rows, true)
    else
      var g := GrowRows(free, rows, needed, n - 1);
      if !g.ok then g
      else
        var r := Grow(g.free, rows[n - 1], needed[n - 1]);
        GrownRows(r.free, g.rows[n - 1 := r.row], r.ok)
  }

  /** Blocks a new batch takes for a prompt of `len` tokens. */
  function PromptBlocks(stride: nat, len: nat): nat
    requires stride > 0
  {
    CeilDiv(len, stride)
  }

  /** Blocks `allocate_seq_block_ids` wants for a sequence of `len` tokens. */
  function DecodeBlocks(stride: nat, len: nat): nat
    requires stride > 0
  {
    if len % stride == 0 then len / stride + 1 else CeilDiv(len, stride)
  }

  function PromptNeeds(stride: nat, lens: seq<nat>): seq<nat>
    requires stride > 0
  {
    seq(|lens|, b requires 0 <= b < |lens| => PromptBlocks(stride, lens[b]))
  }

  function DecodeNeeds(stride: nat, lens: seq<nat>): seq<nat>
    requires stride > 0
  {
    seq(|lens|, b requires 0 <= b < |lens| => DecodeBlocks(stride, lens[b]))
  }

  function Repeat<T>(v: T, n: nat): seq<T> {
    seq(n, _ => v)
  }

  // ---- Page tables ----

  function MaxLen(rows: seq<seq<nat>>): nat {
    if rows == [] then 0
    else
      var rest := MaxLen(rows[1..]);
      if |rows[0]| > rest then |rows[0]| else rest
  }

  /** `pad_block_ids`: rows of page ids, padded with page 0 to the longest one. */
  function PadBlockIds(rows: seq<seq<nat>>): PageIds {
    seq(|rows|, b requires 0 <= b < |rows| =>
      rows[b] + Repeat(0, if MaxLen(rows) > |rows[b]| then MaxLen(rows) - |rows[b]| else 0))
  }

  /** Keys and values of a whole prompt, by transformer block, partition, sequence and position. */
  type PromptKV<V> = seq<seq<seq<seq<V>>>>

  /** Keys and values of one decoded token, by transformer block, partition and sequence. */
  type TokenKV<V> = seq<seq<seq<V>>>

  predicate PromptShaped<V>(c: Layout, kv: PromptKV<V>, batch: nat, width: nat) {
    && |kv| == c.blockCount
    && (forall t | 0 <= t < |kv| :: |kv[t]| == c.partitionCount)
    && (forall t, p | 0 <= t < |kv| && 0 <= p < c.partitionCount :: |kv[t][p]| == batch)
    && (forall t, p, b | 0 <= t < |kv| && 0 <= p < c.partitionCount && 0 <= b < batch ::
          |kv[t][p][b]| == width * c.stride)
  }

  predicate TokenShaped<V>(c: Layout, kv: TokenKV<V>, batch: nat) {
    && |kv| == c.blockCount
    && (forall t | 0 <= t < |kv| :: |kv[t]| == c.partitionCount)
    && (forall t, p | 0 <= t < |kv| && 0 <= p < c.partitionCount :: |kv[t][p]| == batch)
  }

  /** Everything a prefill stores, transformer blocks `0..n` only. */
  ghost function PromptWrites<V>(c: Layout, ids: PageIds, kv: PromptKV<V>, n: nat): iset<(Cell, V)>
    requires n <= |kv|
  {
    iset t, p, b, pos | 0 <= t < n && 0 <= p < |kv[t]| && 0 <= b < |kv[t][p]| && 0 <= pos < |kv[t][p][b]| ::
      (Target(c, ids, b, pos, t, p), kv[t][p][b][pos])
  }

  /** Everything a decode stores, transformer blocks `0..n` only. */
  ghost function TokenWrites<V>(c: Layout, ids: PageIds, positions: seq<nat>, kv: TokenKV<V>, n: nat): iset<(Cell, V)>
    requires n <= |kv|
  {
    iset t, p, b | 0 <= t < n && 0 <= p < |kv[t]| && 0 <= b < |kv[t][p]| && b < |positions| ::
      (Target(c, ids, b, positions[b], t, p), kv[t][p][b])
  }

  // ---- Steps ----

  /** A batch is usable until an allocation of its own fails or one of its pages is released. */
  datatype Phase = Created | Prefilled | Broken

  datatype BatchState = BatchState(lens: seq<nat>, rows: seq<seq<nat>>, phase: Phase)

  datatype State<!V> = State(free: seq<nat>, table: imap<Cell, V>, batches: seq<BatchState>)

  function Increment(lens: seq<nat>): seq<nat> {
    seq(|lens|, b requires 0 <= b < |lens| => lens[b] + 1)
  }

  ghost predicate BeginStep<V>(c: Layout, s: State<V>, s': State<V>, lens: seq<nat>)
    requires c.stride > 0
  {
    var g := GrowRows(s.free, Repeat([], |lens|), PromptNeeds(c.stride, lens), |lens|);
    s' == if g.ok
          then s.(free := g.free, batches := s.batches + [BatchState(lens, g.rows, Created)])
          else s.(free := g.free)
  }

  ghost predicate PrefillStep<V>(c: Layout, s: State<V>, s': State<V>, i: nat, kv: PromptKV<V>)
    requires c.stride > 0
  {
    && i < |s.batches| && s.batches[i].phase == Created && s.batches[i].rows != []
    && var batch := s.batches[i];
    && PromptShaped(c, kv, |batch.rows|, MaxLen(batch.rows))
    && Scattered(s.table, s'.table, PromptWrites(c, PadBlockIds(batch.rows), kv, |kv|))
    && s' == s.(table := s'.table, batches := s.batches[i := batch.(phase := Prefilled)])
  }

  /** `out` is what the attention layers read back, by transformer block and partition. */
  ghost predicate DecodeStep<V>(c: Layout, s: State<V>, s': State<V>, i: nat, kv: TokenKV<V>, out: PromptKV<V>)
    requires c.stride > 0
  {
    && i < |s.batches| && s.batches[i].phase == Prefilled && s.batches[i].rows != []
    && |s.batches[i].lens| == |s.batches[i].rows|
    && var batch := s.batches[i];
    && var lens := Increment(batch.lens);
    && var g := GrowRows(s.free, batch.rows, DecodeNeeds(c.stride, lens), |batch.rows|);
    && var ids := PadBlockIds(g.rows);
    if g.ok then
      && TokenShaped(c, kv, |batch.rows|)
      && Scattered(s.table, s'.table, TokenWrites(c, ids, batch.lens, kv, |kv|))
      && PromptShaped(c, out, |batch.rows|, MaxLen(g.rows))
      && (forall t, p, b, pos | 0 <= t < c.blockCount && 0 <= p < c.partitionCount && 0 <= b < |batch.rows|
            && 0 <= pos < |out[t][p][b]| ::
            var cell := Target(c, ids, b, pos, t, p);
            cell in s'.table && out[t][p][b][pos] == s'.table[cell])
      && s' == State(g.free, s'.table, s.batches[i := BatchState(lens, g.rows, Prefilled)])
    else
      s' == s.(free := g.free, batches := s.batches[i := BatchState(lens, g.rows, Broken)])
  }

  /** The owner of a batch gives the last page of a row back and forgets it. */
  ghost predicate ReleaseStep<V>(s: State<V>, s': State<V>, i: nat, b: nat) {
    && i < |s.batches| && b < |s.batches[i].rows| && s.batches[i].rows[b] != []
    && var row := s.batches[i].rows[b];
    var batch := s.batches[i].(rows := s.batches[i].rows[b := row[..|row| - 1]], phase := Broken);
    s' == s.(free := s.free + [row[|row| - 1]], batches := s.batches[i := batch])
  }

  datatype Event<!V> =
    | Begin(lens: seq<nat>)
    | Prefill(i: nat, prompt: PromptKV<V>)
    | Decode(i: nat, token: TokenKV<V>, out: PromptKV<V>)
    | Release(i: nat, b: nat)

  ghost predicate Step<V>(c: Layout, s: State<V>, s': State<V>, e: Event<V>)
    requires c.stride > 0
  {
    match e
    case Begin(lens) => BeginStep(c, s, s', lens)
    case Prefill(i, kv) => PrefillStep(c, s, s', i, kv)
    case Decode(i, kv, out) => DecodeStep(c, s, s', i, kv, out)
    case Release(i, b) => ReleaseStep(s, s', i, b)
  }

  /** A new generator: pages `1..pages` are free and page 0 is set aside. */
  ghost predicate Init<V>(c: Layout, pages: nat, s: State<V>) {
    && s.free == seq(if pages > 0 then pages - 1 else 0, i requires i >= 0 => i + 1)
    && s.batches == []
    && forall cell: Cell :: cell in s.table <==> InRange(c, pages, cell)
  }

  ghost predicate StepAt<V>(c: Layout, states: seq<State<V>>, events: seq<Event<V>>, n: nat)
    requires c.stride > 0
  {
    n < |events| && n + 1 < |states| && Step(c, states[n], states[n + 1], events[n])
  }

  /** A run: any number of batches, their steps interleaved in any order. */
  ghost predicate Run<V>(c: Layout, pages: nat, states: seq<State<V>>, events: seq<Event<V>>) {
    && c.stride > 0
    && |states| == |events| + 1
    && Init(c, pages, states[0])
    && forall n | 0 <= n < |events| :: StepAt(c, states, events, n)
  }
}
