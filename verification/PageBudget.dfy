/** Why the page budget of the evaluation suffices. */
module PageBudget {
  import opened Paging
  import opened PageOwnership
  import opened Radices
  import opened Serving

  // ---- Rows that grow evenly ----

  /** Rows of the same length that want the same. */
  lemma {:induction false} EvenShortfall(rows: seq<seq<nat>>, needed: seq<nat>, n: nat, have: nat, want: nat)
    requires n <= |rows| == |needed| && have <= want
    requires forall b | 0 <= b < n :: |rows[b]| == have && needed[b] == want
    ensures Shortfall(rows, needed, n) == n * (want - have)
  {
    if n > 0 {
      EvenShortfall(rows, needed, n - 1, have, want);
      assert n * (want - have) == (n - 1) * (want - have) + (want - have);
    }
  }

  // ---- The evaluation ----

  /** The padded length of the longest prompt. */
  function PaddedLength(stride: nat, longest: nat): nat
    requires stride > 0
  {
    if stride > 1 then stride * CeilDiv(longest, stride) else longest
  }

  function PageCacheSize(stride: nat, longest: nat, batch: nat): nat
    requires stride > 0
  {
    PaddedLength(stride, longest) / stride * batch + 1
  }

  function FullBlocks(stride: nat, n: nat): nat
    requires stride > 0
  {
    n / stride
  }

  /** Blocks of each row after `n` events: the prefill of one token, and then a token for each decode. */
  function BlocksAfter(stride: nat, n: nat): nat
    requires stride > 0
  {
    if n <= 2 then 1 else FullBlocks(stride, n - 1) + 1
  }

  /** The evaluation starts a batch of one token each, prefills it, and decodes until one token before the longest prompt's last. */
  ghost predicate EvaluationEvents<V>(events: seq<Event<V>>, batch: nat, longest: nat) {
    && |events| <= longest
    && forall n | 0 <= n < |events| ::
         if n == 0 then events[n] == Begin(Repeat(1, batch))
         else if n == 1 then events[n].Prefill? && events[n].i == 0
         else events[n].Decode? && events[n].i == 0
  }

  lemma CeilDivOfPadded(stride: nat, longest: nat)
    requires stride > 0 && longest > 0
    ensures PaddedLength(stride, longest) / stride == FullBlocks(stride, longest - 1) + 1
  {
    var q, r := (longest - 1) / stride, (longest - 1) % stride;
    assert longest == q * stride + (r + 1);
    CeilDivIs(stride, q, r + 1);
    MultipleOver(stride, q + 1);
  }

  lemma MultipleOver(stride: nat, k: nat)
    requires stride > 0
    ensures stride * k / stride == k
  {
    RadixDigits(k, 0, stride);
    assert Radix(k, 0, stride) == stride * k;
  }

  /** What holds after `n` events of the evaluation. */
  ghost predicate OnBudget<V>(stride: nat, s: State<V>, batch: nat, longest: nat, n: nat)
    requires stride > 0
  {
    && |s.batches| == 1 && s.batches[0].phase == (if n == 1 then Created else Prefilled)
    && s.batches[0].lens == Repeat(if n <= 2 then 1 else n - 1, batch) && |s.batches[0].rows| == batch
    && (forall b | 0 <= b < batch :: |s.batches[0].rows[b]| == BlocksAfter(stride, n))
    && |s.free| == batch * (PaddedLength(stride, longest) / stride) - batch * BlocksAfter(stride, n)
  }

  lemma FullBlocksGrow(stride: nat, a: nat, b: nat)
    requires stride > 0 && a <= b
    ensures FullBlocks(stride, a) <= FullBlocks(stride, b)
  {
    assert a == a / stride * stride + a % stride;
    DivAtLeast(stride, a / stride, b);
  }

  lemma BlocksGrow(stride: nat, longest: nat, n: nat)
    requires stride > 0 && 0 < n <= longest
    ensures BlocksAfter(stride, n) <= PaddedLength(stride, longest) / stride
    ensures n > 1 ==> BlocksAfter(stride, n - 1) <= BlocksAfter(stride, n)
  {
    hide PaddedLength, FullBlocks;
    CeilDivOfPadded(stride, longest);
    FullBlocksGrow(stride, n - 1, longest - 1);
    if n > 2 {
      FullBlocksGrow(stride, n - 2, n - 1);
    }
  }

  /** Growing all rows of the evaluation from one number of blocks to another takes what it should. */
  lemma EvenGrowth(free: seq<nat>, rows: seq<seq<nat>>, needed: seq<nat>, have: nat, want: nat, total: nat)
    requires |rows| == |needed| && have <= want <= total && |free| == |rows| * total - |rows| * have
    requires forall b | 0 <= b < |rows| :: |rows[b]| == have && needed[b] == want
    ensures var g := GrowRows(free, rows, needed, |rows|);
      && g.ok && |g.free| == |rows| * total - |rows| * want && forall b | 0 <= b < |rows| :: |g.rows[b]| == want
  {
    GrowRowsTake(free, rows, needed, |rows|);
    EvenShortfall(rows, needed, |rows|, have, want);
    assert |rows| * total == |rows| * want + |rows| * (total - want);
    assert |rows| * (want - have) == |rows| * want - |rows| * have;
  }

  lemma BeginOnBudget<V>(c: Layout, s: State<V>, s': State<V>, batch: nat, longest: nat)
    requires c.stride > 0 && longest > 0 && s.batches == [] && |s.free| == PaddedLength(c.stride, longest) / c.stride * batch
    requires BeginStep(c, s, s', Repeat(1, batch))
    ensures OnBudget(c.stride, s', batch, longest, 1)
  {
    var rows, needed := Repeat<seq<nat>>([], batch), PromptNeeds(c.stride, Repeat(1, batch));
    forall b | 0 <= b < batch ensures |rows[b]| == 0 && needed[b] == 1 {
      CeilDivIs(c.stride, 0, 1);
    }
    BlocksGrow(c.stride, longest, 1);
    EvenGrowth(s.free, rows, needed, 0, 1, PaddedLength(c.stride, longest) / c.stride);
  }

  lemma DecodeOnBudget<V>(c: Layout, s: State<V>, s': State<V>, kv: TokenKV<V>, out: PromptKV<V>, batch: nat, longest: nat, n: nat)
    requires c.stride > 0 && 1 < n < longest && OnBudget(c.stride, s, batch, longest, n) && DecodeStep(c, s, s', 0, kv, out)
    ensures OnBudget(c.stride, s', batch, longest, n + 1)
  {
    var b := s.batches[0];
    var lens := Increment(b.lens);
    assert lens == Repeat(n, batch);
    var needed := DecodeNeeds(c.stride, lens);
    forall i | 0 <= i < batch ensures needed[i] == BlocksAfter(c.stride, n + 1) {
      DecodeBlocksExact(c.stride, n);
    }
    BlocksGrow(c.stride, longest, n + 1);
    EvenGrowth(s.free, b.rows, needed, BlocksAfter(c.stride, n), BlocksAfter(c.stride, n + 1), PaddedLength(c.stride, longest) / c.stride);
  }

  /** The evaluation never runs out of the pages it asks for: after every event each row has the blocks it needs, and
      the rest are free. */
  lemma {:induction false} EvaluationOnBudget<V>(c: Layout, states: seq<State<V>>, events: seq<Event<V>>, batch: nat, longest: nat, n: nat)
    requires c.stride > 0 && longest > 0 && Run(c, PageCacheSize(c.stride, longest, batch), states, events)
    requires EvaluationEvents(events, batch, longest) && 0 < n <= |events|
    ensures OnBudget(c.stride, states[n], batch, longest, n)
  {
    hide Init, OnBudget;
    assert StepAt(c, states, events, n - 1);
    if n == 1 {
      StartsOnBudget(c, states[0], batch, longest);
      BeginOnBudget(c, states[0], states[1], batch, longest);
    } else {
      EvaluationOnBudget(c, states, events, batch, longest, n - 1);
      if n > 2 {
        DecodeOnBudget(c, states[n - 1], states[n], events[n - 1].token, events[n - 1].out, batch, longest, n - 1);
      } else {
        PrefillOnBudget(c, states[1], states[2], events[1].prompt, batch, longest);
      }
    }
  }

  lemma StartsOnBudget<V>(c: Layout, s: State<V>, batch: nat, longest: nat)
    requires c.stride > 0 && Init(c, PageCacheSize(c.stride, longest, batch), s)
    ensures s.batches == [] && |s.free| == PaddedLength(c.stride, longest) / c.stride * batch
  {
  }

  lemma PrefillOnBudget<V>(c: Layout, s: State<V>, s': State<V>, kv: PromptKV<V>, batch: nat, longest: nat)
    requires c.stride > 0 && OnBudget(c.stride, s, batch, longest, 1) && PrefillStep(c, s, s', 0, kv)
    ensures OnBudget(c.stride, s', batch, longest, 2)
  {
  }

  /** For prompts of three tokens or more the last decode takes the last page. */
  lemma BudgetIsExact<V>(c: Layout, states: seq<State<V>>, events: seq<Event<V>>, batch: nat, longest: nat)
    requires c.stride > 0 && longest >= 3 && Run(c, PageCacheSize(c.stride, longest, batch), states, events)
    requires EvaluationEvents(events, batch, longest) && |events| == longest
    ensures states[longest].free == []
  {
    EvaluationOnBudget(c, states, events, batch, longest, longest);
    CeilDivOfPadded(c.stride, longest);
  }

  // ---- The padded width of a prompt ----

  function Longest(lens: seq<nat>): nat {
    if lens == [] then 0
    else
      var rest := Longest(lens[1..]);
      if lens[0] > rest then lens[0] else rest
  }

  lemma CeilDivGrows(stride: nat, a: nat, b: nat)
    requires stride > 0 && a <= b
    ensures CeilDiv(a, stride) <= CeilDiv(b, stride)
  {
    FullBlocksGrow(stride, a + stride - 1, b + stride - 1);
  }

  /** The tokens of a new batch are padded to just the width of its page table. */
  lemma {:induction false} PaddedToPageTable(stride: nat, lens: seq<nat>, rows: seq<seq<nat>>)
    requires stride > 0 && |rows| == |lens| && forall b | 0 <= b < |lens| :: |rows[b]| == PromptBlocks(stride, lens[b])
    ensures MaxLen(rows) == CeilDiv(Longest(lens), stride) && PaddedLength(stride, Longest(lens)) == MaxLen(rows) * stride
  {
    if lens != [] {
      PaddedToPageTable(stride, lens[1..], rows[1..]);
      var rest := Longest(lens[1..]);
      if lens[0] > rest {
        CeilDivGrows(stride, rest, lens[0]);
      } else {
        CeilDivGrows(stride, lens[0], rest);
      }
    } else {
      FullBlocksGrow(stride, 0, stride - 1);
      DivBelow(stride, 1, stride - 1);
    }
  }
}
