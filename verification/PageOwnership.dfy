/** Arithmetic of blocks, and who owns which page as rows grow. */
module PageOwnership {
  import opened Paging
  import opened Radices
  import opened Serving

  // ---- Growing rows ----

  /** Pages move from the end of the free list to the end of the row, in that order; the row ends up
      exactly as long as was asked for unless it already was longer or the pages ran out. */
  lemma {:induction false} GrowMoves(free: seq<nat>, row: seq<nat>, needed: nat)
    ensures var g := Grow(free, row, needed);
      && |g.free| <= |free| && g.free == free[..|g.free|]
      && |g.row| == |row| + (|free| - |g.free|)
      && (forall k | 0 <= k < |g.row| :: g.row[k] == if k < |row| then row[k] else free[|free| - 1 - (k - |row|)])
      && (g.ok <==> |row| + |free| >= needed)
      && (if g.ok then |g.row| == (if |row| > needed then |row| else needed) else g.free == [])
    decreases needed - |row|
  {
    if |row| < needed && free != [] {
      GrowMoves(free[..|free| - 1], row + [free[|free| - 1]], needed);
    }
  }

  /** Pages that the first `n` rows still want. */
  function Shortfall(rows: seq<seq<nat>>, needed: seq<nat>, n: nat): nat
    requires n <= |rows| == |needed|
  {
    if n == 0 then 0
    else Shortfall(rows, needed, n - 1) + if needed[n - 1] > |rows[n - 1]| then needed[n - 1] - |rows[n - 1]| else 0
  }

  /** Rows can be grown exactly if they want no more pages than are free, and they take just those. */
  lemma {:induction false} GrowRowsTake(free: seq<nat>, rows: seq<seq<nat>>, needed: seq<nat>, n: nat)
    requires n <= |rows| == |needed|
    ensures var g := GrowRows(free, rows, needed, n);
      && (g.ok <==> |free| >= Shortfall(rows, needed, n))
      && (g.ok ==> |g.free| == |free| - Shortfall(rows, needed, n))
      && (g.ok ==> forall b | 0 <= b < n :: |g.rows[b]| == if needed[b] > |rows[b]| then needed[b] else |rows[b]|)
  {
    if n > 0 {
      GrowRowsTake(free, rows, needed, n - 1);
      var g := GrowRows(free, rows, needed, n - 1);
      if g.ok {
        GrowMoves(g.free, rows[n - 1], needed[n - 1]);
      }
    }
  }

  /** Pages that the prompts of a new batch take together. */
  function PromptPages(stride: nat, lens: seq<nat>): nat
    requires stride > 0
  {
    if lens == [] then 0 else PromptPages(stride, lens[..|lens| - 1]) + PromptBlocks(stride, lens[|lens| - 1])
  }

  lemma {:induction false} PromptShortfall(stride: nat, lens: seq<nat>, n: nat)
    requires stride > 0 && n <= |lens|
    ensures Shortfall(Repeat([], |lens|), PromptNeeds(stride, lens), n) == PromptPages(stride, lens[..n])
  {
    if n > 0 {
      PromptShortfall(stride, lens, n - 1);
      assert lens[..n][..n - 1] == lens[..n - 1];
    }
  }

  /** A batch can be started exactly if its prompts take no more pages than are free. */
  lemma BeginSucceeds(stride: nat, free: seq<nat>, lens: seq<nat>)
    requires stride > 0
    ensures GrowRows(free, Repeat([], |lens|), PromptNeeds(stride, lens), |lens|).ok <==> |free| >= PromptPages(stride, lens)
  {
    GrowRowsTake(free, Repeat([], |lens|), PromptNeeds(stride, lens), |lens|);
    PromptShortfall(stride, lens, |lens|);
    assert lens[..|lens|] == lens;
  }

  lemma DecodeBlocksExact(stride: nat, len: nat)
    requires stride > 0
    ensures DecodeBlocks(stride, len) == len / stride + 1
  {
    var q, r := len / stride, len % stride;
    assert len == q * stride + r;
    if r != 0 {
      CeilDivIs(stride, q, r);
    }
  }

  lemma CeilDivIs(stride: nat, q: nat, r: nat)
    requires 0 < r <= stride
    ensures CeilDiv(q * stride + r, stride) == q + 1
  {
    assert q * stride + r + stride - 1 == Radix(q + 1, r - 1, stride);
    RadixDigits(q + 1, r - 1, stride);
  }

  // ---- Who owns which page ----

  /** A place in the page rows of some batch. */
  datatype Slot = Slot(batch: nat, row: nat, index: nat)

  predicate ValidSlot(bs: seq<BatchState>, x: Slot) {
    x.batch < |bs| && x.row < |bs[x.batch].rows| && x.index < |bs[x.batch].rows[x.row]|
  }

  function PageAt(bs: seq<BatchState>, x: Slot): nat
    requires ValidSlot(bs, x)
  {
    bs[x.batch].rows[x.row][x.index]
  }

  /** No page is in two places, and page 0 is in none. */
  ghost predicate Owned(free: seq<nat>, bs: seq<BatchState>, pages: nat) {
    && (forall j, k | 0 <= j < k < |free| :: free[j] != free[k])
    && (forall j | 0 <= j < |free| :: 1 <= free[j] < pages)
    && (forall x: Slot | ValidSlot(bs, x) :: 1 <= PageAt(bs, x) < pages && PageAt(bs, x) !in free)
    && (forall x: Slot, y: Slot | ValidSlot(bs, x) && ValidSlot(bs, y) && PageAt(bs, x) == PageAt(bs, y) :: x == y)
  }

  /** The page is accounted for. */
  ghost predicate Held(free: seq<nat>, bs: seq<BatchState>, page: nat) {
    page in free || exists x: Slot :: ValidSlot(bs, x) && PageAt(bs, x) == page
  }

  ghost predicate SameHeld(free: seq<nat>, bs: seq<BatchState>, free': seq<nat>, bs': seq<BatchState>) {
    forall page: nat :: Held(free, bs, page) <==> Held(free', bs', page)
  }

  ghost function WithRows(bs: seq<BatchState>, i: nat, rows: seq<seq<nat>>): seq<BatchState>
    requires i < |bs|
  {
    bs[i := bs[i].(rows := rows)]
  }

  /** Handing the last free page to a row keeps every page in exactly one place. */
  lemma MovePage(free: seq<nat>, bs: seq<BatchState>, i: nat, b: nat, pages: nat)
    requires Owned(free, bs, pages) && free != []
    requires i < |bs| && b < |bs[i].rows|
    ensures var row := bs[i].rows[b] + [free[|free| - 1]];
      var bs' := WithRows(bs, i, bs[i].rows[b := row]);
      && Owned(free[..|free| - 1], bs', pages)
      && SameHeld(free, bs, free[..|free| - 1], bs')
  {
    var last := free[|free| - 1];
    var free' := free[..|free| - 1];
    var bs' := WithRows(bs, i, bs[i].rows[b := bs[i].rows[b] + [last]]);
    var new' := Slot(i, b, |bs[i].rows[b]|);
    assert ValidSlot(bs', new') && PageAt(bs', new') == last;
    forall x: Slot | ValidSlot(bs', x) && x != new'
      ensures ValidSlot(bs, x) && PageAt(bs', x) == PageAt(bs, x)
    {
    }
    forall x: Slot | ValidSlot(bs, x)
      ensures ValidSlot(bs', x) && PageAt(bs', x) == PageAt(bs, x)
    {
    }
    assert free == free' + [last];
    forall page: nat
      ensures Held(free, bs, page) <==> Held(free', bs', page)
    {
      if x: Slot :| ValidSlot(bs, x) && PageAt(bs, x) == page {
        assert ValidSlot(bs', x) && PageAt(bs', x) == page;
      }
      if x: Slot :| ValidSlot(bs', x) && PageAt(bs', x) == page && x != new' {
        assert ValidSlot(bs, x) && PageAt(bs, x) == page;
      }
    }
  }

  lemma {:induction false} GrowOwned(free: seq<nat>, bs: seq<BatchState>, i: nat, b: nat, needed: nat, pages: nat)
    requires Owned(free, bs, pages) && i < |bs| && b < |bs[i].rows|
    ensures var g := Grow(free, bs[i].rows[b], needed);
      var bs' := WithRows(bs, i, bs[i].rows[b := g.row]);
      && Owned(g.free, bs', pages)
      && SameHeld(free, bs, g.free, bs')
    decreases needed - |bs[i].rows[b]|
  {
    var row := bs[i].rows[b];
    if |row| >= needed || free == [] {
      assert bs[i].rows[b := row] == bs[i].rows;
      assert WithRows(bs, i, bs[i].rows) == bs;
    } else {
      MovePage(free, bs, i, b, pages);
      var row' := row + [free[|free| - 1]];
      var mid := WithRows(bs, i, bs[i].rows[b := row']);
      GrowOwned(free[..|free| - 1], mid, i, b, needed, pages);
      var g := Grow(free, row, needed);
      assert mid[i].rows[b := g.row] == bs[i].rows[b := g.row];
      assert WithRows(mid, i, mid[i].rows[b := g.row]) == WithRows(bs, i, bs[i].rows[b := g.row]);
    }
  }

  lemma {:induction false} GrowRowsOwned(free: seq<nat>, bs: seq<BatchState>, i: nat, needed: seq<nat>, n: nat, pages: nat)
    requires Owned(free, bs, pages) && i < |bs| && n <= |bs[i].rows| == |needed|
    ensures var g := GrowRows(free, bs[i].rows, needed, n);
      var bs' := WithRows(bs, i, g.rows);
      && Owned(g.free, bs', pages)
      && SameHeld(free, bs, g.free, bs')
  {
    if n == 0 {
      assert WithRows(bs, i, bs[i].rows) == bs;
    } else {
      GrowRowsOwned(free, bs, i, needed, n - 1, pages);
      var g := GrowRows(free, bs[i].rows, needed, n - 1);
      if g.ok {
        var mid := WithRows(bs, i, g.rows);
        GrowOwned(g.free, mid, i, n - 1, needed[n - 1], pages);
        var r := Grow(g.free, g.rows[n - 1], needed[n - 1]);
        assert WithRows(mid, i, mid[i].rows[n - 1 := r.row]) == WithRows(bs, i, g.rows[n - 1 := r.row]);
      }
    }
  }

  /** Changing only lengths and phases moves no page. */
  lemma SamePlaces(free: seq<nat>, bs: seq<BatchState>, bs': seq<BatchState>, pages: nat)
    requires Owned(free, bs, pages) && |bs'| == |bs|
    requires forall i | 0 <= i < |bs| :: bs'[i].rows == bs[i].rows
    ensures Owned(free, bs', pages) && SameHeld(free, bs, free, bs')
  {
    forall x: Slot ensures ValidSlot(bs', x) <==> ValidSlot(bs, x) {
    }
    forall x: Slot | ValidSlot(bs, x) ensures PageAt(bs', x) == PageAt(bs, x) {
    }
  }

  lemma {:induction false} GrowRowsFit(free: seq<nat>, rows: seq<seq<nat>>, needed: seq<nat>, n: nat)
    requires n <= |rows| == |needed|
    ensures var g := GrowRows(free, rows, needed, n);
      && |g.free| <= |free| && g.free == free[..|g.free|]
      && (!g.ok ==> g.free == [])
      && (forall b | 0 <= b < |rows| :: |rows[b]| <= |g.rows[b]| && g.rows[b][..|rows[b]|] == rows[b])
      && (g.ok ==> forall b | 0 <= b < n :: |g.rows[b]| == if |rows[b]| > needed[b] then |rows[b]| else needed[b])
  {
    if n > 0 {
      GrowRowsFit(free, rows, needed, n - 1);
      var g := GrowRows(free, rows, needed, n - 1);
      if g.ok {
        GrowMoves(g.free, rows[n - 1], needed[n - 1]);
        var r := Grow(g.free, rows[n - 1], needed[n - 1]);
        assert r.row[..|rows[n - 1]|] == rows[n - 1];
      }
    }
  }

  lemma CeilDivBounds(stride: nat, len: nat)
    requires stride > 0
    ensures CeilDiv(len, stride) <= len / stride + 1
  {
    var q, r := len / stride, len % stride;
    assert len == q * stride + r;
    if r == 0 {
      assert len + stride - 1 == Radix(q, stride - 1, stride);
      RadixDigits(q, stride - 1, stride);
    } else {
      CeilDivIs(stride, q, r);
    }
  }

  lemma DivSteps(stride: nat, len: nat)
    requires stride > 0
    ensures len / stride <= (len + 1) / stride
    ensures len < (len / stride + 1) * stride
  {
    assert len == len / stride * stride + len % stride;
    DivAtLeast(stride, len / stride, len + 1);
  }
}
