/** Packed sub-byte samples, along the innermost dimension of a tensor. */
module Nibbles {
  import opened Radices
  import opened Wrappers

  function Low(b: bv8): bv8 {
    b & 0xF
  }

  function High(b: bv8): bv8 {
    b >> 4
  }

  function Up(b: bv8): bv8 {
    b << 4
  }

  /** A byte of two nibbles. */
  function Pair(low: bv8, high: bv8): bv8 {
    Up(high) | low
  }

  lemma PairParts(b: bv8)
    ensures Pair(Low(b), High(b)) == b && Low(b) < 16 && High(b) < 16
  {
  }

  lemma PartsOfPair(low: bv8, high: bv8)
    requires low < 16 && high < 16
    ensures Low(Pair(low, high)) == low && High(Pair(low, high)) == high
  {
  }

  /** `linearize_interleaved_i4_block`: pairs the low nibbles of neighbours, then their high nibbles. A single byte loses
      its content by broadcasting against no byte; other odd lengths are errors. */
  function Linearize(s: seq<bv8>): Option<seq<bv8>> {
    if |s| % 2 == 0 then Some(Pairs(s, Low) + Pairs(s, High))
    else if |s| == 1 then Some([])
    else None
  }

  function Pairs(s: seq<bv8>, part: bv8 -> bv8): (r: seq<bv8>)
    requires |s| % 2 == 0
    ensures |r| == |s| / 2
  {
    seq(|s| / 2, i requires 0 <= i < |s| / 2 => Pair(part(s[2 * i]), part(s[2 * i + 1])))
  }

  /** `interleave_linear_i4_block` */
  function Interleave(s: seq<bv8>): Option<seq<bv8>> {
    if |s| % 2 != 0 then None
    else
      var h := |s| / 2;
      Some(seq(|s|, i requires 0 <= i < |s| =>
        if i % 2 == 0 then Pair(Low(s[i / 2]), Low(s[h + i / 2])) else Pair(High(s[i / 2]), High(s[h + i / 2]))))
  }

  lemma Doubled(j: nat)
    ensures 2 * j / 2 == j && 2 * j % 2 == 0 && (2 * j + 1) / 2 == j && (2 * j + 1) % 2 == 1
  {
  }

  lemma LinearizedAt(s: seq<bv8>, j: nat)
    requires |s| % 2 == 0 && j < |s| / 2
    ensures var t := Linearize(s).value;
      |t| == |s| && t[j] == Pair(Low(s[2 * j]), Low(s[2 * j + 1])) && t[|s| / 2 + j] == Pair(High(s[2 * j]), High(s[2 * j + 1]))
  {
  }

  lemma InterleavedAt(s: seq<bv8>, j: nat)
    requires |s| % 2 == 0 && j < |s| / 2
    ensures var t := Interleave(s).value;
      |t| == |s| && t[2 * j] == Pair(Low(s[j]), Low(s[|s| / 2 + j])) && t[2 * j + 1] == Pair(High(s[j]), High(s[|s| / 2 + j]))
  {
    Doubled(j);
  }

  /** Two bytes whose nibbles are exchanged twice. */
  lemma Exchanged(a: bv8, b: bv8)
    ensures var x, y := Pair(Low(a), Low(b)), Pair(High(a), High(b));
      Pair(Low(x), Low(y)) == a && Pair(High(x), High(y)) == b
  {
    PairParts(a);
    PairParts(b);
    PartsOfPair(Low(a), Low(b));
    PartsOfPair(High(a), High(b));
  }

  lemma InterleaveLinearizedAt(s: seq<bv8>, t: seq<bv8>, j: nat)
    requires |s| % 2 == 0 && j < |s| / 2 && Linearize(s) == Some(t)
    ensures |t| == |s| && Interleave(t).Some? && |Interleave(t).value| == |s|
    ensures Interleave(t).value[2 * j] == s[2 * j] && Interleave(t).value[2 * j + 1] == s[2 * j + 1]
  {
    LinearizedAt(s, j);
    InterleavedAt(t, j);
    Exchanged(s[2 * j], s[2 * j + 1]);
  }

  lemma LinearizeInterleavedAt(s: seq<bv8>, t: seq<bv8>, j: nat)
    requires |s| % 2 == 0 && j < |s| / 2 && Interleave(s) == Some(t)
    ensures |t| == |s| && Linearize(t).Some? && |Linearize(t).value| == |s|
    ensures Linearize(t).value[j] == s[j] && Linearize(t).value[|s| / 2 + j] == s[|s| / 2 + j]
  {
    InterleavedAt(s, j);
    LinearizedAt(t, j);
    Exchanged(s[j], s[|s| / 2 + j]);
  }

  /** Interleaving undoes linearizing, on blocks of even length. */
  lemma InterleaveLinearized(s: seq<bv8>)
    requires |s| % 2 == 0
    ensures Linearize(s).Some? && Interleave(Linearize(s).value) == Some(s)
  {
    var t := Linearize(s).value;
    var r := Interleave(t).value;
    forall i | 0 <= i < |s| ensures r[i] == s[i] {
      InterleaveLinearizedAt(s, t, i / 2);
      assert i == 2 * (i / 2) || i == 2 * (i / 2) + 1;
    }
    assert r == s;
  }

  /** Linearizing undoes interleaving. */
  lemma LinearizeInterleaved(s: seq<bv8>)
    requires |s| % 2 == 0
    ensures Interleave(s).Some? && Linearize(Interleave(s).value) == Some(s)
  {
    var t, h := Interleave(s).value, |s| / 2;
    var r := Linearize(t).value;
    forall i | 0 <= i < |s| ensures r[i] == s[i] {
      LinearizeInterleavedAt(s, t, if i < h then i else i - h);
    }
    assert r == s;
  }

  // ---- Promotion to bytes ----

  /** `promote_linear_i4_block_to_i8`, unsigned: the low nibble of every byte, then its high nibble. */
  function Promote4(s: seq<bv8>): (r: seq<bv8>)
    ensures |r| == 2 * |s|
  {
    seq(2 * |s|, i requires 0 <= i < 2 * |s| => if i % 2 == 0 then Low(s[i / 2]) else High(s[i / 2]))
  }

  /** Promoting a linearized block gives all low nibbles in order, and then all high nibbles. */
  lemma PromoteLinearized(s: seq<bv8>)
    requires |s| % 2 == 0
    ensures Promote4(Linearize(s).value) == Each(s, Low) + Each(s, High)
  {
    var t, h := Linearize(s).value, |s| / 2;
    forall i | 0 <= i < 2 * |s| ensures Promote4(t)[i] == (Each(s, Low) + Each(s, High))[i] {
      var part := if i < |s| then Low else High;
      var j := i / 2;
      var k := if i < |s| then j else j - h;
      assert t[j] == Pair(part(s[2 * k]), part(s[2 * k + 1]));
      PairParts(s[2 * k]);
      PairParts(s[2 * k + 1]);
      PartsOfPair(part(s[2 * k]), part(s[2 * k + 1]));
    }
  }

  function Each(s: seq<bv8>, part: bv8 -> bv8): (r: seq<bv8>)
    ensures |r| == |s|
  {
    seq(|s|, i requires 0 <= i < |s| => part(s[i]))
  }

  /** A byte as a signed number in two's complement. */
  function Signed(b: bv8): int {
    if b < 128 then b as int else b as int - 256
  }

  /** An arithmetic shift to the right by four bits. */
  function ShiftRight4(x: int): int {
    x / 16
  }

  /** A signed nibble: the high bit of the nibble counts as negative. */
  function SignedNibble(b: bv8): int {
    if b < 8 then b as int else b as int - 16
  }

  /** `promote_linear_i4_block_to_i8`, signed: the low nibble is moved up so that the shift extends its sign. */
  function Promote4Signed(s: seq<bv8>): (r: seq<int>)
    ensures |r| == 2 * |s|
  {
    seq(2 * |s|, i requires 0 <= i < 2 * |s| =>
      if i % 2 == 0 then ShiftRight4(Signed(Up(s[i / 2]))) else ShiftRight4(Signed(s[i / 2])))
  }

  lemma SignsExtend(b: bv8)
    ensures ShiftRight4(Signed(Up(b))) == SignedNibble(Low(b)) && ShiftRight4(Signed(b)) == SignedNibble(High(b))
  {
  }

  /** Signed promotion reads every nibble as a signed number, in the order of unsigned promotion. */
  lemma SignedPromotion(s: seq<bv8>, i: nat)
    requires i < 2 * |s|
    ensures Promote4Signed(s)[i] == SignedNibble(Promote4(s)[i]) && -8 <= Promote4Signed(s)[i] < 8
  {
    SignsExtend(s[i / 2]);
    PairParts(s[i / 2]);
  }

  // ---- Six-bit values ----

  function Crumb(b: bv8, i: nat): bv8
    requires i < 4
  {
    if i == 0 then b & 0x3 else if i == 1 then (b >> 2) & 0x3 else if i == 2 then (b >> 4) & 0x3 else (b >> 6) & 0x3
  }

  /** `promote_linear_i2_block_to_i8` */
  function Promote2(s: seq<bv8>): (r: seq<bv8>)
    ensures |r| == 4 * |s|
  {
    seq(4 * |s|, i requires 0 <= i < 4 * |s| => Crumb(s[i / 4], i % 4))
  }

  /** A value of six bits from its low four and its high two. */
  function Six(low: bv8, high: bv8): bv8 {
    low | Up(high)
  }

  /** `promote_linear_i6_block_to_i8`: the low four bits from one block and the high two bits from another. */
  function Promote6(high: seq<bv8>, low: seq<bv8>): Option<seq<bv8>> {
    if 4 * |high| != 2 * |low| then None
    else Some(seq(2 * |low|, i requires 0 <= i < 2 * |low| => Six(Promote4(low)[i], Promote2(high)[i])))
  }

  function LowPairAt(v: seq<bv8>, j: nat): bv8
    requires 2 * j + 1 < |v|
  {
    Pair(Low(v[2 * j]), Low(v[2 * j + 1]))
  }

  function PackLow(v: seq<bv8>): (r: seq<bv8>)
    requires |v| % 4 == 0
    ensures |r| == |v| / 2 && 2 * |r| == |v|
  {
    Fourth(|v|);
    seq(|v| / 2, j requires 0 <= j < |v| / 2 => LowPairAt(v, j))
  }

  function Four(a: bv8, b: bv8, c: bv8, d: bv8): bv8 {
    a | (b << 2) | (c << 4) | (d << 6)
  }

  function HighFourAt(v: seq<bv8>, j: nat): bv8
    requires 4 * j + 3 < |v|
  {
    Four(High(v[4 * j]), High(v[4 * j + 1]), High(v[4 * j + 2]), High(v[4 * j + 3]))
  }

  function PackHigh(v: seq<bv8>): (r: seq<bv8>)
    requires |v| % 4 == 0
    ensures |r| == |v| / 4 && 4 * |r| == |v|
  {
    Fourth(|v|);
    seq(|v| / 4, j requires 0 <= j < |v| / 4 => HighFourAt(v, j))
  }

  lemma SixParts(v: bv8)
    requires v < 64
    ensures Six(Low(v), High(v)) == v && High(v) < 4
  {
  }

  lemma PartsOfSix(low: bv8, high: bv8)
    requires low < 16 && high < 4
    ensures Low(Six(low, high)) == low && High(Six(low, high)) == high && Six(low, high) < 64
  {
  }

  lemma CrumbsOfFour(a: bv8, b: bv8, c: bv8, d: bv8)
    requires a < 4 && b < 4 && c < 4 && d < 4
    ensures var x := Four(a, b, c, d); Crumb(x, 0) == a && Crumb(x, 1) == b && Crumb(x, 2) == c && Crumb(x, 3) == d
  {
  }

  lemma FourOfCrumbs(x: bv8)
    ensures Four(Crumb(x, 0), Crumb(x, 1), Crumb(x, 2), Crumb(x, 3)) == x
    ensures Crumb(x, 0) < 4 && Crumb(x, 1) < 4 && Crumb(x, 2) < 4 && Crumb(x, 3) < 4
  {
  }

  predicate SixBits(v: seq<bv8>) {
    |v| % 4 == 0 && forall i | 0 <= i < |v| :: v[i] < 64
  }

  lemma CrumbBound(b: bv8, i: nat)
    requires i < 4
    ensures Crumb(b, i) < 4
  {
    FourOfCrumbs(b);
  }

  lemma Promoted6At(high: seq<bv8>, low: seq<bv8>, i: nat)
    requires 4 * |high| == 2 * |low| && i < 2 * |low|
    ensures Promote6(high, low).value[i] == Six(Promote4(low)[i], Promote2(high)[i])
    ensures Low(Promote6(high, low).value[i]) == Promote4(low)[i] && High(Promote6(high, low).value[i]) == Promote2(high)[i]
    ensures Promote6(high, low).value[i] < 64
  {
    PairParts(low[i / 2]);
    CrumbBound(high[i / 4], i % 4);
    PartsOfSix(Promote4(low)[i], Promote2(high)[i]);
  }

  /** Packing undoes the promotion of matching blocks, whose result has six bits everywhere. */
  lemma PackPromoted(high: seq<bv8>, low: seq<bv8>)
    requires 4 * |high| == 2 * |low|
    ensures Promote6(high, low).Some? && SixBits(Promote6(high, low).value)
    ensures PackHigh(Promote6(high, low).value) == high && PackLow(Promote6(high, low).value) == low
  {
    var v := Promote6(high, low).value;
    Promoted6Parts(high, low, v);
    PackedLow(v, low);
    PackedHigh(v, high);
  }

  lemma PackedLow(v: seq<bv8>, low: seq<bv8>)
    requires |v| == 2 * |low| && |v| % 4 == 0 && forall i | 0 <= i < |v| :: Low(v[i]) == Promote4(low)[i]
    ensures PackLow(v) == low
  {
    forall j | 0 <= j < |low| ensures PackLow(v)[j] == low[j] {
      PackedNibbles(v, low, j);
    }
  }

  lemma PackedHigh(v: seq<bv8>, high: seq<bv8>)
    requires |v| == 4 * |high| && forall i | 0 <= i < |v| :: High(v[i]) == Promote2(high)[i]
    ensures |v| % 4 == 0 && PackHigh(v) == high
  {
    FourFold(|v|, |high|);
    forall j | 0 <= j < |high| ensures PackHigh(v)[j] == high[j] {
      PackedCrumbs(v, high, j);
    }
  }

  lemma Promoted6Parts(high: seq<bv8>, low: seq<bv8>, v: seq<bv8>)
    requires 4 * |high| == 2 * |low| && Promote6(high, low) == Some(v)
    ensures |v| == 4 * |high| && SixBits(v)
    ensures forall i | 0 <= i < |v| :: Low(v[i]) == Promote4(low)[i] && High(v[i]) == Promote2(high)[i]
  {
    forall i | 0 <= i < |v| ensures v[i] < 64 && Low(v[i]) == Promote4(low)[i] && High(v[i]) == Promote2(high)[i] {
      Promoted6At(high, low, i);
    }
  }

  lemma FourFold(n: nat, k: nat)
    requires n == 4 * k
    ensures n % 4 == 0 && n / 4 == k && n / 2 == 2 * k
  {
  }

  lemma PackedNibbles(v: seq<bv8>, low: seq<bv8>, j: nat)
    requires |v| == 2 * |low| && |v| % 4 == 0 && j < |low|
    requires forall i | 0 <= i < |v| :: Low(v[i]) == Promote4(low)[i]
    ensures PackLow(v)[j] == low[j]
  {
    Doubled(j);
    assert Low(v[2 * j]) == Low(low[j]) && Low(v[2 * j + 1]) == High(low[j]);
    PairParts(low[j]);
  }

  lemma PackedCrumbs(v: seq<bv8>, high: seq<bv8>, j: nat)
    requires |v| == 4 * |high| && j < |high|
    requires forall i | 0 <= i < |v| :: High(v[i]) == Promote2(high)[i]
    ensures PackHigh(v)[j] == high[j]
  {
    assert (4 * j + 1) / 4 == j && (4 * j + 1) % 4 == 1 && (4 * j + 2) / 4 == j && (4 * j + 2) % 4 == 2;
    assert (4 * j + 3) / 4 == j && (4 * j + 3) % 4 == 3 && 4 * j / 4 == j && 4 * j % 4 == 0;
    assert High(v[4 * j]) == Crumb(high[j], 0) && High(v[4 * j + 1]) == Crumb(high[j], 1);
    assert High(v[4 * j + 2]) == Crumb(high[j], 2) && High(v[4 * j + 3]) == Crumb(high[j], 3);
    FourOfCrumbs(high[j]);
  }

  /** Every sequence of six-bit values is the promotion of its packing: with the converse, promotion is a bijection. */
  lemma PromotePacked(v: seq<bv8>)
    requires SixBits(v)
    ensures Promote6(PackHigh(v), PackLow(v)) == Some(v)
  {
    var high, low := PackHigh(v), PackLow(v);
    PackedSizes(v);
    forall i | 0 <= i < |v| ensures Promote6(high, low).value[i] == v[i] {
      Promoted6At(high, low, i);
      LowPacked(v, i);
      HighPacked(v, i);
      SixParts(v[i]);
    }
    assert Promote6(high, low).value == v;
  }

  lemma PackedSizes(v: seq<bv8>)
    requires |v| % 4 == 0
    ensures 4 * |PackHigh(v)| == 2 * |PackLow(v)| == |v|
  {
    FourFold(|v|, |v| / 4);
  }

  lemma LowPacked(v: seq<bv8>, i: nat)
    requires SixBits(v) && i < |v|
    ensures Promote4(PackLow(v))[i] == Low(v[i])
  {
    var j := i / 2;
    PairParts(v[2 * j]);
    PairParts(v[2 * j + 1]);
    PartsOfPair(Low(v[2 * j]), Low(v[2 * j + 1]));
  }

  lemma HighPacked(v: seq<bv8>, i: nat)
    requires SixBits(v) && i < |v|
    ensures Promote2(PackHigh(v))[i] == High(v[i])
  {
    var j := i / 4;
    SixParts(v[4 * j]);
    SixParts(v[4 * j + 1]);
    SixParts(v[4 * j + 2]);
    SixParts(v[4 * j + 3]);
    CrumbsOfFour(High(v[4 * j]), High(v[4 * j + 1]), High(v[4 * j + 2]), High(v[4 * j + 3]));
    assert PackHigh(v)[j] == Four(High(v[4 * j]), High(v[4 * j + 1]), High(v[4 * j + 2]), High(v[4 * j + 3]));
    assert i == 4 * j + i % 4;
  }

  // ---- The bits that are read ----

  lemma NibbleBits(b: bv8)
    ensures Low(b) == b % 16 && High(b) == b / 16
  {
  }

  lemma PairBits(low: bv8, high: bv8)
    requires low < 16 && high < 16
    ensures Pair(low, high) == low + 16 * high
  {
  }

  lemma CrumbBits(b: bv8)
    ensures Crumb(b, 0) == b % 4 && Crumb(b, 1) == b / 4 % 4 && Crumb(b, 2) == b / 16 % 4 && Crumb(b, 3) == b / 64
  {
  }

  lemma SixBitsOf(low: bv8, high: bv8)
    requires low < 16 && high < 4
    ensures Six(low, high) == low + 16 * high
  {
  }

  /** Promotion reads the half bytes of each byte, the lower one first. */
  lemma Promote4Reads(s: seq<bv8>, j: nat)
    requires j < |s|
    ensures Promote4(s)[2 * j] == s[j] % 16 && Promote4(s)[2 * j + 1] == s[j] / 16
  {
    hide Low, High;
    Doubled(j);
    NibbleBits(s[j]);
  }

  /** Promotion reads the quarters of each byte, the lowest one first. */
  lemma Promote2Reads(s: seq<bv8>, j: nat)
    requires j < |s|
    ensures Promote2(s)[4 * j] == s[j] % 4 && Promote2(s)[4 * j + 1] == s[j] / 4 % 4
    ensures Promote2(s)[4 * j + 2] == s[j] / 16 % 4 && Promote2(s)[4 * j + 3] == s[j] / 64
  {
    hide Crumb;
    CrumbBits(s[j]);
    Quartered(j);
  }

  lemma Quartered(j: nat)
    ensures 4 * j / 4 == j && 4 * j % 4 == 0 && (4 * j + 1) / 4 == j && (4 * j + 1) % 4 == 1
    ensures (4 * j + 2) / 4 == j && (4 * j + 2) % 4 == 2 && (4 * j + 3) / 4 == j && (4 * j + 3) % 4 == 3
  {
  }

  /** A six-bit value has its low four bits from one block and its high two from the other. */
  lemma Promote6Reads(high: seq<bv8>, low: seq<bv8>, i: nat)
    requires 4 * |high| == 2 * |low| && i < 2 * |low|
    ensures Promote6(high, low).Some? && |Promote6(high, low).value| == 2 * |low|
    ensures Promote6(high, low).value[i] == Promote4(low)[i] + 16 * Promote2(high)[i]
  {
    hide Low, High, Crumb, Six;
    PairParts(low[i / 2]);
    CrumbBound(high[i / 4], i % 4);
    SixBitsOf(Promote4(low)[i], Promote2(high)[i]);
  }

  /** Linearizing puts the low half bytes of neighbours together, and then the high ones. */
  lemma LinearizeReads(s: seq<bv8>, j: nat)
    requires |s| % 2 == 0 && j < |s| / 2
    ensures Linearize(s).Some? && |Linearize(s).value| == |s|
    ensures Linearize(s).value[j] == s[2 * j] % 16 + 16 * (s[2 * j + 1] % 16)
    ensures Linearize(s).value[|s| / 2 + j] == s[2 * j] / 16 + 16 * (s[2 * j + 1] / 16)
  {
    hide Low, High, Pair, Pairs;
    LinearizedAt(s, j);
    var a, b := s[2 * j], s[2 * j + 1];
    PairParts(a);
    PairParts(b);
    NibbleBits(a);
    NibbleBits(b);
    PairBits(Low(a), Low(b));
    PairBits(High(a), High(b));
  }

  /** Blocks of odd length: a single byte loses its content, and all others are errors. */
  lemma OddBlocks(s: seq<bv8>)
    requires |s| % 2 == 1
    ensures Interleave(s) == None && (if |s| == 1 then Linearize(s) == Some([]) else Linearize(s) == None)
  {
  }
}
