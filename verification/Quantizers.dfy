/** Static and dynamic quantization to integers, in exact arithmetic. */
module Quantizers {
  import opened Wrappers

  function Abs(x: real): real {
    if x < 0.0 then -x else x
  }

  /** `torch.round`: to the nearest integer, and halfway between two to the even one. */
  function Round(x: real): int {
    var f := x.Floor;
    var rest := x - f as real;
    if rest < 0.5 then f
    else if rest > 0.5 then f + 1
    else if f % 2 == 0 then f
    else f + 1
  }

  /** No integer is nearer, and a tie goes to the even one. */
  lemma RoundNearest(x: real, n: int)
    ensures Abs(x - Round(x) as real) <= 0.5 && Abs(x - Round(x) as real) <= Abs(x - n as real)
    ensures n != Round(x) && Abs(x - n as real) == Abs(x - Round(x) as real) ==> Round(x) % 2 == 0
  {
    var f := x.Floor;
    if n <= f {
      assert n as real <= f as real;
    } else {
      assert n as real >= (f + 1) as real;
    }
    if n < f {
      assert n as real <= (f - 1) as real;
    } else if n > f + 1 {
      assert n as real >= (f + 2) as real;
    }
  }

  lemma RoundInteger(n: int)
    ensures Round(n as real) == n
  {
  }

  lemma RoundWithin(x: real, lo: int, hi: int)
    requires lo as real <= x <= hi as real
    ensures lo <= Round(x) <= hi
  {
    RoundNearest(x, lo);
    RoundNearest(x, hi);
    assert Round(x) < lo ==> Round(x) as real <= (lo - 1) as real;
    assert Round(x) > hi ==> Round(x) as real >= (hi + 1) as real;
  }

  /** An integer type. */
  datatype IntType = IntType(min: int, max: int)

  function Clamp(x: int, t: IntType): int {
    if x < t.min then t.min else if x > t.max then t.max else x
  }

  predicate Fits(x: int, t: IntType) {
    t.min <= x <= t.max
  }

  /** `saturate_cast` to an integer type: rounds, and then saturates unless that is disabled; what a cast makes of a value
      out of range is left open. */
  function SaturateCast(x: real, t: IntType, disableSaturate: bool): Option<int> {
    var r := Round(x);
    if !disableSaturate then Some(Clamp(r, t))
    else if Fits(r, t) then Some(r)
    else None
  }

  /** Saturation picks the nearest value that the type has. */
  lemma SaturateNearest(x: real, t: IntType, n: int)
    requires t.min <= t.max && Fits(n, t)
    ensures var q := SaturateCast(x, t, false).value;
      Fits(q, t) && Abs(x - q as real) <= Abs(x - n as real)
  {
    RoundNearest(x, n);
    RoundNearest(x, t.min);
    RoundNearest(x, t.max);
    var r := Round(x);
    assert r < t.min ==> r as real <= (t.min - 1) as real;
    assert r > t.max ==> r as real >= (t.max + 1) as real;
    assert t.min as real <= n as real <= t.max as real;
  }

  // ---- Static scales ----

  /** A quantizer with one scale for the whole tensor, or the part of one with a scale for each step of an axis that applies
      to one element. The reciprocal is stored, and may be given, separately. */
  datatype Static = Static(scale: real, reciprocal: real, offset: Option<int>, dtype: IntType, perAxis: bool, disableSaturate: bool) {
    predicate Valid() {
      reciprocal != 0.0 && dtype.min <= dtype.max
    }

    function OffsetOrZero(): int {
      if offset.Some? then offset.value else 0
    }

    /** A per-tensor quantizer divides by the reciprocal scale, a per-axis quantizer multiplies by the scale. */
    function Scaled(x: real): real
      requires Valid()
    {
      if perAxis then x * scale else x / reciprocal
    }

    function Quantize(x: real): Option<int>
      requires Valid()
    {
      SaturateCast(if offset.Some? then Scaled(x) + offset.value as real else Scaled(x), dtype, disableSaturate)
    }

    function Dequantize(q: int): real {
      (q as real - OffsetOrZero() as real) * reciprocal
    }
  }

  lemma MulDiv(a: real, d: real)
    requires d != 0.0
    ensures a * d / d == a
  {
  }

  lemma MulMul(a: real, r: real, s: real)
    requires r * s == 1.0
    ensures a * r * s == a
  {
  }

  /** Quantizing what an in-range sample stands for gives the sample back: always for a per-tensor scale, and for a per-axis
      scale whose reciprocal is its reciprocal. */
  lemma QuantizeDequantized(z: Static, q: int)
    requires z.Valid() && Fits(q, z.dtype) && (z.perAxis ==> z.reciprocal * z.scale == 1.0)
    ensures z.Quantize(z.Dequantize(q)) == Some(q)
  {
    var centred := q as real - z.OffsetOrZero() as real;
    if z.perAxis {
      MulMul(centred, z.reciprocal, z.scale);
    } else {
      MulDiv(centred, z.reciprocal);
    }
    assert z.Scaled(z.Dequantize(q)) == centred;
    RoundInteger(q);
  }

  /** The distance of a sample to the scaled value it should be, before and after scaling back. */
  lemma ErrorScale(x: real, y: real, d: real, scaled: real, value: real)
    requires d != 0.0 && scaled == x / d && value == y * d
    ensures Abs(value - x) == Abs(y - scaled) * Abs(d)
  {
    assert scaled * d == x;
    AbsProduct(y - scaled, d);
    assert (y - scaled) * d == value - x;
  }

  lemma AbsProduct(a: real, b: real)
    ensures Abs(a * b) == Abs(a) * Abs(b)
  {
  }

  lemma ScaledOrder(a: real, b: real, d: real)
    requires a <= b && d >= 0.0
    ensures a * d <= b * d
  {
  }

  /** No sample in range stands for a value nearer to the one that was quantized, if the two scales are reciprocal where both
      are used and a cast without saturation does not overflow. */
  lemma QuantizeNearest(z: Static, x: real, n: int)
    requires z.Valid() && Fits(n, z.dtype) && (z.perAxis ==> z.reciprocal * z.scale == 1.0)
    requires z.disableSaturate ==> z.Quantize(x).Some?
    ensures z.Quantize(x).Some? && Fits(z.Quantize(x).value, z.dtype)
    ensures Abs(z.Dequantize(z.Quantize(x).value) - x) <= Abs(z.Dequantize(n) - x)
  {
    hide SaturateCast;
    var m, scaled := z.OffsetOrZero(), x / z.reciprocal;
    QuantizedIs(z, x, scaled);
    var q := SaturateCast(scaled + m as real, z.dtype, false).value;
    NearerSample(scaled, m, z.dtype, n);
    NearerDequantized(z, x, q, n, scaled);
  }

  lemma QuantizedIs(z: Static, x: real, scaled: real)
    requires z.Valid() && (z.perAxis ==> z.reciprocal * z.scale == 1.0) && scaled == x / z.reciprocal
    requires z.disableSaturate ==> z.Quantize(x).Some?
    ensures SaturateCast(scaled + z.OffsetOrZero() as real, z.dtype, false).Some?
    ensures z.Quantize(x) == SaturateCast(scaled + z.OffsetOrZero() as real, z.dtype, false)
  {
    hide Round;
    if z.perAxis {
      TimesReciprocal(x, z.scale, z.reciprocal);
    }
    assert z.Scaled(x) == scaled;
  }

  lemma TimesReciprocal(x: real, s: real, r: real)
    requires r * s == 1.0
    ensures r != 0.0 && x * s == x / r
  {
    assert x / r * r == x;
    assert x / r == x / r * (r * s) == x / r * r * s;
  }

  lemma NearerDequantized(z: Static, x: real, q: int, n: int, scaled: real)
    requires z.Valid() && scaled == x / z.reciprocal
    requires Abs(q as real - z.OffsetOrZero() as real - scaled) <= Abs(n as real - z.OffsetOrZero() as real - scaled)
    ensures Abs(z.Dequantize(q) - x) <= Abs(z.Dequantize(n) - x)
  {
    var near, far := q as real - z.OffsetOrZero() as real, n as real - z.OffsetOrZero() as real;
    NearerValue(x, z.reciprocal, scaled, near, far, z.Dequantize(q), z.Dequantize(n));
  }

  lemma NearerValue(x: real, d: real, scaled: real, near: real, far: real, nearValue: real, farValue: real)
    requires d != 0.0 && scaled == x / d && Abs(near - scaled) <= Abs(far - scaled)
    requires nearValue == near * d && farValue == far * d
    ensures Abs(nearValue - x) <= Abs(farValue - x)
  {
    ErrorScale(x, near, d, scaled, nearValue);
    ErrorScale(x, far, d, scaled, farValue);
    ScaledOrder(Abs(near - scaled), Abs(far - scaled), Abs(d));
  }

  lemma NearerSample(scaled: real, m: int, t: IntType, n: int)
    requires t.min <= t.max && Fits(n, t)
    ensures var q := SaturateCast(scaled + m as real, t, false).value;
      Fits(q, t) && Abs(q as real - m as real - scaled) <= Abs(n as real - m as real - scaled)
  {
    SaturateNearest(scaled + m as real, t, n);
  }

  // ---- Dynamic scales ----

  const EPS := 0.000001

  function MaxAbs(xs: seq<real>): (m: real)
    requires xs != []
    ensures forall i | 0 <= i < |xs| :: Abs(xs[i]) <= m
    ensures m >= 0.0
  {
    if |xs| == 1 then Abs(xs[0])
    else
      var rest := MaxAbs(xs[1..]);
      assert forall i | 1 <= i < |xs| :: xs[i] == xs[1..][i - 1];
      if Abs(xs[0]) >= rest then Abs(xs[0]) else rest
  }

  /** The magnitude of some element. */
  predicate Attained(xs: seq<real>, a: real) {
    exists i :: 0 <= i < |xs| && Abs(xs[i]) == a
  }

  predicate Bounds(xs: seq<real>, a: real) {
    forall i | 0 <= i < |xs| :: Abs(xs[i]) <= a
  }

  lemma {:induction false} MaxAbsAttained(xs: seq<real>)
    requires xs != []
    ensures Attained(xs, MaxAbs(xs))
  {
    if |xs| == 1 {
      assert Abs(xs[0]) == MaxAbs(xs);
    } else {
      var rest := xs[1..];
      MaxAbsAttained(rest);
      var i :| 0 <= i < |rest| && Abs(rest[i]) == MaxAbs(rest);
      assert Abs(xs[0]) == MaxAbs(xs) || Abs(xs[i + 1]) == MaxAbs(xs);
    }
  }

  /** There is only one bound that is attained. */
  lemma LargestIs(xs: seq<real>, a: real)
    requires xs != [] && Bounds(xs, a) && Attained(xs, a)
    ensures MaxAbs(xs) == a
  {
    MaxAbsAttained(xs);
  }

  /** Every nonempty list has a largest magnitude. */
  lemma LargestExists(xs: seq<real>) returns (a: real)
    requires xs != []
    ensures Bounds(xs, a) && Attained(xs, a)
  {
    MaxAbsAttained(xs);
    a := MaxAbs(xs);
  }

  /** The largest magnitude, but not less than the smallest one that is scaled by. */
  function Magnitude(xs: seq<real>): (a: real)
    requires xs != []
    ensures a >= EPS
  {
    var m := MaxAbs(xs);
    if m < EPS then EPS else m
  }

  function DynamicScale(xs: seq<real>, t: IntType): real
    requires xs != []
  {
    t.max as real / Magnitude(xs)
  }

  function RoundScaled(x: real, s: real): int {
    Round(x * s)
  }

  /** `None` for an empty tensor, which has no maximum. */
  function QuantizeDynamic(xs: seq<real>, t: IntType): Option<seq<int>> {
    if xs == [] then None
    else Some(seq(|xs|, i requires 0 <= i < |xs| => Clamp(RoundScaled(xs[i], DynamicScale(xs, t)), t)))
  }

  /** A sample times the reciprocal of the scale. */
  function Restored(q: int, s: real): real
    requires s != 0.0
  {
    q as real * (1.0 / s)
  }

  lemma ScaleBound(x: real, a: real, m: real, s: real)
    requires a > 0.0 && m > 0.0 && Abs(x) <= a && s == m / a
    ensures -m <= x * s <= m
  {
    assert s > 0.0 && a * s == m;
    ScaledOrder(x, a, s);
    ScaledOrder(-a, x, s);
    assert (-a) * s == -(a * s);
  }

  lemma RoundScaledWithin(x: real, s: real, lo: int, hi: int)
    requires lo as real <= x * s <= hi as real
    ensures lo <= RoundScaled(x, s) <= hi
  {
    RoundWithin(x * s, lo, hi);
  }

  lemma Reciprocal(a: real, m: real)
    requires a > 0.0 && m > 0.0
    ensures m / a > 0.0 && a / m > 0.0 && 1.0 / (m / a) == a / m && m / a * (a / m) == 1.0
  {
    assert m / a * (a / m) == 1.0;
  }

  lemma ScaleError(q: real, x: real, s: real, r: real)
    requires s * r == 1.0 && r > 0.0 && Abs(q - x * s) <= 0.5
    ensures Abs(q * r - x) <= 0.5 * r
  {
    assert x * s * r == x;
    assert q * r - x == (q - x * s) * r;
    AbsProduct(q - x * s, r);
    ScaledOrder(Abs(q - x * s), 0.5, r);
  }

  lemma HalfStep(a: real, m: real)
    requires m > 0.0
    ensures 0.5 * (a / m) == a / (2.0 * m)
  {
  }

  function Over(a: real, m: real): real
    requires m != 0.0
  {
    a / m
  }

  /** The scale of the largest magnitude `a`. */
  lemma ScaleIs(xs: seq<real>, t: IntType, a: real)
    requires xs != [] && Bounds(xs, a) && Attained(xs, a)
    ensures Magnitude(xs) == (if a < 0.000001 then 0.000001 else a)
    ensures DynamicScale(xs, t) == Over(t.max as real, if a < 0.000001 then 0.000001 else a)
  {
    LargestIs(xs, a);
  }

  /** Dynamic quantization to a signed type: where `a` is the largest magnitude, the scale is the largest integer over it, no
      element is off by more than half a step, and one of the largest magnitude becomes the largest integer, with its sign. */
  lemma DynamicBound(xs: seq<real>, t: IntType, a: real, step: real, i: nat)
    requires i < |xs| && t.max > 0 && t.min <= -t.max && Bounds(xs, a) && Attained(xs, a)
    requires step * t.max as real == if a < 0.000001 then 0.000001 else a
    ensures QuantizeDynamic(xs, t).Some? && |QuantizeDynamic(xs, t).value| == |xs| && DynamicScale(xs, t) * step == 1.0
    ensures var q := QuantizeDynamic(xs, t).value[i];
      && Fits(q, t) && -t.max <= q <= t.max && Abs(q as real * step - xs[i]) <= step / 2.0
      && (a >= 0.000001 && xs[i] == a ==> q == t.max)
      && (a >= 0.000001 && xs[i] == -a ==> q == -t.max)
  {
    hide RoundScaled, Fits, Bounds, Attained, Magnitude, DynamicScale, MaxAbs, Clamp, Over, QuantizeDynamic;
    QuantizedAt(xs, t, i);
    var m, s := Magnitude(xs), DynamicScale(xs, t);
    ScaleIs(xs, t, a);
    assert Abs(xs[i]) <= m by {
      LargestIs(xs, a);
      BoundAt(xs, a, i);
    }
    StepIs(step, t.max as real, m);
    OneDynamic(xs[i], m, t, s, step);
  }

  lemma QuantizedAt(xs: seq<real>, t: IntType, i: nat)
    requires i < |xs|
    ensures QuantizeDynamic(xs, t).Some? && |QuantizeDynamic(xs, t).value| == |xs|
    ensures QuantizeDynamic(xs, t).value[i] == Clamp(RoundScaled(xs[i], DynamicScale(xs, t)), t)
  {
  }

  lemma BoundAt(xs: seq<real>, a: real, i: nat)
    requires i < |xs| && Bounds(xs, a)
    ensures Abs(xs[i]) <= a
  {
  }

  lemma StepIs(step: real, m: real, a: real)
    requires m > 0.0 && step * m == a
    ensures step == Over(a, m)
  {
  }

  lemma OneDynamic(x: real, a: real, t: IntType, s: real, step: real)
    requires a > 0.0 && t.max > 0 && t.min <= -t.max && Abs(x) <= a && s == Over(t.max as real, a) && step == Over(a, t.max as real)
    ensures var q := RoundScaled(x, s);
      && Fits(q, t) && -t.max <= q <= t.max && Clamp(q, t) == q && s * step == 1.0
      && Abs(q as real * step - x) <= step / 2.0
      && (x == a ==> q == t.max) && (x == -a ==> q == -t.max)
  {
    hide Round;
    OneFits(x, a, t, s);
    OneError(x, a, t, s);
    Reciprocal(a, t.max as real);
    HalfOf(a, t.max as real);
    if x == a || x == -a {
      LargestRounds(x, a, t, s);
    }
  }

  lemma HalfOf(a: real, m: real)
    requires m > 0.0
    ensures a / (2.0 * m) == a / m / 2.0
  {
  }

  lemma LargestRounds(x: real, a: real, t: IntType, s: real)
    requires a > 0.0 && t.max > 0 && s == t.max as real / a && (x == a || x == -a)
    ensures RoundScaled(x, s) == if x == a then t.max else -t.max
  {
    assert a * s == t.max as real;
    assert (-a) * s == -(a * s) == (-t.max) as real;
    RoundInteger(t.max);
    RoundInteger(-t.max);
  }

  lemma OneFits(x: real, a: real, t: IntType, s: real)
    requires a > 0.0 && t.max > 0 && t.min <= -t.max && Abs(x) <= a && s == t.max as real / a
    ensures -t.max <= RoundScaled(x, s) <= t.max && Fits(RoundScaled(x, s), t) && Clamp(RoundScaled(x, s), t) == RoundScaled(x, s)
  {
    ScaleBound(x, a, t.max as real, s);
    RoundScaledWithin(x, s, -t.max, t.max);
  }

  lemma OneError(x: real, a: real, t: IntType, s: real)
    requires a > 0.0 && t.max > 0 && s == t.max as real / a
    ensures s > 0.0 && Abs(Restored(RoundScaled(x, s), s) - x) <= a / (2.0 * t.max as real)
  {
    Reciprocal(a, t.max as real);
    RestoredError(x, a, t.max as real, s, 1.0 / s);
  }

  lemma RestoredError(x: real, a: real, m: real, s: real, r: real)
    requires a > 0.0 && m > 0.0 && s == m / a && s > 0.0 && r == 1.0 / s == a / m && s * r == 1.0 && r > 0.0
    ensures Abs(Restored(RoundScaled(x, s), s) - x) <= a / (2.0 * m)
  {
    RoundNearest(x * s, 0);
    ScaleError(RoundScaled(x, s) as real, x, s, r);
    HalfStep(a, m);
  }
}
