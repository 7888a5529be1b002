/** Convolution of quantized images: the convolution runs on the raw samples, and the offsets are corrected afterwards. */
module QuantizedConvolution {
  import opened Radices
  import opened ScaledLayouts
  import opened Sums
  import opened Wrappers

  /** Four-dimensional samples: batch, channels, height and width, or for a kernel output and input channels, height and
      width. What `at` gives outside the dimensions is not part of the tensor. */
  datatype Samples = Samples(n: nat, c: nat, h: nat, w: nat, at: (nat, nat, nat, nat) -> real)

  /** An input with one scale and perhaps an offset. */
  datatype Input = Input(qs: Samples, d: real, m: Option<real>) {
    function Dequant(): Samples {
      qs.(at := (n: nat, c: nat, i: nat, j: nat) => DequantSample(qs.at(n, c, i, j), OrZero(m), d))
    }
  }

  datatype Weight = Weight(qs: Samples, d: Param, m: Option<Param>) {
    predicate Valid() {
      d.Fits(qs.n) && (m.Some? ==> m.value.Fits(qs.n))
    }

    function Dequant(): Samples {
      qs.(at := (f: nat, c: nat, u: nat, v: nat) => DequantSample(qs.at(f, c, u, v), OffsetOf(m, f), d.Of(f)))
    }
  }

  /** Zeros around every image. */
  function ZeroPad(x: Samples, onH: nat, onW: nat): Samples {
    Samples(x.n, x.c, x.h + 2 * onH, x.w + 2 * onW, (n: nat, c: nat, i: nat, j: nat) =>
      if onH <= i < onH + x.h && onW <= j < onW + x.w then x.at(n, c, i - onH, j - onW) else 0.0)
  }

  /** The padding list repeats the padding on H twice and then the padding on W twice, but `F.pad` takes the last dimension first. */
  function PadInput(x: Samples, padding: (nat, nat)): Samples {
    ZeroPad(x, padding.1, padding.0)
  }

  function OutSize(size: nat, kernel: nat, stride: nat): nat
    requires stride > 0 && kernel <= size
  {
    (size - kernel) / stride + 1
  }

  // ---- Sums over a window ----

  /** A sum over input channels and kernel positions. */
  function Sum3(c: nat, h: nat, w: nat, g: (nat, nat, nat) -> real): real {
    Sum(c, Planes(h, w, g))
  }

  function Planes(h: nat, w: nat, g: (nat, nat, nat) -> real): nat -> real {
    (k: nat) => Sum(h, RowSums(w, Plane(g, k)))
  }

  function Plane(g: (nat, nat, nat) -> real, k: nat): (nat, nat) -> real {
    (u: nat, v: nat) => g(k, u, v)
  }

  /** What the window of output position `(i, j)` sees at one kernel position. */
  function Seen(x: Samples, n: nat, i: nat, j: nat, stride: (nat, nat)): (nat, nat, nat) -> real {
    (c: nat, u: nat, v: nat) => x.at(n, c, i * stride.0 + u, j * stride.1 + v)
  }

  function KernelAt(w: Samples, f: nat): (nat, nat, nat) -> real {
    (c: nat, u: nat, v: nat) => w.at(f, c, u, v)
  }

  function Times(a: (nat, nat, nat) -> real, b: (nat, nat, nat) -> real): (nat, nat, nat) -> real {
    (c: nat, u: nat, v: nat) => a(c, u, v) * b(c, u, v)
  }

  /** One output of a convolution without padding. */
  function ConvAt(x: Samples, w: Samples, n: nat, f: nat, i: nat, j: nat, stride: (nat, nat)): real {
    Sum3(w.c, w.h, w.w, Times(Seen(x, n, i, j, stride), KernelAt(w, f)))
  }

  predicate Convolvable(x: Samples, w: Samples, stride: (nat, nat)) {
    stride.0 > 0 && stride.1 > 0 && w.c == x.c && 0 < w.h <= x.h && 0 < w.w <= x.w
  }

  function Conv(x: Samples, w: Samples, bias: nat -> real, stride: (nat, nat)): Samples
    requires Convolvable(x, w, stride)
  {
    Samples(x.n, w.n, OutSize(x.h, w.h, stride.0), OutSize(x.w, w.w, stride.1),
            (n: nat, f: nat, i: nat, j: nat) => ConvAt(x, w, n, f, i, j, stride) + bias(f))
  }

  // ---- The corrections ----

  /** The sum of the flattened kernel of an output channel. */
  function KernelSum(w: Samples, f: nat): real {
    Sum(w.c * (w.h * w.w), Flattened(w.h * w.w, FlatKernel(w, f)))
  }

  function FlatKernel(w: Samples, f: nat): (nat, nat) -> real {
    (c: nat, k: nat) => Flattened(w.w, Plane(KernelAt(w, f), c))(k)
  }

  /** The samples summed over channels, then over the window. */
  function PooledSum(x: Samples, w: Samples, n: nat, i: nat, j: nat, stride: (nat, nat)): real {
    Sum(w.h, RowSums(w.w, ChannelSums(x, n, i, j, stride)))
  }

  function ChannelSums(x: Samples, n: nat, i: nat, j: nat, stride: (nat, nat)): (nat, nat) -> real {
    (u: nat, v: nat) => Sum(x.c, Channels(Seen(x, n, i, j, stride), u, v))
  }

  function Channels(g: (nat, nat, nat) -> real, u: nat, v: nat): nat -> real {
    (c: nat) => g(c, u, v)
  }

  function Correct(xm: Option<real>, wm: Option<Param>, f: nat, raw: real, kernel: real, pooled: real, size: real): real {
    var y := if xm.Some? then raw - kernel * xm.value else raw;
    var z := if wm.Some? then y - pooled * wm.value.Of(f) else y;
    if xm.Some? && wm.Some? then z + xm.value * wm.value.Of(f) * size else z
  }

  function Corrected(x: Samples, w: Samples, xm: Option<real>, wm: Option<Param>, raw: real,
                     n: nat, f: nat, i: nat, j: nat, stride: (nat, nat)): real
  {
    Correct(xm, wm, f, raw, KernelSum(w, f), PooledSum(x, w, n, i, j, stride), (w.c * w.h * w.w) as real)
  }

  // ---- Linearity ----

  function Plus(p: (nat, nat, nat) -> real, q: (nat, nat, nat) -> real): (nat, nat, nat) -> real {
    (c: nat, u: nat, v: nat) => p(c, u, v) + q(c, u, v)
  }

  function Scale(a: real, p: (nat, nat, nat) -> real): (nat, nat, nat) -> real {
    (c: nat, u: nat, v: nat) => a * p(c, u, v)
  }

  lemma Sum3Same(c: nat, h: nat, w: nat, g: (nat, nat, nat) -> real, p: (nat, nat, nat) -> real)
    requires forall k: nat, u: nat, v: nat | k < c && u < h && v < w :: g(k, u, v) == p(k, u, v)
    ensures Sum3(c, h, w, g) == Sum3(c, h, w, p)
  {
    forall k: nat | k < c ensures Planes(h, w, g)(k) == Planes(h, w, p)(k) {
      forall u: nat | u < h ensures RowSums(w, Plane(g, k))(u) == RowSums(w, Plane(p, k))(u) {
        SumSame(w, Row(Plane(g, k), u), Row(Plane(p, k), u));
      }
      SumSame(h, RowSums(w, Plane(g, k)), RowSums(w, Plane(p, k)));
    }
    SumSame(c, Planes(h, w, g), Planes(h, w, p));
  }

  lemma Sum3Plus(c: nat, h: nat, w: nat, p: (nat, nat, nat) -> real, q: (nat, nat, nat) -> real)
    ensures Sum3(c, h, w, Plus(p, q)) == Sum3(c, h, w, p) + Sum3(c, h, w, q)
  {
    forall k: nat | k < c ensures Planes(h, w, Plus(p, q))(k) == Planes(h, w, p)(k) + Planes(h, w, q)(k) {
      var g := Plane(Plus(p, q), k);
      forall u: nat | u < h ensures RowSums(w, g)(u) == RowSums(w, Plane(p, k))(u) + RowSums(w, Plane(q, k))(u) {
        SumAdd(w, Row(g, u), Row(Plane(p, k), u), Row(Plane(q, k), u));
      }
      SumAdd(h, RowSums(w, g), RowSums(w, Plane(p, k)), RowSums(w, Plane(q, k)));
    }
    SumAdd(c, Planes(h, w, Plus(p, q)), Planes(h, w, p), Planes(h, w, q));
  }

  lemma Sum3Scaled(c: nat, h: nat, w: nat, a: real, p: (nat, nat, nat) -> real)
    ensures Sum3(c, h, w, Scale(a, p)) == a * Sum3(c, h, w, p)
  {
    hide Sum;
    forall k: nat | k < c ensures Planes(h, w, Scale(a, p))(k) == a * Planes(h, w, p)(k) {
      var g := Plane(Scale(a, p), k);
      forall u: nat | u < h ensures RowSums(w, g)(u) == a * RowSums(w, Plane(p, k))(u) {
        SumScaled(w, a, Row(g, u), Row(Plane(p, k), u));
      }
      SumScaled(h, a, RowSums(w, g), RowSums(w, Plane(p, k)));
    }
    SumScaled(c, a, Planes(h, w, Scale(a, p)), Planes(h, w, p));
  }

  lemma {:induction false} CastProduct(m: nat, n: nat)
    ensures (m * n) as real == m as real * n as real
  {
    if m > 0 {
      CastProduct(m - 1, n);
      assert m * n == (m - 1) * n + n;
    }
  }

  function Everywhere(a: real): (nat, nat, nat) -> real {
    (k: nat, u: nat, v: nat) => a
  }

  lemma Sum3Constant(c: nat, h: nat, w: nat, a: real)
    ensures Sum3(c, h, w, Everywhere(a)) == (c * h * w) as real * a
  {
    forall k: nat | k < c ensures Planes(h, w, Everywhere(a))(k) == h as real * (w as real * a) {
      Sum2Constant(h, w, Plane(Everywhere(a), k), a);
    }
    SumConstant(c, h as real * (w as real * a), Planes(h, w, Everywhere(a)));
    CastProduct(c, h);
    CastProduct(c * h, w);
  }

  lemma Sum2Constant(h: nat, w: nat, g: (nat, nat) -> real, a: real)
    requires forall u: nat, v: nat :: g(u, v) == a
    ensures Sum(h, RowSums(w, g)) == h as real * (w as real * a)
  {
    forall u: nat | u < h ensures RowSums(w, g)(u) == w as real * a {
      SumConstant(w, a, Row(g, u));
    }
    SumConstant(h, w as real * a, RowSums(w, g));
  }

  // ---- What the corrections compute ----

  /** The flattened kernel sum is the sum over channels and kernel positions. */
  lemma KernelSumIs(w: Samples, f: nat)
    ensures KernelSum(w, f) == Sum3(w.c, w.h, w.w, KernelAt(w, f))
  {
    var n := w.h * w.w;
    SumFlattened(w.c, n, FlatKernel(w, f));
    forall c: nat | c < w.c ensures RowSums(n, FlatKernel(w, f))(c) == Planes(w.h, w.w, KernelAt(w, f))(c) {
      var plane := Plane(KernelAt(w, f), c);
      SumFlattened(w.h, w.w, plane);
      SumSame(n, Row(FlatKernel(w, f), c), Flattened(w.w, plane));
    }
    SumSame(w.c, RowSums(n, FlatKernel(w, f)), Planes(w.h, w.w, KernelAt(w, f)));
  }

  /** One row of the window, as a table of channels and columns. */
  function RowOf(g: (nat, nat, nat) -> real, u: nat): (nat, nat) -> real {
    (c: nat, v: nat) => g(c, u, v)
  }

  /** The sums along the columns, as a table of rows and channels. */
  function ByRow(g: (nat, nat, nat) -> real, w: nat): (nat, nat) -> real {
    (u: nat, c: nat) => RowSums(w, RowOf(g, u))(c)
  }

  /** Summing the channels first and pooling afterwards sums the window. */
  lemma PooledSumIs(x: Samples, w: Samples, n: nat, i: nat, j: nat, stride: (nat, nat))
    requires w.c == x.c
    ensures PooledSum(x, w, n, i, j, stride) == Sum3(w.c, w.h, w.w, Seen(x, n, i, j, stride))
  {
    var g := Seen(x, n, i, j, stride);
    forall u: nat | u < w.h ensures RowSums(w.w, ChannelSums(x, n, i, j, stride))(u) == RowSums(w.c, ByRow(g, w.w))(u) {
      ChannelsFirst(x, n, i, j, stride, w.w, u);
    }
    SumSame(w.h, RowSums(w.w, ChannelSums(x, n, i, j, stride)), RowSums(w.c, ByRow(g, w.w)));
    SumSwap(w.h, w.c, ByRow(g, w.w));
    forall c: nat | c < w.c ensures ColumnSums(w.h, ByRow(g, w.w))(c) == Planes(w.h, w.w, g)(c) {
      PlaneSum(g, w.h, w.w, c);
    }
    SumSame(w.c, ColumnSums(w.h, ByRow(g, w.w)), Planes(w.h, w.w, g));
  }

  lemma ChannelsFirst(x: Samples, n: nat, i: nat, j: nat, stride: (nat, nat), w: nat, u: nat)
    ensures RowSums(w, ChannelSums(x, n, i, j, stride))(u) == RowSums(x.c, ByRow(Seen(x, n, i, j, stride), w))(u)
  {
    var g := Seen(x, n, i, j, stride);
    forall v: nat | v < w ensures ChannelSums(x, n, i, j, stride)(u, v) == ColumnSums(x.c, RowOf(g, u))(v) {
      SumSame(x.c, Column(RowOf(g, u), v), Channels(g, u, v));
    }
    SumSame(w, Row(ChannelSums(x, n, i, j, stride), u), ColumnSums(x.c, RowOf(g, u)));
    SumSwap(x.c, w, RowOf(g, u));
    SumSame(x.c, Row(ByRow(g, w), u), RowSums(w, RowOf(g, u)));
  }

  lemma PlaneSum(g: (nat, nat, nat) -> real, h: nat, w: nat, c: nat)
    ensures ColumnSums(h, ByRow(g, w))(c) == Planes(h, w, g)(c)
  {
    forall u: nat | u < h ensures ByRow(g, w)(u, c) == RowSums(w, Plane(g, c))(u) {
      assert ByRow(g, w)(u, c) == RowSums(w, RowOf(g, u))(c);
      SumSame(w, Row(RowOf(g, u), c), Row(Plane(g, c), u));
    }
    SumSame(h, Column(ByRow(g, w), c), RowSums(w, Plane(g, c)));
  }

  function Shifted(g: (nat, nat, nat) -> real, shift: real): (nat, nat, nat) -> real {
    (c: nat, u: nat, v: nat) => g(c, u, v) - shift
  }

  /** The four terms of a product of shifted factors. */
  function MultipliedOut(x: (nat, nat, nat) -> real, k: (nat, nat, nat) -> real, mx: real, mw: real): (nat, nat, nat) -> real {
    Plus(Plus(Plus(Times(x, k), Scale(-mw, x)), Scale(-mx, k)), Everywhere(mx * mw))
  }

  lemma MultipliedOutSum(c: nat, h: nat, w: nat, x: (nat, nat, nat) -> real, k: (nat, nat, nat) -> real, mx: real, mw: real)
    ensures Sum3(c, h, w, Times(Shifted(x, mx), Shifted(k, mw))) == Sum3(c, h, w, MultipliedOut(x, k, mx, mw))
  {
    forall a: nat, u: nat, v: nat | a < c && u < h && v < w
      ensures Times(Shifted(x, mx), Shifted(k, mw))(a, u, v) == MultipliedOut(x, k, mx, mw)(a, u, v)
    {
      MultiplyOut(x(a, u, v), k(a, u, v), mx, mw);
    }
    Sum3Same(c, h, w, Times(Shifted(x, mx), Shifted(k, mw)), MultipliedOut(x, k, mx, mw));
  }

  lemma ShiftedProducts(c: nat, h: nat, w: nat, x: (nat, nat, nat) -> real, k: (nat, nat, nat) -> real, mx: real, mw: real)
    ensures Sum3(c, h, w, Times(Shifted(x, mx), Shifted(k, mw)))
         == Sum3(c, h, w, Times(x, k)) + (-mw) * Sum3(c, h, w, x) + (-mx) * Sum3(c, h, w, k) + (c * h * w) as real * (mx * mw)
  {
    MultipliedOutSum(c, h, w, x, k, mx, mw);
    Sum3Plus(c, h, w, Plus(Plus(Times(x, k), Scale(-mw, x)), Scale(-mx, k)), Everywhere(mx * mw));
    Sum3Plus(c, h, w, Plus(Times(x, k), Scale(-mw, x)), Scale(-mx, k));
    Sum3Plus(c, h, w, Times(x, k), Scale(-mw, x));
    Sum3Scaled(c, h, w, -mw, x);
    Sum3Scaled(c, h, w, -mx, k);
    Sum3Constant(c, h, w, mx * mw);
  }

  lemma CorrectionsAdd(xm: Option<real>, wm: Option<Param>, f: nat, raw: real, kernel: real, pooled: real, size: real, total: real)
    requires total == raw + (-OffsetOf(wm, f)) * pooled + (-OrZero(xm)) * kernel + size * (OrZero(xm) * OffsetOf(wm, f))
    ensures Correct(xm, wm, f, raw, kernel, pooled, size) == total
  {
  }

  /** The corrected convolution of raw samples is the convolution of the samples less their offsets. */
  lemma CorrectedIs(x: Samples, w: Samples, xm: Option<real>, wm: Option<Param>, n: nat, f: nat, i: nat, j: nat, stride: (nat, nat), raw: real)
    requires w.c == x.c && raw == ConvAt(x, w, n, f, i, j, stride)
    ensures Corrected(x, w, xm, wm, raw, n, f, i, j, stride)
         == Sum3(w.c, w.h, w.w, Times(Shifted(Seen(x, n, i, j, stride), OrZero(xm)), Shifted(KernelAt(w, f), OffsetOf(wm, f))))
  {
    hide KernelSum, PooledSum, Sum3;
    KernelSumIs(w, f);
    PooledSumIs(x, w, n, i, j, stride);
    var mx, mw := OrZero(xm), OffsetOf(wm, f);
    var seen, kernel := Seen(x, n, i, j, stride), KernelAt(w, f);
    var total := Sum3(w.c, w.h, w.w, Times(Shifted(seen, mx), Shifted(kernel, mw)));
    ShiftedProducts(w.c, w.h, w.w, seen, kernel, mx, mw);
    CorrectionsAdd(xm, wm, f, raw, KernelSum(w, f), PooledSum(x, w, n, i, j, stride), (w.c * w.h * w.w) as real, total);
  }

  // ---- The quantized convolution ----

  datatype Output = Quantized(qs: Samples, d: Param) | Dequantized(y: Samples)

  function DequantOutput(o: Output): Samples {
    match o
    case Quantized(qs, d) => qs.(at := (n: nat, f: nat, i: nat, j: nat) => qs.at(n, f, i, j) * d.Of(f))
    case Dequantized(y) => y
  }

  /** The product of the scales of input and weight. */
  function OutputScale(x: Input, w: Weight): Param {
    match w.d
    case PerTensor(d) => PerTensor(x.d * d)
    case PerAxis(ds) => PerAxis(seq(|ds|, f requires 0 <= f < |ds| => x.d * ds[f]))
  }

  /** A weight offset for each output channel loses its only dimension when there is one channel, and then it cannot be
      brought to the shape of the output. */
  predicate OffsetShaped(m: Option<Param>) {
    m.Some? && m.value.PerAxis? ==> |m.value.values| != 1
  }

  /** The bias that the convolution kernel adds to the raw samples. */
  function KernelBias(bias: Bias): nat -> real {
    (f: nat) => if bias.QuantizedBias? then BiasAt(bias.qs, f) else 0.0
  }

  function CorrectAll(raw: Samples, padded: Samples, w: Samples, xm: Option<real>, wm: Option<Param>, stride: (nat, nat)): Samples {
    raw.(at := (n: nat, f: nat, i: nat, j: nat) => Corrected(padded, w, xm, wm, raw.at(n, f, i, j), n, f, i, j, stride))
  }

  function QConv(x: Input, w: Weight, bias: Bias, stride: (nat, nat), padding: (nat, nat)): Option<Output>
    requires w.Valid()
  {
    var padded := PadInput(x.qs, padding);
    if !Convolvable(padded, w.qs, stride) || !OffsetShaped(w.m) then None
    else
      Some(Finish(CorrectAll(Conv(padded, w.qs, KernelBias(bias), stride), padded, w.qs, x.m, w.m, stride), OutputScale(x, w), bias))
  }

  function Finish(qs: Samples, scale: Param, bias: Bias): Output {
    match bias
    case NoBias => Quantized(qs, scale)
    case QuantizedBias(_, d) => Quantized(qs, d)
    case PlainBias(b) => Dequantized(AddBias(DequantOutput(Quantized(qs, scale)), b))
  }

  function AddBias(y: Samples, b: seq<real>): Samples {
    y.(at := (n: nat, f: nat, i: nat, j: nat) => y.at(n, f, i, j) + BiasAt(b, f))
  }

  lemma OutputScaleOf(x: Input, w: Weight, f: nat)
    ensures OutputScale(x, w).Of(f) == x.d * w.d.Of(f)
  {
  }

  /** The input as it is convolved: padded first, dequantized afterwards. */
  function PaddedDequant(x: Input, padding: (nat, nat)): Samples {
    Input(PadInput(x.qs, padding), x.d, x.m).Dequant()
  }

  /** Scaling the corrected sum gives the convolution of dequantized values. */
  lemma ScaledConv(x: Input, w: Weight, padding: (nat, nat), n: nat, f: nat, i: nat, j: nat, stride: (nat, nat), k: real)
    requires k == x.d * w.d.Of(f)
    ensures ConvAt(PaddedDequant(x, padding), w.Dequant(), n, f, i, j, stride)
         == k * Sum3(w.qs.c, w.qs.h, w.qs.w,
              Times(Shifted(Seen(PadInput(x.qs, padding), n, i, j, stride), OrZero(x.m)),
                    Shifted(KernelAt(w.qs, f), OffsetOf(w.m, f))))
  {
    hide Sum3;
    var seen, kernel := Seen(PadInput(x.qs, padding), n, i, j, stride), KernelAt(w.qs, f);
    var raw := Times(Shifted(seen, OrZero(x.m)), Shifted(kernel, OffsetOf(w.m, f)));
    var scaled := Times(Seen(PaddedDequant(x, padding), n, i, j, stride), KernelAt(w.Dequant(), f));
    forall c: nat, u: nat, v: nat | c < w.qs.c && u < w.qs.h && v < w.qs.w
      ensures scaled(c, u, v) == Scale(k, raw)(c, u, v)
    {
      assert Seen(PaddedDequant(x, padding), n, i, j, stride)(c, u, v) == DequantSample(seen(c, u, v), OrZero(x.m), x.d);
      assert KernelAt(w.Dequant(), f)(c, u, v) == DequantSample(kernel(c, u, v), OffsetOf(w.m, f), w.d.Of(f));
      DequantProductOf(seen(c, u, v), kernel(c, u, v), OrZero(x.m), OffsetOf(w.m, f), x.d, w.d.Of(f));
    }
    Sum3Same(w.qs.c, w.qs.h, w.qs.w, scaled, Scale(k, raw));
    Sum3Scaled(w.qs.c, w.qs.h, w.qs.w, k, raw);
  }

  /** A bias added to the raw samples stays what it is. */
  lemma BiasUncorrected(x: Samples, w: Samples, xm: Option<real>, wm: Option<Param>, raw: real, b: real,
                        n: nat, f: nat, i: nat, j: nat, stride: (nat, nat))
    ensures Corrected(x, w, xm, wm, raw + b, n, f, i, j, stride) == Corrected(x, w, xm, wm, raw, n, f, i, j, stride) + b
  {
  }

  /** The caller scales a quantized bias by the scales of input and weight. */
  predicate BiasScaled(x: Input, w: Weight, bias: Bias) {
    bias.QuantizedBias? ==> forall f: nat | f < w.qs.n :: bias.d.Of(f) == x.d * w.d.Of(f)
  }

  /** The convolution of samples less their offsets at one output position. */
  function SumAt(x: Input, w: Weight, padding: (nat, nat), n: nat, f: nat, i: nat, j: nat, stride: (nat, nat)): real {
    Sum3(w.qs.c, w.qs.h, w.qs.w,
         Times(Shifted(Seen(PadInput(x.qs, padding), n, i, j, stride), OrZero(x.m)),
               Shifted(KernelAt(w.qs, f), OffsetOf(w.m, f))))
  }

  /** The corrected samples, before they are scaled. */
  lemma CorrectedSampleAt(x: Input, w: Weight, bias: Bias, stride: (nat, nat), padding: (nat, nat), n: nat, f: nat, i: nat, j: nat)
    requires Convolvable(PadInput(x.qs, padding), w.qs, stride)
    ensures var padded := PadInput(x.qs, padding);
      CorrectAll(Conv(padded, w.qs, KernelBias(bias), stride), padded, w.qs, x.m, w.m, stride).at(n, f, i, j)
        == SumAt(x, w, padding, n, f, i, j, stride) + KernelBias(bias)(f)
  {
    var padded := PadInput(x.qs, padding);
    var raw := Conv(padded, w.qs, KernelBias(bias), stride);
    assert raw.at(n, f, i, j) == ConvAt(padded, w.qs, n, f, i, j, stride) + KernelBias(bias)(f);
    BiasUncorrected(padded, w.qs, x.m, w.m, ConvAt(padded, w.qs, n, f, i, j, stride), KernelBias(bias)(f), n, f, i, j, stride);
    CorrectedIs(padded, w.qs, x.m, w.m, n, f, i, j, stride, ConvAt(padded, w.qs, n, f, i, j, stride));
    assert CorrectAll(raw, padded, w.qs, x.m, w.m, stride).at(n, f, i, j)
        == Corrected(padded, w.qs, x.m, w.m, raw.at(n, f, i, j), n, f, i, j, stride);
  }

  lemma ScaleSum(s: real, kernelBias: real, scale: real)
    ensures (s + kernelBias) * scale == scale * s + kernelBias * scale
  {
  }

  lemma FinishMeans(qs: Samples, scale: Param, bias: Bias, n: nat, f: nat, i: nat, j: nat, s: real)
    requires qs.at(n, f, i, j) == s + KernelBias(bias)(f) && (bias.QuantizedBias? ==> bias.d.Of(f) == scale.Of(f))
    ensures DequantOutput(Finish(qs, scale, bias)).at(n, f, i, j) == scale.Of(f) * s + BiasOf(bias, f)
  {
    ScaleSum(s, KernelBias(bias)(f), scale.Of(f));
  }

  /** The corrected sum at one output position relates the samples to the convolution of dequantized values. */
  lemma SampleAndConv(x: Input, w: Weight, bias: Bias, stride: (nat, nat), padding: (nat, nat), n: nat, f: nat, i: nat, j: nat, k: real)
    returns (s: real)
    requires Convolvable(PadInput(x.qs, padding), w.qs, stride) && k == x.d * w.d.Of(f)
    ensures var padded := PadInput(x.qs, padding);
      CorrectAll(Conv(padded, w.qs, KernelBias(bias), stride), padded, w.qs, x.m, w.m, stride).at(n, f, i, j) == s + KernelBias(bias)(f)
    ensures ConvAt(PaddedDequant(x, padding), w.Dequant(), n, f, i, j, stride) == k * s
  {
    hide CorrectAll, Conv, PadInput, Seen, Sum3;
    s := SumAt(x, w, padding, n, f, i, j, stride);
    CorrectedSampleAt(x, w, bias, stride, padding, n, f, i, j);
    ScaledConv(x, w, padding, n, f, i, j, stride, k);
  }

  /** The quantized convolution, dequantized, is the convolution of the padded and then dequantized input with the
      dequantized weight, plus the bias. */
  lemma QConvIsConv(x: Input, w: Weight, bias: Bias, stride: (nat, nat), padding: (nat, nat), o: Output, n: nat, f: nat, i: nat, j: nat)
    requires w.Valid() && QConv(x, w, bias, stride, padding) == Some(o) && BiasScaled(x, w, bias) && f < w.qs.n
    ensures DequantOutput(o).at(n, f, i, j)
         == ConvAt(PaddedDequant(x, padding), w.Dequant(), n, f, i, j, stride) + BiasOf(bias, f)
  {
    hide ConvAt, CorrectAll, Finish, PadInput, PaddedDequant;
    var padded := PadInput(x.qs, padding);
    OutputScaleOf(x, w, f);
    var s := SampleAndConv(x, w, bias, stride, padding, n, f, i, j, OutputScale(x, w).Of(f));
    FinishMeans(CorrectAll(Conv(padded, w.qs, KernelBias(bias), stride), padded, w.qs, x.m, w.m, stride), OutputScale(x, w), bias, n, f, i, j, s);
  }

  // ---- Padding ----

  /** The padded image has the intended size exactly if the padding is the same on both dimensions, and then it is the
      intended image. */
  lemma PaddingOrder(x: Samples, padding: (nat, nat))
    ensures PadInput(x, padding).h == x.h + 2 * padding.0 && PadInput(x, padding).w == x.w + 2 * padding.1 <==> padding.0 == padding.1
    ensures padding.0 == padding.1 ==> PadInput(x, padding) == ZeroPad(x, padding.0, padding.1)
  {
  }

  /** The kernel positions that fall into the padding. */
  function InPadding(x: Samples, pad: nat, i: nat, j: nat, stride: (nat, nat)): (nat, nat, nat) -> real {
    (c: nat, u: nat, v: nat) =>
      if pad <= i * stride.0 + u < pad + x.h && pad <= j * stride.1 + v < pad + x.w then 0.0 else 1.0
  }

  /** The weight that meets padding at an output position. */
  function PaddingWeight(x: Input, w: Weight, pad: nat, f: nat, i: nat, j: nat, stride: (nat, nat)): real {
    Sum3(w.qs.c, w.qs.h, w.qs.w, Times(InPadding(x.qs, pad, i, j, stride), KernelAt(w.Dequant(), f)))
  }

  lemma SplitPadding(zero: real, scale: real, k: real, out: real)
    ensures (zero + (-scale) * out) * k == zero * k + (-scale) * (out * k)
  {
  }

  lemma ErrorSum(c: nat, h: nat, w: nat, actual: (nat, nat, nat) -> real, intended: (nat, nat, nat) -> real,
                 out: (nat, nat, nat) -> real, kernel: (nat, nat, nat) -> real, offset: real)
    requires forall a: nat, u: nat, v: nat :: actual(a, u, v) == intended(a, u, v) + (-offset) * out(a, u, v)
    ensures Sum3(c, h, w, Times(actual, kernel))
         == Sum3(c, h, w, Times(intended, kernel)) + (-offset) * Sum3(c, h, w, Times(out, kernel))
  {
    forall a: nat, u: nat, v: nat
      ensures Times(actual, kernel)(a, u, v) == Plus(Times(intended, kernel), Scale(-offset, Times(out, kernel)))(a, u, v)
    {
      SplitPadding(intended(a, u, v), offset, kernel(a, u, v), out(a, u, v));
    }
    Sum3Same(c, h, w, Times(actual, kernel), Plus(Times(intended, kernel), Scale(-offset, Times(out, kernel))));
    Sum3Plus(c, h, w, Times(intended, kernel), Scale(-offset, Times(out, kernel)));
    Sum3Scaled(c, h, w, -offset, Times(out, kernel));
  }

  /** Padding before dequantizing pads with dequantized zeros: the difference to padding the dequantized input with zeros is
      the dequantized offset times the weight that meets padding. */
  lemma PaddingError(x: Input, w: Weight, pad: nat, n: nat, f: nat, i: nat, j: nat, stride: (nat, nat), offset: real)
    requires offset == OrZero(x.m) * x.d
    ensures ConvAt(PaddedDequant(x, (pad, pad)), w.Dequant(), n, f, i, j, stride)
         == ConvAt(ZeroPad(x.Dequant(), pad, pad), w.Dequant(), n, f, i, j, stride) + (-offset) * PaddingWeight(x, w, pad, f, i, j, stride)
  {
    hide Sum3, PaddedDequant, ZeroPad;
    var kernel, out := KernelAt(w.Dequant(), f), InPadding(x.qs, pad, i, j, stride);
    var actual, intended := Seen(PaddedDequant(x, (pad, pad)), n, i, j, stride), Seen(ZeroPad(x.Dequant(), pad, pad), n, i, j, stride);
    forall a: nat, u: nat, v: nat ensures actual(a, u, v) == intended(a, u, v) + (-offset) * out(a, u, v) {
      PaddedValue(x, pad, n, a, i * stride.0 + u, j * stride.1 + v, offset);
    }
    ErrorSum(w.qs.c, w.qs.h, w.qs.w, actual, intended, out, kernel, offset);
  }

  lemma PaddedValue(x: Input, pad: nat, n: nat, c: nat, i: nat, j: nat, offset: real)
    requires offset == OrZero(x.m) * x.d
    ensures var outside := if pad <= i < pad + x.qs.h && pad <= j < pad + x.qs.w then 0.0 else 1.0;
      PaddedDequant(x, (pad, pad)).at(n, c, i, j) == ZeroPad(x.Dequant(), pad, pad).at(n, c, i, j) + (-offset) * outside
  {
    var raw := PadInput(x.qs, (pad, pad)).at(n, c, i, j);
    assert PaddedDequant(x, (pad, pad)).at(n, c, i, j) == DequantSample(raw, OrZero(x.m), x.d);
    if pad <= i < pad + x.qs.h && pad <= j < pad + x.qs.w {
      assert x.Dequant().at(n, c, i - pad, j - pad) == DequantSample(raw, OrZero(x.m), x.d);
    }
  }

  /** The window of an output stays inside the image. */
  lemma WindowInside(size: nat, kernel: nat, stride: nat, i: nat, u: nat)
    requires stride > 0 && kernel <= size && i < OutSize(size, kernel, stride) && u < kernel
    ensures i * stride + u < size
  {
    var q := (size - kernel) / stride;
    assert i * stride <= q * stride <= size - kernel;
  }

  lemma NoPaddingWeight(x: Input, w: Weight, f: nat, i: nat, j: nat, stride: (nat, nat))
    requires Convolvable(PadInput(x.qs, (0, 0)), w.qs, stride)
    requires i < OutSize(x.qs.h, w.qs.h, stride.0) && j < OutSize(x.qs.w, w.qs.w, stride.1)
    ensures PaddingWeight(x, w, 0, f, i, j, stride) == 0.0
  {
    var terms := Times(InPadding(x.qs, 0, i, j, stride), KernelAt(w.Dequant(), f));
    forall c: nat, u: nat, v: nat | c < w.qs.c && u < w.qs.h && v < w.qs.w ensures terms(c, u, v) == Everywhere(0.0)(c, u, v) {
      WindowInside(x.qs.h, w.qs.h, stride.0, i, u);
      WindowInside(x.qs.w, w.qs.w, stride.1, j, v);
    }
    Sum3Same(w.qs.c, w.qs.h, w.qs.w, terms, Everywhere(0.0));
    Sum3Constant(w.qs.c, w.qs.h, w.qs.w, 0.0);
  }

  lemma OffBy(result: real, intended: real, bias: real, offset: real, weight: real)
    requires result == intended + (-offset) * weight + bias
    ensures result == intended + bias <==> offset == 0.0 || weight == 0.0
  {
  }

  lemma PaddedIsConv(x: Input, w: Weight, bias: Bias, stride: (nat, nat), pad: nat, o: Output, n: nat, f: nat, i: nat, j: nat)
    requires w.Valid() && QConv(x, w, bias, stride, (pad, pad)) == Some(o) && BiasScaled(x, w, bias) && f < w.qs.n
    ensures DequantOutput(o).at(n, f, i, j) == ConvAt(ZeroPad(x.Dequant(), pad, pad), w.Dequant(), n, f, i, j, stride) + BiasOf(bias, f)
       <==> OrZero(x.m) * x.d == 0.0 || PaddingWeight(x, w, pad, f, i, j, stride) == 0.0
  {
    QConvIsConv(x, w, bias, stride, (pad, pad), o, n, f, i, j);
    PaddingError(x, w, pad, n, f, i, j, stride, OrZero(x.m) * x.d);
    OffBy(DequantOutput(o).at(n, f, i, j), ConvAt(ZeroPad(x.Dequant(), pad, pad), w.Dequant(), n, f, i, j, stride), BiasOf(bias, f),
          OrZero(x.m) * x.d, PaddingWeight(x, w, pad, f, i, j, stride));
  }

  // ---- Written out ----

  function TripleSum(c: nat, h: nat, w: nat, g: (nat, nat, nat) -> real): real {
    Sum(c, (k: nat) => Sum(h, (u: nat) => Sum(w, (v: nat) => g(k, u, v))))
  }

  lemma RowIs(w: nat, g: (nat, nat, nat) -> real, k: nat, u: nat)
    ensures RowSums(w, Plane(g, k))(u) == Sum(w, (v: nat) => g(k, u, v))
  {
    SumSame(w, Row(Plane(g, k), u), (v: nat) => g(k, u, v));
  }

  lemma PlaneIs(h: nat, w: nat, g: (nat, nat, nat) -> real, k: nat)
    ensures Planes(h, w, g)(k) == Sum(h, (u: nat) => Sum(w, (v: nat) => g(k, u, v)))
  {
    var rows := (u: nat) => Sum(w, (v: nat) => g(k, u, v));
    forall u: nat | u < h ensures RowSums(w, Plane(g, k))(u) == rows(u) {
      RowIs(w, g, k, u);
    }
    SumSame(h, RowSums(w, Plane(g, k)), rows);
  }

  lemma Sum3Is(c: nat, h: nat, w: nat, g: (nat, nat, nat) -> real)
    ensures Sum3(c, h, w, g) == TripleSum(c, h, w, g)
  {
    var planes := (k: nat) => Sum(h, (u: nat) => Sum(w, (v: nat) => g(k, u, v)));
    forall k: nat | k < c ensures Planes(h, w, g)(k) == planes(k) {
      PlaneIs(h, w, g, k);
    }
    SumSame(c, Planes(h, w, g), planes);
  }

  /** A value of the input, and zero outside of the image. */
  function InputValue(x: Input, pad: nat, n: nat, c: nat, a: nat, b: nat): real {
    if pad <= a < pad + x.qs.h && pad <= b < pad + x.qs.w
    then (x.qs.at(n, c, a - pad, b - pad) - (if x.m.Some? then x.m.value else 0.0)) * x.d
    else 0.0
  }

  /** A value of the input as the convolution sees it: outside of the image a sample of zero, which stands for the offset. The
      padding of the first dimension is on the second one, and the other way round. */
  function SeenValue(x: Input, padding: (nat, nat), n: nat, c: nat, a: nat, b: nat): real {
    var q := if padding.1 <= a < padding.1 + x.qs.h && padding.0 <= b < padding.0 + x.qs.w
      then x.qs.at(n, c, a - padding.1, b - padding.0) else 0.0;
    (q - (if x.m.Some? then x.m.value else 0.0)) * x.d
  }

  function WeightValue(w: Weight, f: nat, c: nat, u: nat, v: nat): real {
    (w.qs.at(f, c, u, v) - (if w.m.Some? then ForChannel(w.m.value, f) else 0.0)) * ForChannel(w.d, f)
  }

  /** The convolution of the values of zero-padded input and weight, plus the bias, at one output. */
  function Intended(x: Input, w: Weight, bias: Bias, stride: (nat, nat), pad: nat, n: nat, f: nat, i: nat, j: nat): real
    requires w.Valid() && f < w.qs.n
  {
    TripleSum(w.qs.c, w.qs.h, w.qs.w, (c: nat, u: nat, v: nat) =>
      InputValue(x, pad, n, c, i * stride.0 + u, j * stride.1 + v) * WeightValue(w, f, c, u, v)) + BiasValue(bias, f)
  }

  lemma WeightIs(w: Weight, f: nat, c: nat, u: nat, v: nat)
    ensures w.Dequant().at(f, c, u, v) == WeightValue(w, f, c, u, v)
  {
    ParamIs(w.d, f);
    if w.m.Some? {
      ParamIs(w.m.value, f);
    }
  }

  lemma SeenIs(x: Input, padding: (nat, nat), n: nat, i: nat, j: nat, stride: (nat, nat), c: nat, u: nat, v: nat)
    ensures Seen(PaddedDequant(x, padding), n, i, j, stride)(c, u, v)
         == SeenValue(x, padding, n, c, i * stride.0 + u, j * stride.1 + v)
  {
    var a, b := i * stride.0 + u, j * stride.1 + v;
    var raw := PadInput(x.qs, padding).at(n, c, a, b);
    assert PaddedDequant(x, padding).at(n, c, a, b) == DequantSample(raw, OrZero(x.m), x.d);
    assert Seen(PaddedDequant(x, padding), n, i, j, stride)(c, u, v) == PaddedDequant(x, padding).at(n, c, a, b);
  }

  /** Whenever the quantized convolution succeeds, its dequantized result adds up, over input channels and kernel positions, the
      products of what the input and the weight stand for. */
  lemma QConvMeans(x: Input, w: Weight, bias: Bias, stride: (nat, nat), padding: (nat, nat), o: Output, n: nat, f: nat, i: nat, j: nat)
    requires w.Valid() && QConv(x, w, bias, stride, padding) == Some(o) && BiasScaled(x, w, bias)
    requires f < w.qs.n
    ensures DequantOutput(o).at(n, f, i, j)
         == TripleSum(w.qs.c, w.qs.h, w.qs.w, (c: nat, u: nat, v: nat) =>
              SeenValue(x, padding, n, c, i * stride.0 + u, j * stride.1 + v) * WeightValue(w, f, c, u, v))
          + BiasValue(bias, f)
  {
    hide Sum3, TripleSum, QConv, DequantOutput;
    var g := (c: nat, u: nat, v: nat) => SeenValue(x, padding, n, c, i * stride.0 + u, j * stride.1 + v) * WeightValue(w, f, c, u, v);
    var terms := Times(Seen(PaddedDequant(x, padding), n, i, j, stride), KernelAt(w.Dequant(), f));
    forall c: nat, u: nat, v: nat | c < w.qs.c && u < w.qs.h && v < w.qs.w ensures terms(c, u, v) == g(c, u, v) {
      SeenIs(x, padding, n, i, j, stride, c, u, v);
      WeightIs(w, f, c, u, v);
    }
    Sum3Same(w.qs.c, w.qs.h, w.qs.w, terms, g);
    Sum3Is(w.qs.c, w.qs.h, w.qs.w, g);
    BiasIs(bias, f);
    QConvIsConv(x, w, bias, stride, padding, o, n, f, i, j);
  }

  lemma IntendedIs(x: Input, w: Weight, bias: Bias, stride: (nat, nat), pad: nat, n: nat, f: nat, i: nat, j: nat)
    requires w.Valid() && f < w.qs.n
    ensures Intended(x, w, bias, stride, pad, n, f, i, j)
         == ConvAt(ZeroPad(x.Dequant(), pad, pad), w.Dequant(), n, f, i, j, stride) + BiasOf(bias, f)
  {
    hide Sum3, TripleSum;
    var g := (c: nat, u: nat, v: nat) => InputValue(x, pad, n, c, i * stride.0 + u, j * stride.1 + v) * WeightValue(w, f, c, u, v);
    var terms := Times(Seen(ZeroPad(x.Dequant(), pad, pad), n, i, j, stride), KernelAt(w.Dequant(), f));
    forall c: nat, u: nat, v: nat | c < w.qs.c && u < w.qs.h && v < w.qs.w ensures terms(c, u, v) == g(c, u, v) {
      WeightIs(w, f, c, u, v);
    }
    Sum3Same(w.qs.c, w.qs.h, w.qs.w, terms, g);
    Sum3Is(w.qs.c, w.qs.h, w.qs.w, g);
    BiasIs(bias, f);
  }

  /** With the same padding on both dimensions, the quantized convolution is the convolution of dequantized values at an
      output exactly if the input is symmetric or the weight that meets padding there adds up to nothing. */
  lemma QConvPadded(x: Input, w: Weight, bias: Bias, stride: (nat, nat), pad: nat, o: Output, n: nat, f: nat, i: nat, j: nat)
    requires w.Valid() && QConv(x, w, bias, stride, (pad, pad)) == Some(o) && BiasScaled(x, w, bias)
    requires f < w.qs.n
    ensures DequantOutput(o).at(n, f, i, j) == Intended(x, w, bias, stride, pad, n, f, i, j)
       <==> OrZero(x.m) * x.d == 0.0 || PaddingWeight(x, w, pad, f, i, j, stride) == 0.0
  {
    hide Intended, ConvAt, PaddingWeight, QConv;
    IntendedIs(x, w, bias, stride, pad, n, f, i, j);
    PaddedIsConv(x, w, bias, stride, pad, o, n, f, i, j);
  }

  /** Without padding, or for a symmetric input, that is everywhere. */
  lemma QConvExact(x: Input, w: Weight, bias: Bias, stride: (nat, nat), pad: nat, o: Output, n: nat, f: nat, i: nat, j: nat)
    requires w.Valid() && QConv(x, w, bias, stride, (pad, pad)) == Some(o) && BiasScaled(x, w, bias)
    requires f < w.qs.n
    requires x.m.None? || (pad == 0 && i < DequantOutput(o).h && j < DequantOutput(o).w)
    ensures DequantOutput(o).at(n, f, i, j) == Intended(x, w, bias, stride, pad, n, f, i, j)
  {
    hide Intended, ConvAt, PaddingWeight, OutSize, QConv, DequantOutput, PadInput, Convolvable;
    QConvPadded(x, w, bias, stride, pad, o, n, f, i, j);
    if x.m.Some? {
      OutputIn(x, w, bias, stride, o);
      NoPaddingWeight(x, w, f, i, j, stride);
    }
  }

  lemma OutputIn(x: Input, w: Weight, bias: Bias, stride: (nat, nat), o: Output)
    requires w.Valid() && QConv(x, w, bias, stride, (0, 0)) == Some(o)
    ensures Convolvable(PadInput(x.qs, (0, 0)), w.qs, stride)
    ensures DequantOutput(o).h == OutSize(x.qs.h, w.qs.h, stride.0) && DequantOutput(o).w == OutSize(x.qs.w, w.qs.w, stride.1)
  {
  }

  lemma OutputsFit(size: nat, kernel: nat, stride: nat, i: nat)
    requires stride > 0 && kernel <= size
    ensures i < OutSize(size, kernel, stride) <==> i * stride + kernel <= size
  {
    if i * stride <= size - kernel {
      DivAtLeast(stride, i, size - kernel);
    }
    if i <= (size - kernel) / stride {
      StepsWithin(stride, i, size - kernel);
    }
  }

  lemma StepsWithin(stride: nat, i: nat, a: nat)
    requires stride > 0 && i <= a / stride
    ensures i * stride <= a
  {
    assert a == Radix(a / stride, a % stride, stride);
    if i < a / stride {
      RadixMonotone(i, 0, a / stride, 0, stride);
    }
  }

  /** The quantized convolution succeeds exactly if the channels match, the kernel is not empty and fits into the padded image,
      and the weight does not have a list of one offset. */
  lemma QConvRuns(x: Input, w: Weight, bias: Bias, stride: (nat, nat), padding: (nat, nat))
    requires w.Valid()
    ensures QConv(x, w, bias, stride, padding).Some? <==>
      && stride.0 > 0 && stride.1 > 0 && w.qs.c == x.qs.c
      && 0 < w.qs.h <= x.qs.h + 2 * padding.1 && 0 < w.qs.w <= x.qs.w + 2 * padding.0
      && !(w.m.Some? && w.m.value.PerAxis? && |w.m.value.values| == 1)
  {
  }

  /** The result has an image for each image and a channel for each kernel, and its positions are those at which the kernel fits
      into the padded image. */
  lemma QConvShape(x: Input, w: Weight, bias: Bias, stride: (nat, nat), padding: (nat, nat), o: Output, i: nat, j: nat)
    requires w.Valid() && QConv(x, w, bias, stride, padding) == Some(o)
    ensures var y := DequantOutput(o);
      && y.n == x.qs.n && y.c == w.qs.n
      && (i < y.h <==> i * stride.0 + w.qs.h <= x.qs.h + 2 * padding.1)
      && (j < y.w <==> j * stride.1 + w.qs.w <= x.qs.w + 2 * padding.0)
  {
    OutputsFit(x.qs.h + 2 * padding.1, w.qs.h, stride.0, i);
    OutputsFit(x.qs.w + 2 * padding.0, w.qs.w, stride.1, j);
  }

  /** One sample of zero, a scale and an offset of one, a kernel that is a single one: at the corner, which lies in the
      padding, the result is the dequantised zero and not zero. */
  lemma CornerNotZero()
    ensures var x := Input(Samples(1, 1, 1, 1, (n: nat, c: nat, i: nat, j: nat) => 0.0), 1.0, Some(1.0));
      var w := Weight(Samples(1, 1, 1, 1, (f: nat, c: nat, u: nat, v: nat) => 1.0), PerTensor(1.0), None);
      && w.Valid() && QConv(x, w, NoBias, (1, 1), (1, 1)).Some?
      && DequantOutput(QConv(x, w, NoBias, (1, 1), (1, 1)).value).at(0, 0, 0, 0) != Intended(x, w, NoBias, (1, 1), 1, 0, 0, 0, 0)
  {
    var x := Input(Samples(1, 1, 1, 1, (n: nat, c: nat, i: nat, j: nat) => 0.0), 1.0, Some(1.0));
    var w := Weight(Samples(1, 1, 1, 1, (f: nat, c: nat, u: nat, v: nat) => 1.0), PerTensor(1.0), None);
    OneInCorner(x, w);
    QConvPadded(x, w, NoBias, (1, 1), 1, QConv(x, w, NoBias, (1, 1), (1, 1)).value, 0, 0, 0, 0);
  }

  lemma OneInCorner(x: Input, w: Weight)
    requires x.qs.h == x.qs.w == 1 && w.qs.c == w.qs.h == w.qs.w == 1 && w.d.Of(0) == 1.0 && w.m.None? && w.qs.at(0, 0, 0, 0) == 1.0
    ensures PaddingWeight(x, w, 1, 0, 0, 0, (1, 1)) == 1.0
  {
    var terms := Times(InPadding(x.qs, 1, 0, 0, (1, 1)), KernelAt(w.Dequant(), 0));
    Sum3Same(1, 1, 1, terms, Everywhere(1.0));
    Sum3Constant(1, 1, 1, 1.0);
  }
}
