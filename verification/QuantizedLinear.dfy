/** The quantized linear layer: an integer product of the samples whose offsets are corrected afterwards. */
module QuantizedLinear {
  import opened ScaledLayouts
  import opened Sums
  import opened Wrappers

  /** A quantized matrix of `rows` rows; its samples stand for `(qs - m) * d`. */
  datatype Matrix = Matrix(rows: nat, columns: nat, qs: (nat, nat) -> real, d: Param, m: Option<Param>) {
    function Dequant(): (nat, nat) -> real {
      (i: nat, k: nat) => DequantSample(qs(i, k), OffsetOf(m, i), d.Of(i))
    }
  }

  /** The product of row `i` of `x` with row `j` of `w`, term by term. */
  function Products(x: (nat, nat) -> real, w: (nat, nat) -> real, i: nat, j: nat): nat -> real {
    (k: nat) => x(i, k) * w(j, k)
  }

  function Product(x: (nat, nat) -> real, w: (nat, nat) -> real, i: nat, j: nat, n: nat): real {
    Sum(n, Products(x, w, i, j))
  }

  // ---- The layer ----

  /** What corrects for an asymmetric input sums the weight over its rows, so that it has one value for each column of the
      weight. */
  function UsedFix(w: Matrix, j: nat): real {
    Sum(w.rows, Column(w.qs, if w.columns == 1 then 0 else j))
  }

  /** The sum of a row of the weight, which is what an asymmetric input calls for. */
  function NeededFix(w: Matrix, j: nat): real {
    Sum(w.columns, Row(w.qs, j))
  }

  /** How many columns a matrix has after a row of `fix` values is subtracted from each of its rows; `None` if the shapes
      do not broadcast. */
  function BroadcastColumns(columns: nat, fix: nat): Option<nat> {
    if fix == columns || fix == 1 then Some(columns)
    else if columns == 1 then Some(fix)
    else None
  }

  function At(m: Option<Param>, i: nat): Option<real> {
    if m.Some? then Some(m.value.Of(i)) else None
  }

  /** The corrections of one sample, given the sum of the row of the input, what is used in the place of the sum of the row of
      the weight, and the number of terms. */
  function Correct(xm: Option<real>, wm: Option<real>, y: real, rows: real, used: real, n: real): real {
    var a := if xm.Some? then y - used * xm.value else y;
    var b := if wm.Some? then a - rows * wm.value else a;
    if xm.Some? && wm.Some? then b + xm.value * wm.value * n else b
  }

  /** The samples of the result at one place. */
  function SampleAt(x: Matrix, w: Matrix, i: nat, j: nat): real {
    Correct(At(x.m, i), At(w.m, j), Product(x.qs, w.qs, i, j, x.columns), Sum(x.columns, Row(x.qs, i)), UsedFix(w, j), x.columns as real)
  }

  /** A result of the expected shape; results of other shapes are errors sooner or later. */
  predicate Shaped(x: Matrix, w: Matrix) {
    x.columns == w.columns && (x.m.Some? ==> BroadcastColumns(w.rows, w.columns) == Some(w.rows))
  }

  /** That is so if an asymmetric input meets a weight that is square or has a single column. */
  lemma ShapedIff(x: Matrix, w: Matrix)
    ensures Shaped(x, w) <==> x.columns == w.columns && (x.m.None? || w.columns == w.rows || w.columns == 1)
  {
  }

  /** Rescales a sample and adds the bias; a quantized bias is added before rescaling. */
  function Finish(sample: real, scale: real, bias: Bias, j: nat): real {
    match bias
    case NoBias => sample * scale
    case QuantizedBias(qs, d) => (sample + BiasAt(qs, j)) * d.Of(j)
    case PlainBias(b) => sample * scale + BiasAt(b, j)
  }

  /** The dequantized result at row `i` and column `j`. */
  function LinearAt(x: Matrix, w: Matrix, bias: Bias, i: nat, j: nat): real
    requires Shaped(x, w)
  {
    Finish(SampleAt(x, w, i, j), x.d.Of(i) * w.d.Of(j), bias, j)
  }

  // ---- What it computes ----

  function ShiftedBy(x: (nat, nat) -> real, m: Option<Param>): (nat, nat) -> real {
    (i: nat, k: nat) => x(i, k) - OffsetOf(m, i)
  }

  function MultipliedOut(x: nat -> real, w: nat -> real, xw: nat -> real, mx: real, mw: real): nat -> real {
    PlusOf(PlusOf(PlusOf(xw, ScaleOf(-mw, x)), ScaleOf(-mx, w)), ConstantOf(mx * mw))
  }

  lemma MultipliedOutSum(n: nat, x: nat -> real, w: nat -> real, xw: nat -> real, mx: real, mw: real)
    ensures Sum(n, MultipliedOut(x, w, xw, mx, mw))
         == Sum(n, xw) + (-mw) * Sum(n, x) + (-mx) * Sum(n, w) + n as real * (mx * mw)
  {
    SumOfPlus(n, PlusOf(PlusOf(xw, ScaleOf(-mw, x)), ScaleOf(-mx, w)), ConstantOf(mx * mw));
    SumOfPlus(n, PlusOf(xw, ScaleOf(-mw, x)), ScaleOf(-mx, w));
    SumOfPlus(n, xw, ScaleOf(-mw, x));
    SumOfScale(n, -mw, x);
    SumOfScale(n, -mx, w);
    SumConstant(n, mx * mw, ConstantOf(mx * mw));
  }

  lemma ShiftedTerms(x: Matrix, w: Matrix, i: nat, j: nat, k: nat)
    ensures Products(ShiftedBy(x.qs, x.m), ShiftedBy(w.qs, w.m), i, j)(k)
         == MultipliedOut(Row(x.qs, i), Row(w.qs, j), Products(x.qs, w.qs, i, j), OffsetOf(x.m, i), OffsetOf(w.m, j))(k)
  {
    var mx, mw := OffsetOf(x.m, i), OffsetOf(w.m, j);
    assert Products(ShiftedBy(x.qs, x.m), ShiftedBy(w.qs, w.m), i, j)(k) == (x.qs(i, k) - mx) * (w.qs(j, k) - mw);
    MultiplyOut(x.qs(i, k), w.qs(j, k), mx, mw);
  }

  lemma ShiftedSum(x: Matrix, w: Matrix, i: nat, j: nat, n: nat)
    ensures Product(ShiftedBy(x.qs, x.m), ShiftedBy(w.qs, w.m), i, j, n)
         == Sum(n, MultipliedOut(Row(x.qs, i), Row(w.qs, j), Products(x.qs, w.qs, i, j), OffsetOf(x.m, i), OffsetOf(w.m, j)))
  {
    var out := MultipliedOut(Row(x.qs, i), Row(w.qs, j), Products(x.qs, w.qs, i, j), OffsetOf(x.m, i), OffsetOf(w.m, j));
    forall k: nat | k < n ensures Products(ShiftedBy(x.qs, x.m), ShiftedBy(w.qs, w.m), i, j)(k) == out(k) {
      ShiftedTerms(x, w, i, j, k);
    }
    SumSame(n, Products(ShiftedBy(x.qs, x.m), ShiftedBy(w.qs, w.m), i, j), out);
  }

  /** The product of the samples less their offsets. */
  lemma ShiftedProduct(x: Matrix, w: Matrix, i: nat, j: nat, mx: real, mw: real)
    requires mx == OffsetOf(x.m, i) && mw == OffsetOf(w.m, j)
    ensures Product(ShiftedBy(x.qs, x.m), ShiftedBy(w.qs, w.m), i, j, x.columns)
         == Product(x.qs, w.qs, i, j, x.columns) + (-mw) * Sum(x.columns, Row(x.qs, i))
          + (-mx) * Sum(x.columns, Row(w.qs, j)) + x.columns as real * (mx * mw)
  {
    ShiftedSum(x, w, i, j, x.columns);
    MultipliedOutSum(x.columns, Row(x.qs, i), Row(w.qs, j), Products(x.qs, w.qs, i, j), mx, mw);
  }

  /** Scaling the product of shifted samples gives the product of dequantized values. */
  lemma DequantProduct(x: Matrix, w: Matrix, i: nat, j: nat, scale: real)
    requires scale == x.d.Of(i) * w.d.Of(j)
    ensures Product(x.Dequant(), w.Dequant(), i, j, x.columns)
         == scale * Product(ShiftedBy(x.qs, x.m), ShiftedBy(w.qs, w.m), i, j, x.columns)
  {
    var raw, scaled := Products(ShiftedBy(x.qs, x.m), ShiftedBy(w.qs, w.m), i, j), Products(x.Dequant(), w.Dequant(), i, j);
    forall k: nat ensures scaled(k) == scale * raw(k) {
      assert x.Dequant()(i, k) == DequantSample(x.qs(i, k), OffsetOf(x.m, i), x.d.Of(i));
      assert w.Dequant()(j, k) == DequantSample(w.qs(j, k), OffsetOf(w.m, j), w.d.Of(j));
      DequantProductOf(x.qs(i, k), w.qs(j, k), OffsetOf(x.m, i), OffsetOf(w.m, j), x.d.Of(i), w.d.Of(j));
    }
    SumScaled(x.columns, scale, scaled, raw);
  }

  lemma CorrectionsAdd(xm: Option<real>, wm: Option<real>, y: real, rows: real, used: real, needed: real, n: real,
                       mx: real, mw: real, shifted: real)
    requires mx == (if xm.Some? then xm.value else 0.0) && mw == (if wm.Some? then wm.value else 0.0)
    requires shifted == y + (-mw) * rows + (-mx) * needed + n * (mx * mw)
    ensures Correct(xm, wm, y, rows, used, n) == shifted + mx * (needed - used)
  {
  }

  /** The corrected samples are the product of the samples less their offsets, but for the fix for an asymmetric input. */
  lemma SampleIs(x: Matrix, w: Matrix, i: nat, j: nat, mx: real, mw: real, shifted: real)
    requires x.columns == w.columns && mx == OffsetOf(x.m, i) && mw == OffsetOf(w.m, j)
    requires shifted == Product(ShiftedBy(x.qs, x.m), ShiftedBy(w.qs, w.m), i, j, x.columns)
    ensures SampleAt(x, w, i, j) == shifted + mx * (NeededFix(w, j) - UsedFix(w, j))
  {
    hide Product, Sum, Correct;
    ShiftedProduct(x, w, i, j, mx, mw);
    var y, rows, used, needed := Product(x.qs, w.qs, i, j, x.columns), Sum(x.columns, Row(x.qs, i)), UsedFix(w, j), NeededFix(w, j);
    var n := x.columns as real;
    assert shifted == y + (-mw) * rows + (-mx) * needed + n * (mx * mw);
    CorrectionsAdd(At(x.m, i), At(w.m, j), y, rows, used, needed, n, mx, mw, shifted);
  }

  // ---- Meaning ----

  /** The caller scales a quantized bias by the scales of input and weight. */
  predicate BiasScaled(x: Matrix, w: Matrix, bias: Bias, i: nat, j: nat) {
    bias.QuantizedBias? ==> bias.d.Of(j) == x.d.Of(i) * w.d.Of(j)
  }

  lemma Rescale(sample: real, scale: real, bias: Bias, j: nat, shifted: real, mx: real, gap: real) returns (product: real, error: real)
    requires sample == shifted + mx * gap && (bias.QuantizedBias? ==> bias.d.Of(j) == scale)
    ensures product == scale * shifted && Finish(sample, scale, bias, j) == product + BiasOf(bias, j) + error
    ensures error == 0.0 <==> scale == 0.0 || mx == 0.0 || gap == 0.0
  {
    product := scale * shifted;
    error := scale * (mx * gap);
    Distribute(shifted, mx * gap, if bias.QuantizedBias? then BiasAt(bias.qs, j) else 0.0, scale);
  }

  lemma Distribute(a: real, b: real, c: real, scale: real)
    ensures (a + b) * scale == scale * a + scale * b && (a + b + c) * scale == scale * a + scale * b + c * scale
  {
  }

  lemma SampleAndProduct(x: Matrix, w: Matrix, bias: Bias, i: nat, j: nat, scale: real, mx: real) returns (sample: real, shifted: real)
    requires Shaped(x, w) && scale == x.d.Of(i) * w.d.Of(j) && mx == OffsetOf(x.m, i)
    ensures LinearAt(x, w, bias, i, j) == Finish(sample, scale, bias, j)
    ensures sample == shifted + mx * (NeededFix(w, j) - UsedFix(w, j))
    ensures Product(x.Dequant(), w.Dequant(), i, j, x.columns) == scale * shifted
  {
    hide SampleAt, Product, NeededFix, UsedFix;
    sample := SampleAt(x, w, i, j);
    shifted := Product(ShiftedBy(x.qs, x.m), ShiftedBy(w.qs, w.m), i, j, x.columns);
    SampleIs(x, w, i, j, mx, OffsetOf(w.m, j), shifted);
    DequantProduct(x, w, i, j, scale);
  }

  /** What a sample of a matrix stands for. */
  function ValueAt(x: Matrix, i: nat, k: nat): real {
    (x.qs(i, k) - (if x.m.Some? then ForChannel(x.m.value, i) else 0.0)) * ForChannel(x.d, i)
  }

  /** The product of a row of values of the input and one of the weight. */
  function RowProduct(x: Matrix, w: Matrix, i: nat, j: nat): real {
    Sum(x.columns, (k: nat) => ValueAt(x, i, k) * ValueAt(w, j, k))
  }

  lemma ProductIs(x: Matrix, w: Matrix, i: nat, j: nat)
    ensures Product(x.Dequant(), w.Dequant(), i, j, x.columns) == RowProduct(x, w, i, j)
  {
    var f, g := Products(x.Dequant(), w.Dequant(), i, j), (k: nat) => ValueAt(x, i, k) * ValueAt(w, j, k);
    forall k: nat ensures f(k) == g(k) {
      DequantIs(x, i, k);
      DequantIs(w, j, k);
    }
    SumSame(x.columns, f, g);
  }

  lemma DequantIs(x: Matrix, i: nat, k: nat)
    ensures x.Dequant()(i, k) == ValueAt(x, i, k)
  {
    ParamIs(x.d, i);
    if x.m.Some? {
      ParamIs(x.m.value, i);
    }
  }

  /** The two sums of samples of the weight: along a row, and along a column. */
  lemma FixesAre(w: Matrix, j: nat)
    ensures NeededFix(w, j) == Sum(w.columns, (k: nat) => w.qs(j, k))
    ensures UsedFix(w, j) == Sum(w.rows, (r: nat) => w.qs(r, if w.columns == 1 then 0 else j))
  {
    SumSame(w.columns, Row(w.qs, j), (k: nat) => w.qs(j, k));
    SumSame(w.rows, Column(w.qs, if w.columns == 1 then 0 else j), (r: nat) => w.qs(r, if w.columns == 1 then 0 else j));
  }

  /** The dequantized result adds up the products of what the samples of input and weight stand for, plus the bias, exactly if
      a scale is zero, the input is symmetric, or the sum that corrects for the input offset is the right one. */
  lemma LinearMeans(x: Matrix, w: Matrix, bias: Bias, i: nat, j: nat)
    requires Shaped(x, w) && BiasScaled(x, w, bias, i, j)
    ensures LinearAt(x, w, bias, i, j) == RowProduct(x, w, i, j) + BiasValue(bias, j)
       <==> || ForChannel(x.d, i) * ForChannel(w.d, j) == 0.0
            || (x.m.Some? ==> ForChannel(x.m.value, i) == 0.0)
            || Sum(w.columns, (k: nat) => w.qs(j, k)) == Sum(w.rows, (r: nat) => w.qs(r, if w.columns == 1 then 0 else j))
  {
    hide LinearAt, Product, NeededFix, UsedFix, RowProduct;
    ProductIs(x, w, i, j);
    FixesAre(w, j);
    BiasIs(bias, j);
    ParamIs(x.d, i);
    ParamIs(w.d, j);
    if x.m.Some? {
      ParamIs(x.m.value, i);
    }
    RightIff(x, w, bias, i, j);
  }

  lemma RightIff(x: Matrix, w: Matrix, bias: Bias, i: nat, j: nat)
    requires Shaped(x, w) && BiasScaled(x, w, bias, i, j)
    ensures LinearAt(x, w, bias, i, j) == Product(x.Dequant(), w.Dequant(), i, j, x.columns) + BiasOf(bias, j)
       <==> x.d.Of(i) * w.d.Of(j) == 0.0 || OffsetOf(x.m, i) == 0.0 || NeededFix(w, j) == UsedFix(w, j)
  {
    var scale, mx := x.d.Of(i) * w.d.Of(j), OffsetOf(x.m, i);
    var sample, shifted := SampleAndProduct(x, w, bias, i, j, scale, mx);
    var product, error := Rescale(sample, scale, bias, j, shifted, mx, NeededFix(w, j) - UsedFix(w, j));
  }

  /** An asymmetric input and a square weight whose rows and columns have different sums. */
  lemma AsymmetricInputOff()
    ensures var x := Matrix(1, 2, (i: nat, k: nat) => 0.0, PerTensor(1.0), Some(PerTensor(1.0)));
      var w := Matrix(2, 2, (j: nat, k: nat) => if j == 0 && k == 1 then 1.0 else 0.0, PerTensor(1.0), None);
      Shaped(x, w) && LinearAt(x, w, NoBias, 0, 0) != RowProduct(x, w, 0, 0)
  {
    var x := Matrix(1, 2, (i: nat, k: nat) => 0.0, PerTensor(1.0), Some(PerTensor(1.0)));
    var w := Matrix(2, 2, (j: nat, k: nat) => if j == 0 && k == 1 then 1.0 else 0.0, PerTensor(1.0), None);
    LinearMeans(x, w, NoBias, 0, 0);
    var row, column := Row(w.qs, 0), Column(w.qs, 0);
    assert row(0) == 0.0 && row(1) == 1.0 && column(0) == 0.0 && column(1) == 0.0;
    assert Sum(2, row) == Sum(1, row) + row(1) && Sum(1, row) == Sum(0, row) + row(0);
    assert Sum(2, column) == Sum(1, column) + column(1) && Sum(1, column) == Sum(0, column) + column(0);
  }
}
