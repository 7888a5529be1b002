/** Samples with a scale and perhaps an offset, and what the quantized operators share. */
module ScaledLayouts {
  import opened Wrappers

  /** One value for a whole tensor, or one for each step of its first axis. */
  datatype Param = PerTensor(value: real) | PerAxis(values: seq<real>) {
    predicate Fits(count: nat) {
      PerAxis? ==> |values| == count
    }

    function Of(i: nat): real {
      match this
      case PerTensor(v) => v
      case PerAxis(vs) => if i < |vs| then vs[i] else 0.0
    }
  }

  /** A missing offset counts as zero. */
  function OrZero(m: Option<real>): real {
    if m.Some? then m.value else 0.0
  }

  function OffsetOf(m: Option<Param>, i: nat): real {
    if m.Some? then m.value.Of(i) else 0.0
  }

  /** `dequant_blocked` of one sample. */
  function DequantSample(q: real, m: real, d: real): real {
    (q - m) * d
  }

  /** A bias that is added to the raw samples, or to the dequantized result. */
  datatype Bias = NoBias | QuantizedBias(qs: seq<real>, d: Param) | PlainBias(values: seq<real>)

  function BiasAt(values: seq<real>, f: nat): real {
    if f < |values| then values[f] else 0.0
  }

  /** What a bias adds to an output channel in the end; a quantized bias counts in units of its own scale. */
  function BiasOf(bias: Bias, f: nat): real {
    match bias
    case NoBias => 0.0
    case QuantizedBias(qs, d) => DequantSample(BiasAt(qs, f), 0.0, d.Of(f))
    case PlainBias(b) => BiasAt(b, f)
  }

  lemma MultiplyOut(x: real, k: real, mx: real, mw: real)
    ensures (x - mx) * (k - mw) == x * k + (-mw) * x + (-mx) * k + mx * mw
  {
  }

  /** The product of two dequantized samples. */
  lemma DequantProductOf(x: real, k: real, mx: real, mw: real, dx: real, dw: real)
    ensures DequantSample(x, mx, dx) * DequantSample(k, mw, dw) == dx * dw * ((x - mx) * (k - mw))
  {
  }

  // ---- Parameters and biases written out ----

  /** The value for a step of the first axis. */
  function ForChannel(p: Param, f: nat): real {
    match p
    case PerAxis(values) => if f >= |values| then 0.0 else values[f]
    case PerTensor(value) => value
  }

  lemma ParamIs(p: Param, f: nat)
    ensures p.Of(f) == ForChannel(p, f)
  {
  }

  /** What the bias adds to an output channel; channels without a bias get nothing. */
  function BiasValue(bias: Bias, f: nat): real {
    match bias
    case NoBias => 0.0
    case QuantizedBias(qs, PerTensor(d)) => if f >= |qs| then 0.0 else qs[f] * d
    case QuantizedBias(qs, PerAxis(ds)) => if f >= |qs| || f >= |ds| then 0.0 else qs[f] * ds[f]
    case PlainBias(values) => if f >= |values| then 0.0 else values[f]
  }

  lemma BiasIs(bias: Bias, f: nat)
    ensures BiasOf(bias, f) == BiasValue(bias, f)
  {
  }
}
