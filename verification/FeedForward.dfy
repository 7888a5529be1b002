/** The gated feed-forward block, run on whatever mixture of sharded tensors its theta holds. */
module FeedForward {
  import Alignment
  import opened DenseValues
  import opened Elementwise
  import opened NonEmptyTensors
  import opened Products
  import opened ShapePrograms
  import opened ShardedElementwise
  import opened ShardedOps
  import opened Sharding
  import opened Slices
  import opened Sums
  import opened Tensors
  import opened Wrappers

  /** A linear layer: the input is multiplied by the transposed weight. */
  datatype Layer = Layer(weight: AnyTensor, bias: Option<AnyTensor>) {
    predicate Valid(n: nat) {
      && weight.Valid() && weight.Fits(n) && |weight.Meaning().shape| == 2
      && (bias.Some? ==> bias.value.Valid() && bias.value.Fits(n))
    }

    function Unsharded(): Layer
      requires weight.Valid() && (bias.Some? ==> bias.value.Valid())
    {
      Layer(Plain(weight.Meaning()), if bias.Some? then Some(Plain(bias.value.Meaning())) else None)
    }
  }

  datatype Block = Block(gate: Layer, up: Layer, down: Layer) {
    predicate Valid(n: nat) {
      gate.Valid(n) && up.Valid(n) && down.Valid(n)
    }
  }

  /** `weight.T`. */
  function TransposeAny(w: AnyTensor): (t: Option<AnyTensor>)
    requires w.Valid() && |w.Meaning().shape| == 2
    ensures t.Some? ==> t.value.Valid() && |t.value.Meaning().shape| == 2
  {
    match w
    case Plain(a) => Some(Plain(Transposed(a, 0, 1)))
    case Replicated(a, n) => Some(Replicated(Transposed(a, 0, 1), n))
    case Sharded(s) =>
      (match ApplySplit(Transpose(0, 1), s)
       case None => None
       case Some(t) =>
         SplitOpSound(Transpose(0, 1), s);
         Some(Sharded(t)))
    case Unreduced(_) => None
  }

  lemma TransposeSound(w: AnyTensor, t: AnyTensor, n: nat)
    requires w.Valid() && w.Fits(n) && |w.Meaning().shape| == 2 && TransposeAny(w) == Some(t)
    ensures t.Valid() && t.Fits(n) && t.Meaning() == Transposed(w.Meaning(), 0, 1) && |t.Meaning().shape| == 2
  {
    if w.Sharded? {
      SplitOpSound(Transpose(0, 1), w.split);
    }
  }

  const ADD := (a: real, b: real) => a + b
  const MUL := (a: real, b: real) => a * b

  function Linear(x: AnyTensor, layer: Layer): (y: Option<AnyTensor>)
    requires x.Valid() && layer.weight.Valid() && |layer.weight.Meaning().shape| == 2
    requires layer.bias.Some? ==> layer.bias.value.Valid()
    ensures y.Some? ==> y.value.Valid()
  {
    match TransposeAny(layer.weight)
    case None => None
    case Some(t) =>
      match MatmulAny(x, t)
      case None => None
      case Some(y) => if layer.bias.None? then Some(y) else BinaryAny(ADD, y, layer.bias.value)
  }

  /** The bias of a layer is cut where the product is, and no share of it drops a step. */
  predicate AlignedBias(x: AnyTensor, layer: Layer)
    requires x.Valid() && layer.weight.Valid() && |layer.weight.Meaning().shape| == 2
    requires layer.bias.Some? ==> layer.bias.value.Valid()
  {
    layer.bias.Some? && TransposeAny(layer.weight).Some? && MatmulAny(x, TransposeAny(layer.weight).value).Some?
    ==> Aligned(MatmulAny(x, TransposeAny(layer.weight).value).value, layer.bias.value)
  }

  /** A linear layer on sharded tensors is the layer on what they stand for. */
  lemma LinearSound(x: AnyTensor, layer: Layer, y: AnyTensor, z: AnyTensor, n: nat)
    requires x.Valid() && x.Fits(n) && layer.Valid(n) && AlignedBias(x, layer)
    requires Linear(x, layer) == Some(y) && Linear(Plain(x.Meaning()), layer.Unsharded()) == Some(z)
    ensures y.Valid() && y.Fits(n) && z == Plain(y.Meaning())
  {
    var t := TransposeAny(layer.weight).value;
    TransposeSound(layer.weight, t, n);
    var p := MatmulAny(x, t).value;
    MatmulSound(x, t, p, n);
    if layer.bias.Some? {
      BinarySound(ADD, p, layer.bias.value, y, n);
    }
  }

  /** The gate, with any pointwise activation. */
  function Gate(h: AnyTensor, layer: Layer, activation: real -> real): (y: Option<AnyTensor>)
    requires h.Valid() && layer.weight.Valid() && |layer.weight.Meaning().shape| == 2
    requires layer.bias.Some? ==> layer.bias.value.Valid()
    ensures y.Some? ==> y.value.Valid()
  {
    match Linear(h, layer)
    case None => None
    case Some(g) => UnaryAny(activation, g)
  }

  /** The gated block. */
  function Forward(h: AnyTensor, block: Block, n: nat, activation: real -> real): Option<AnyTensor>
    requires h.Valid() && block.Valid(n)
  {
    match Gate(h, block.gate, activation)
    case None => None
    case Some(gate) =>
      match Linear(h, block.up)
      case None => None
      case Some(up) => Project(gate, up, block.down)
  }

  function Project(gate: AnyTensor, up: AnyTensor, down: Layer): Option<AnyTensor>
    requires gate.Valid() && up.Valid() && down.weight.Valid() && |down.weight.Meaning().shape| == 2
    requires down.bias.Some? ==> down.bias.value.Valid()
  {
    match BinaryAny(MUL, gate, up)
    case None => None
    case Some(m) => Linear(m, down)
  }

  function UnshardedBlock(block: Block, n: nat): (b: Block)
    requires block.Valid(n)
    ensures b.Valid(n)
  {
    Block(block.gate.Unsharded(), block.up.Unsharded(), block.down.Unsharded())
  }

  // ---- What the block computes ----

  function PlainLayer(w: Tensor<real>, bias: Option<Tensor<real>>): Layer {
    Layer(Plain(w), if bias.Some? then Some(Plain(bias.value)) else None)
  }

  function PlainBlock(ws: Weights): Block {
    Block(PlainLayer(ws.gate, ws.gateBias), PlainLayer(ws.up, ws.upBias), PlainLayer(ws.down, ws.downBias))
  }

  /** The elements of a tensor are those of the block on the given input and weights. */
  ghost predicate Computes(y: Tensor<real>, h: Tensor<real>, ws: Weights, activation: real -> real)
    requires ws.Fit(h.shape)
  {
    && y.Valid() && y.shape == h.shape[|h.shape| - 1 := ws.down.shape[0]]
    && forall idx | InBounds(idx, y.shape) :: At(y, idx) == BlockValue(h, ws, activation, idx)
  }

  ghost predicate LinearElements(y: Tensor<real>, x: Tensor<real>, w: Tensor<real>, bias: Option<Tensor<real>>)
    requires |x.shape| >= 2 && |w.shape| == 2
  {
    && y.Valid() && y.shape == x.shape[|x.shape| - 1 := w.shape[0]]
    && forall idx | InBounds(idx, y.shape) :: At(y, idx) == LinearValue(x, w, bias, idx, idx[|idx| - 1])
  }

  lemma ProductElements(x: Tensor<real>, w: Tensor<real>)
    requires x.Valid() && |x.shape| >= 2 && w.Valid() && |w.shape| == 2 && x.shape[|x.shape| - 1] == w.shape[1]
    ensures CanMatmul(x, Transposed(w, 0, 1)) && LinearElements(Matmul(x, Transposed(w, 0, 1)), x, w, None)
  {
    hide At, LinearValue, Matmul;
    ProductValue(x, w, []);
    var p := Matmul(x, Transposed(w, 0, 1));
    forall idx | InBounds(idx, p.shape) ensures At(p, idx) == LinearValue(x, w, None, idx, idx[|idx| - 1]) {
      ProductValue(x, w, idx);
    }
  }

  lemma BiasAdds(x: Tensor<real>, w: Tensor<real>, b: Tensor<real>, idx: seq<nat>, o: nat)
    requires idx != [] && |w.shape| == 2
    ensures LinearValue(x, w, Some(b), idx, o) == LinearValue(x, w, None, idx, o) + Value(b, [o])
  {
  }

  lemma BiasElements(p: Tensor<real>, x: Tensor<real>, w: Tensor<real>, b: Tensor<real>)
    requires |x.shape| >= 2 && |w.shape| == 2 && LinearElements(p, x, w, None) && b.Valid() && b.shape == [w.shape[0]]
    ensures Broadcasts(p, b) && LinearElements(Zip(ADD, p, b), x, w, Some(b))
  {
    hide At, Broadcasts, Zip, LinearValue, Value;
    VectorValue(ADD, p, b, []);
    BiasedElements(p, x, w, b, Zip(ADD, p, b));
  }

  lemma BiasedElements(p: Tensor<real>, x: Tensor<real>, w: Tensor<real>, b: Tensor<real>, y: Tensor<real>)
    requires |x.shape| >= 2 && |w.shape| == 2 && LinearElements(p, x, w, None) && b.Valid() && b.shape == [w.shape[0]]
    requires y.Valid() && y.shape == p.shape && y == Zip(ADD, p, b)
    ensures LinearElements(y, x, w, Some(b))
  {
    forall idx | InBounds(idx, y.shape) ensures At(y, idx) == LinearValue(x, w, Some(b), idx, idx[|idx| - 1]) {
      BiasedElement(p, x, w, b, y, idx);
    }
  }

  lemma BiasedElement(p: Tensor<real>, x: Tensor<real>, w: Tensor<real>, b: Tensor<real>, y: Tensor<real>, idx: seq<nat>)
    requires |x.shape| >= 2 && |w.shape| == 2 && LinearElements(p, x, w, None) && b.Valid() && b.shape == [w.shape[0]]
    requires y.Valid() && y.shape == p.shape && y == Zip(ADD, p, b) && InBounds(idx, y.shape)
    ensures At(y, idx) == LinearValue(x, w, Some(b), idx, idx[|idx| - 1])
  {
    assert At(p, idx) == LinearValue(x, w, None, idx, idx[|idx| - 1]);
    hide At, Broadcasts, Zip, LinearValue, Value, LinearElements;
    VectorValue(ADD, p, b, idx);
    BiasAdds(x, w, b, idx, idx[|idx| - 1]);
  }

  lemma PlainLinear(x: Tensor<real>, w: Tensor<real>, bias: Option<Tensor<real>>) returns (y: Tensor<real>)
    requires x.Valid() && |x.shape| >= 2 && BiasFits(w, bias) && x.shape[|x.shape| - 1] == w.shape[1]
    ensures Linear(Plain(x), PlainLayer(w, bias)) == Some(Plain(y)) && LinearElements(y, x, w, bias)
  {
    hide LinearElements, Matmul, Zip, Transposed;
    ProductElements(x, w);
    y := Matmul(x, Transposed(w, 0, 1));
    if bias.Some? {
      BiasElements(y, x, w, bias.value);
      y := Zip(ADD, y, bias.value);
    }
  }

  lemma ElementAt(y: Tensor<real>, x: Tensor<real>, w: Tensor<real>, bias: Option<Tensor<real>>, idx: seq<nat>, j: nat)
    requires |x.shape| >= 2 && |w.shape| == 2 && LinearElements(y, x, w, bias)
    requires |idx| == |x.shape| && InBounds(idx[|idx| - 1 := j], y.shape)
    ensures At(y, idx[|idx| - 1 := j]) == LinearValue(x, w, bias, idx, j)
  {
    hide LinearValue, At;
    OtherOutput(x, w, bias, idx, j);
  }

  lemma ProductAt(a: Tensor<real>, u: Tensor<real>, z: Tensor<real>, idx: seq<nat>)
    requires a.Valid() && u.Valid() && a.shape == u.shape && InBounds(idx, a.shape) && z == Zip(MUL, a, u)
    ensures Value(z, idx) == At(a, idx) * At(u, idx)
  {
    hide At, Broadcasts, Zip, Value;
    ZippedSame(MUL, a, u, idx);
    ValueAt(z, idx);
  }

  lemma GatedAt(g: Tensor<real>, u: Tensor<real>, activation: real -> real, idx: seq<nat>)
    requires g.Valid() && u.Valid() && g.shape == u.shape && InBounds(idx, g.shape)
    ensures Value(Zip(MUL, Map(activation, g), u), idx) == activation(At(g, idx)) * At(u, idx)
  {
    hide At, Zip, Value;
    var a := Map(activation, g);
    assert At(a, idx) == activation(At(g, idx));
    ProductAt(a, u, Zip(MUL, a, u), idx);
  }

  lemma ElementsShape(y: Tensor<real>, x: Tensor<real>, w: Tensor<real>, bias: Option<Tensor<real>>)
    requires |x.shape| >= 2 && |w.shape| == 2 && LinearElements(y, x, w, bias)
    ensures y.Valid() && y.shape == x.shape[|x.shape| - 1 := w.shape[0]]
  {
  }

  /** The gated product of one hidden unit. */
  lemma HiddenValue(h: Tensor<real>, ws: Weights, activation: real -> real, g: Tensor<real>, u: Tensor<real>, idx: seq<nat>, j: nat)
    requires h.Valid() && ws.Fit(h.shape) && LinearElements(g, h, ws.gate, ws.gateBias) && LinearElements(u, h, ws.up, ws.upBias)
    requires |idx| == |h.shape| && InBounds(idx[|idx| - 1 := j], g.shape)
    ensures Value(Zip(MUL, Map(activation, g), u), idx[|idx| - 1 := j])
         == activation(LinearValue(h, ws.gate, ws.gateBias, idx, j)) * LinearValue(h, ws.up, ws.upBias, idx, j)
  {
    hide LinearElements, At, Zip, Value, LinearValue, Map, InBounds;
    ElementsShape(g, h, ws.gate, ws.gateBias);
    ElementsShape(u, h, ws.up, ws.upBias);
    ElementAt(g, h, ws.gate, ws.gateBias, idx, j);
    ElementAt(u, h, ws.up, ws.upBias, idx, j);
    GatedAt(g, u, activation, idx[|idx| - 1 := j]);
  }

  /** The last coordinate of the index does not matter for the row of the input. */
  lemma OtherOutput(x: Tensor<real>, w: Tensor<real>, bias: Option<Tensor<real>>, idx: seq<nat>, o: nat)
    requires idx != [] && |w.shape| == 2
    ensures LinearValue(x, w, bias, idx[|idx| - 1 := o], o) == LinearValue(x, w, bias, idx, o)
  {
    var i := idx[|idx| - 1 := o];
    var f, g := (k: nat) => Value(x, i[|i| - 1 := k]) * Value(w, [o, k]), (k: nat) => Value(x, idx[|idx| - 1 := k]) * Value(w, [o, k]);
    forall k: nat ensures f(k) == g(k) {
      assert i[|i| - 1 := k] == idx[|idx| - 1 := k];
    }
    SumSame(w.shape[1], f, g);
  }

  lemma DownValue(h: Tensor<real>, ws: Weights, activation: real -> real, g: Tensor<real>, u: Tensor<real>, m: Tensor<real>, idx: seq<nat>)
    requires h.Valid() && ws.Fit(h.shape) && LinearElements(g, h, ws.gate, ws.gateBias) && LinearElements(u, h, ws.up, ws.upBias)
    requires m == Zip(MUL, Map(activation, g), u) && InBounds(idx, h.shape[|h.shape| - 1 := ws.down.shape[0]])
    ensures LinearValue(m, ws.down, ws.downBias, idx, idx[|idx| - 1]) == BlockValue(h, ws, activation, idx)
  {
    hide LinearElements, LinearValue, Zip, Map, Value, InBounds;
    IndexRank(idx, h.shape[|h.shape| - 1 := ws.down.shape[0]]);
    var o := idx[|idx| - 1];
    var f := (j: nat) => Value(m, idx[|idx| - 1 := j]) * Value(ws.down, [o, j]);
    var b := (j: nat) =>
      activation(LinearValue(h, ws.gate, ws.gateBias, idx, j)) * LinearValue(h, ws.up, ws.upBias, idx, j) * Value(ws.down, [o, j]);
    forall j: nat | j < ws.down.shape[1] ensures f(j) == b(j) {
      GateShape(g, h, ws);
      HiddenIndex(idx, h.shape, ws.down.shape[0], ws.down.shape[1], j);
      HiddenValue(h, ws, activation, g, u, idx, j);
    }
    SumSame(ws.down.shape[1], f, b);
    LinearSum(m, ws.down, ws.downBias, idx, o);
  }

  lemma IndexRank(idx: seq<nat>, shape: seq<nat>)
    requires InBounds(idx, shape)
    ensures |idx| == |shape|
  {
  }

  lemma HiddenIndex(idx: seq<nat>, shape: seq<nat>, m: nat, n: nat, j: nat)
    requires shape != [] && InBounds(idx, shape[|shape| - 1 := m]) && j < n
    ensures |idx| == |shape| && InBounds(idx[|idx| - 1 := j], shape[|shape| - 1 := n])
  {
  }

  lemma GateShape(g: Tensor<real>, h: Tensor<real>, ws: Weights)
    requires ws.Fit(h.shape) && LinearElements(g, h, ws.gate, ws.gateBias)
    ensures g.shape == h.shape[|h.shape| - 1 := ws.down.shape[1]]
  {
  }

  lemma LinearSum(x: Tensor<real>, w: Tensor<real>, bias: Option<Tensor<real>>, idx: seq<nat>, o: nat)
    requires idx != [] && |w.shape| == 2
    ensures LinearValue(x, w, bias, idx, o)
         == Sum(w.shape[1], (k: nat) => Value(x, idx[|idx| - 1 := k]) * Value(w, [o, k])) + if bias.Some? then Value(bias.value, [o]) else 0.0
  {
  }

  /** On plain tensors that fit together the block runs, and computes the sums that it should. */
  lemma BlockComputes(h: Tensor<real>, ws: Weights, n: nat, activation: real -> real) returns (y: Tensor<real>)
    requires h.Valid() && ws.Fit(h.shape)
    ensures PlainBlock(ws).Valid(n) && Forward(Plain(h), PlainBlock(ws), n, activation) == Some(Plain(y))
    ensures Computes(y, h, ws, activation)
  {
    hide At, Zip, Linear, BlockValue, LinearValue, Compatible, BroadcastShape, LinearElements, Computes;
    var g := PlainLinear(h, ws.gate, ws.gateBias);
    var u := PlainLinear(h, ws.up, ws.upBias);
    ElementsShape(g, h, ws.gate, ws.gateBias);
    ElementsShape(u, h, ws.up, ws.upBias);
    var m := Zip(MUL, Map(activation, g), u);
    SameShape(g.shape);
    y := PlainLinear(m, ws.down, ws.downBias);
    DownElements(h, ws, activation, g, u, m, y);
  }

  lemma DownElements(h: Tensor<real>, ws: Weights, activation: real -> real, g: Tensor<real>, u: Tensor<real>, m: Tensor<real>, y: Tensor<real>)
    requires h.Valid() && ws.Fit(h.shape) && LinearElements(g, h, ws.gate, ws.gateBias) && LinearElements(u, h, ws.up, ws.upBias)
    requires m == Zip(MUL, Map(activation, g), u) && m.shape == g.shape && LinearElements(y, m, ws.down, ws.downBias)
    ensures Computes(y, h, ws, activation)
  {
    hide At, Zip, Map, BlockValue, LinearValue;
    assert y.shape == h.shape[|h.shape| - 1 := ws.down.shape[0]];
    forall idx | InBounds(idx, y.shape) ensures At(y, idx) == BlockValue(h, ws, activation, idx) {
      DownValue(h, ws, activation, g, u, m, idx);
    }
  }

  /** What the weights and biases of a block stand for. */
  function WeightsOf(block: Block, n: nat): Weights
    requires block.Valid(n)
  {
    Weights(block.gate.weight.Meaning(), Bias(block.gate), block.up.weight.Meaning(), Bias(block.up),
            block.down.weight.Meaning(), Bias(block.down))
  }

  function Bias(layer: Layer): Option<Tensor<real>>
    requires layer.bias.Some? ==> layer.bias.value.Valid()
  {
    if layer.bias.Some? then Some(layer.bias.value.Meaning()) else None
  }

  lemma UnshardedIsPlain(block: Block, n: nat)
    requires block.Valid(n)
    ensures UnshardedBlock(block, n) == PlainBlock(WeightsOf(block, n))
  {
    hide Unshard;
  }

  /** If the unsharded weights fit, the unsharded block computes what it should. */
  lemma UnshardedComputes(h: Tensor<real>, block: Block, n: nat, activation: real -> real, y: Tensor<real>)
    requires h.Valid() && block.Valid(n) && Forward(Plain(h), UnshardedBlock(block, n), n, activation) == Some(Plain(y))
    requires WeightsOf(block, n).Fit(h.shape)
    ensures Computes(y, h, WeightsOf(block, n), activation)
  {
    hide Forward, UnshardedBlock, WeightsOf, Computes;
    UnshardedIsPlain(block, n);
    var _ := BlockComputes(h, WeightsOf(block, n), n, activation);
  }

  lemma GateSound(h: AnyTensor, layer: Layer, activation: real -> real, y: AnyTensor, z: AnyTensor, n: nat)
    requires h.Valid() && h.Fits(n) && layer.Valid(n) && AlignedBias(h, layer)
    requires Gate(h, layer, activation) == Some(y) && Gate(Plain(h.Meaning()), layer.Unsharded(), activation) == Some(z)
    ensures y.Valid() && y.Fits(n) && z == Plain(y.Meaning())
  {
    var g, g' := Linear(h, layer).value, Linear(Plain(h.Meaning()), layer.Unsharded()).value;
    LinearSound(h, layer, g, g', n);
    UnarySound(activation, g, y, n);
  }

  /** The gate and the rest of the block are cut in the same places, and so is every bias. */
  predicate AlignedBlock(h: AnyTensor, block: Block, n: nat, activation: real -> real)
    requires h.Valid() && block.Valid(n)
  {
    && AlignedBias(h, block.gate) && AlignedBias(h, block.up)
    && (Gate(h, block.gate, activation).Some? && Linear(h, block.up).Some?
        ==> AlignedProject(Gate(h, block.gate, activation).value, Linear(h, block.up).value, block.down))
  }

  predicate AlignedProject(gate: AnyTensor, up: AnyTensor, down: Layer)
    requires gate.Valid() && up.Valid() && down.weight.Valid() && |down.weight.Meaning().shape| == 2
    requires down.bias.Some? ==> down.bias.value.Valid()
  {
    Aligned(gate, up) && (BinaryAny(MUL, gate, up).Some? ==> AlignedBias(BinaryAny(MUL, gate, up).value, down))
  }

  /** However the theta and the input are sharded, if the block runs on operands that are cut in the same places, it
      computes what it computes unsharded. */
  lemma ForwardSound(h: AnyTensor, block: Block, n: nat, activation: real -> real, y: AnyTensor, z: AnyTensor)
    requires h.Valid() && h.Fits(n) && block.Valid(n) && AlignedBlock(h, block, n, activation)
    requires Forward(h, block, n, activation) == Some(y)
    requires Forward(Plain(h.Meaning()), UnshardedBlock(block, n), n, activation) == Some(z)
    ensures y.Valid() && y.Fits(n) && z == Plain(y.Meaning())
    ensures WeightsOf(block, n).Fit(h.Meaning().shape) ==> Computes(y.Meaning(), h.Meaning(), WeightsOf(block, n), activation)
  {
    ForwardIsPlain(h, block, n, activation, y, z);
    hide Forward, AlignedBlock, Computes, WeightsOf, Unshard;
    if WeightsOf(block, n).Fit(h.Meaning().shape) {
      UnshardedComputes(h.Meaning(), block, n, activation, y.Meaning());
    }
  }

  lemma ForwardIsPlain(h: AnyTensor, block: Block, n: nat, activation: real -> real, y: AnyTensor, z: AnyTensor)
    requires h.Valid() && h.Fits(n) && block.Valid(n) && AlignedBlock(h, block, n, activation)
    requires Forward(h, block, n, activation) == Some(y)
    requires Forward(Plain(h.Meaning()), UnshardedBlock(block, n), n, activation) == Some(z)
    ensures y.Valid() && y.Fits(n) && z == Plain(y.Meaning())
  {
    var plain := Plain(h.Meaning());
    var gate, gate' := Gate(h, block.gate, activation).value, Gate(plain, block.gate.Unsharded(), activation).value;
    GateSound(h, block.gate, activation, gate, gate', n);
    var up, up' := Linear(h, block.up).value, Linear(plain, block.up.Unsharded()).value;
    LinearSound(h, block.up, up, up', n);
    ProjectSound(gate, up, block.down, y, z, n);
  }

  lemma ProjectSound(gate: AnyTensor, up: AnyTensor, down: Layer, y: AnyTensor, z: AnyTensor, n: nat)
    requires gate.Valid() && gate.Fits(n) && up.Valid() && up.Fits(n) && down.Valid(n)
    requires Project(gate, up, down) == Some(y) && AlignedProject(gate, up, down)
    requires Project(Plain(gate.Meaning()), Plain(up.Meaning()), down.Unsharded()) == Some(z)
    ensures y.Valid() && y.Fits(n) && z == Plain(y.Meaning())
  {
    var m := BinaryAny(MUL, gate, up).value;
    BinarySound(MUL, gate, up, m, n);
    LinearSound(m, down, y, z, n);
  }

  // ---- Tensors without empty dimensions ----

  predicate PositiveLayer(layer: Layer) {
    PositiveAny(layer.weight) && (layer.bias.Some? ==> PositiveAny(layer.bias.value))
  }

  predicate PositiveBlock(block: Block) {
    PositiveLayer(block.gate) && PositiveLayer(block.up) && PositiveLayer(block.down)
  }

  lemma TransposePositive(w: AnyTensor, t: AnyTensor)
    requires w.Valid() && |w.Meaning().shape| == 2 && TransposeAny(w) == Some(t) && PositiveAny(w)
    ensures PositiveAny(t)
  {
    hide Prod, At, Unshard;
    if w.Sharded? {
      TransposedEach(w.split.shards);
      forall i | 0 <= i < |t.split.shards| ensures Alignment.Positive(t.split.shards[i].shape) {
        assert t.split.shards[i] == Transposed(w.split.shards[i], 0, 1);
        assert Alignment.Positive(w.split.shards[i].shape);
      }
    }
  }

  /** Without empty dimensions the bias of a layer that runs, sharded and plain, is aligned. */
  lemma PositiveLinear(x: AnyTensor, layer: Layer, y: AnyTensor, z: AnyTensor, n: nat)
    requires x.Valid() && x.Fits(n) && layer.Valid(n) && PositiveAny(x) && PositiveLayer(layer)
    requires Linear(x, layer) == Some(y) && Linear(Plain(x.Meaning()), layer.Unsharded()) == Some(z)
    ensures AlignedBias(x, layer) && PositiveAny(y)
  {
    hide PositiveAny, BinaryAny, Loses, Crossed;
    var t := TransposeAny(layer.weight).value;
    TransposeSound(layer.weight, t, n);
    TransposePositive(layer.weight, t);
    var p := MatmulAny(x, t).value;
    MatmulSound(x, t, p, n);
    MatmulPositive(x, t, p);
    if layer.bias.Some? {
      PositiveBinary(ADD, p, layer.bias.value, y, n);
    }
  }

  /** Without empty dimensions operands that combine as wholes are aligned. */
  lemma PositiveBinary(f: (real, real) -> real, x: AnyTensor, y: AnyTensor, z: AnyTensor, n: nat)
    requires x.Valid() && y.Valid() && x.Fits(n) && y.Fits(n) && PositiveAny(x) && PositiveAny(y)
    requires BinaryAny(f, x, y) == Some(z) && BinaryAny(f, Plain(x.Meaning()), Plain(y.Meaning())).Some?
    ensures Aligned(x, y) && z.Valid() && z.Fits(n) && PositiveAny(z)
    ensures BinaryAny(f, Plain(x.Meaning()), Plain(y.Meaning())) == Some(Plain(z.Meaning()))
  {
    hide PositiveAny, Loses, Crossed;
    BinarySound(f, x, y, z, n);
    PositiveIsNonEmpty(x);
    PositiveIsNonEmpty(y);
    Alignment.NonEmptyAligned(f, x, y, z, n);
    BinaryPositive(f, x, y, z);
  }

  lemma PositiveGate(h: AnyTensor, layer: Layer, activation: real -> real, y: AnyTensor, z: AnyTensor, n: nat)
    requires h.Valid() && h.Fits(n) && layer.Valid(n) && PositiveAny(h) && PositiveLayer(layer)
    requires Gate(h, layer, activation) == Some(y) && Gate(Plain(h.Meaning()), layer.Unsharded(), activation) == Some(z)
    ensures AlignedBias(h, layer) && PositiveAny(y)
  {
    hide PositiveAny, AlignedBias;
    var g, g' := Linear(h, layer).value, Linear(Plain(h.Meaning()), layer.Unsharded()).value;
    PositiveLinear(h, layer, g, g', n);
    UnaryPositive(activation, g, y);
  }

  lemma PositiveProject(gate: AnyTensor, up: AnyTensor, down: Layer, y: AnyTensor, z: AnyTensor, n: nat)
    requires gate.Valid() && gate.Fits(n) && up.Valid() && up.Fits(n) && down.Valid(n)
    requires PositiveAny(gate) && PositiveAny(up) && PositiveLayer(down)
    requires Project(gate, up, down) == Some(y) && Project(Plain(gate.Meaning()), Plain(up.Meaning()), down.Unsharded()) == Some(z)
    ensures AlignedProject(gate, up, down)
  {
    hide PositiveAny, PositiveLayer, AlignedBias, Linear, BinaryAny, Loses, Crossed;
    var m := BinaryAny(MUL, gate, up).value;
    PositiveBinary(MUL, gate, up, m, n);
    PositiveLinear(m, down, y, z, n);
  }

  /** However an input, weights and biases without empty dimensions are sharded: if the block runs, sharded and plain, it
      computes what it computes unsharded. */
  lemma PositiveForwardSound(h: AnyTensor, block: Block, n: nat, activation: real -> real, y: AnyTensor, z: AnyTensor)
    requires h.Valid() && h.Fits(n) && block.Valid(n) && PositiveAny(h) && PositiveBlock(block)
    requires Forward(h, block, n, activation) == Some(y)
    requires Forward(Plain(h.Meaning()), UnshardedBlock(block, n), n, activation) == Some(z)
    ensures AlignedBlock(h, block, n, activation) && y.Valid() && y.Fits(n) && z == Plain(y.Meaning())
    ensures WeightsOf(block, n).Fit(h.Meaning().shape) ==> Computes(y.Meaning(), h.Meaning(), WeightsOf(block, n), activation)
  {
    hide PositiveAny, PositiveLayer, AlignedBias, AlignedProject, Linear, Gate, Project, Computes, WeightsOf;
    var plain := Plain(h.Meaning());
    var gate, gate' := Gate(h, block.gate, activation).value, Gate(plain, block.gate.Unsharded(), activation).value;
    PositiveGate(h, block.gate, activation, gate, gate', n);
    GateSound(h, block.gate, activation, gate, gate', n);
    var up, up' := Linear(h, block.up).value, Linear(plain, block.up.Unsharded()).value;
    PositiveLinear(h, block.up, up, up', n);
    LinearSound(h, block.up, up, up', n);
    PositiveProject(gate, up, block.down, y, z, n);
    ForwardSound(h, block, n, activation, y, z);
  }

  // ---- Tensor parallelism ----

  /** Split along the last dimension, into parts of the given sizes. */
  predicate Columns(y: AnyTensor, shape: seq<nat>, sizes: seq<nat>) {
    && y.Valid() && y.Sharded? && shape != [] && y.split.dim == Last(shape) && |y.split.shards| == |sizes|
    && forall i | 0 <= i < |sizes| :: y.split.shards[i].shape == shape[Last(shape) := sizes[i]]
  }

  /** A layer whose weight and bias are split along the output dimension. */
  predicate SplitParallel(layer: Layer, inner: nat, sizes: seq<nat>) {
    && Parts(layer.weight, 0) && |layer.weight.split.shards| == |sizes|
    && (forall i | 0 <= i < |sizes| :: layer.weight.split.shards[i].shape == [sizes[i], inner])
    && (layer.bias.Some? ==> Columns(layer.bias.value, [0], sizes))
  }

  /** A layer whose weight is split along the summed dimension. */
  predicate SplitReduction(weight: AnyTensor, outer: nat, sizes: seq<nat>) {
    && Parts(weight, 1) && |weight.split.shards| == |sizes|
    && (forall i | 0 <= i < |sizes| :: weight.split.shards[i].shape == [outer, sizes[i]])
  }

  predicate Parts(w: AnyTensor, dim: nat) {
    w.Valid() && w.Sharded? && w.split.dim == dim
  }

  lemma {:induction false} TransposedEach(ts: seq<Tensor<real>>)
    requires forall i | 0 <= i < |ts| :: ts[i].Valid() && |ts[i].shape| == 2
    ensures forall t | t in ts :: t.Valid()
    ensures ApplyAll(Transpose(0, 1), ts).Some? && |ApplyAll(Transpose(0, 1), ts).value| == |ts|
    ensures forall i | 0 <= i < |ts| :: ApplyAll(Transpose(0, 1), ts).value[i] == Transposed(ts[i], 0, 1)
  {
    if ts != [] {
      TransposedEach(ts[1..]);
    }
  }

  lemma TransposeRuns(w: AnyTensor, rows: seq<nat>, columns: seq<nat>)
    requires w.Valid() && w.Sharded? && w.split.dim < 2 && |rows| == |columns| == |w.split.shards|
    requires forall i | 0 <= i < |rows| :: w.split.shards[i].shape == [rows[i], columns[i]]
    ensures |w.Meaning().shape| == 2 && TransposeAny(w).Some? && TransposeAny(w).value.Sharded?
    ensures TransposeAny(w).value.split.dim == 1 - w.split.dim && |TransposeAny(w).value.split.shards| == |rows|
    ensures forall i | 0 <= i < |rows| :: TransposeAny(w).value.split.shards[i].shape == [columns[i], rows[i]]
  {
    hide Prod, At, Unshard;
    TransposedEach(w.split.shards);
    var ts := ApplyAll(Transpose(0, 1), w.split.shards).value;
    forall i | 0 <= i < |ts| ensures ts[i].Valid() && ts[i].shape == [columns[i], rows[i]] {
      assert ts[i] == Transposed(w.split.shards[i], 0, 1);
    }
    assert w.split.shards[0].shape == [rows[0], columns[0]];
  }

  lemma ColumnProductsRun(h: Tensor<real>, n: nat, w: AnyTensor, sizes: seq<nat>)
    requires h.Valid() && |h.shape| >= 2 && Parts(w, 1) && |w.split.shards| == |sizes| == n
    requires forall i | 0 <= i < n :: w.split.shards[i].shape == [h.shape[Last(h.shape)], sizes[i]]
    ensures |w.Meaning().shape| == 2
    ensures MatmulAny(Replicated(h, n), w).Some? && Columns(MatmulAny(Replicated(h, n), w).value, h.shape, sizes)
    ensures MatmulAny(Plain(h), Plain(w.Meaning())) == Some(Plain(MatmulAny(Replicated(h, n), w).value.Meaning()))
  {
    var rs := w.split.shards;
    ProductsRun(Copies(h, n), rs);
    var ps := MatmulEach(Copies(h, n), rs).value;
    ColumnsValid(h, rs, ps);
    SplitColumnsSound(h, w.split, Sharded(Split(ps, Last(h.shape))));
  }

  /** A shape meets itself and a vector as long as its last dimension. */
  lemma LastFits(s: seq<nat>, t: seq<nat>)
    requires s != [] && t != [] && (t == s || |t| == 1) && t[Last(t)] == s[Last(s)]
    ensures Compatible(s, t) && BroadcastShape(s, t) == s
  {
  }

  lemma ZipColumnsRun(f: (real, real) -> real, x: AnyTensor, y: AnyTensor, shape: seq<nat>, shape': seq<nat>, sizes: seq<nat>)
    returns (z: AnyTensor)
    requires Columns(x, shape, sizes) && Columns(y, shape', sizes) && (shape' == shape || |shape'| == 1)
    ensures BinaryAny(f, x, y) == Some(z) && Columns(z, shape, sizes)
    ensures BinaryAny(f, Plain(x.Meaning()), Plain(y.Meaning())) == Some(Plain(z.Meaning()))
  {
    hide Compatible, BroadcastShape, Zip, Unshard, ZipSplits;
    forall i | 0 <= i < |sizes|
      ensures Compatible(x.split.shards[i].shape, y.split.shards[i].shape)
      ensures BroadcastShape(x.split.shards[i].shape, y.split.shards[i].shape) == shape[Last(shape) := sizes[i]]
    {
      LastFits(x.split.shards[i].shape, y.split.shards[i].shape);
    }
    z := SplitsRun(f, x.split, y.split);
  }

  lemma MapColumnsRun(f: real -> real, x: AnyTensor, shape: seq<nat>, sizes: seq<nat>)
    requires Columns(x, shape, sizes)
    ensures UnaryAny(f, x).Some? && Columns(UnaryAny(f, x).value, shape, sizes)
    ensures UnaryAny(f, Plain(x.Meaning())) == Some(Plain(UnaryAny(f, x).value.Meaning()))
  {
    MapsSound(f, x.split.shards, x.split.dim);
  }

  lemma SplitParallelRuns(h: Tensor<real>, n: nat, layer: Layer, sizes: seq<nat>) returns (y: AnyTensor)
    requires h.Valid() && |h.shape| >= 2 && n == |sizes| && SplitParallel(layer, h.shape[Last(h.shape)], sizes)
    ensures layer.Valid(n) && Linear(Replicated(h, n), layer) == Some(y) && Columns(y, h.shape, sizes)
    ensures Linear(Plain(h), layer.Unsharded()) == Some(Plain(y.Meaning()))
  {
    hide Unshard, MatmulAny, BinaryAny, TransposeAny, Columns;
    var t;
    t, y := SplitProductRuns(h, n, layer.weight, sizes);
    if layer.bias.Some? {
      ColumnsFit(layer.bias.value, [0], sizes);
      y := ZipColumnsRun(ADD, y, layer.bias.value, h.shape, [0], sizes);
    }
  }

  lemma ColumnsFit(y: AnyTensor, shape: seq<nat>, sizes: seq<nat>)
    requires Columns(y, shape, sizes)
    ensures y.Valid() && y.Fits(|sizes|)
  {
  }

  /** The product before the bias. */
  lemma SplitProductRuns(h: Tensor<real>, n: nat, weight: AnyTensor, sizes: seq<nat>) returns (t: AnyTensor, y: AnyTensor)
    requires h.Valid() && |h.shape| >= 2 && n == |sizes| && SplitParallel(Layer(weight, None), h.shape[Last(h.shape)], sizes)
    ensures weight.Valid() && weight.Fits(n) && |weight.Meaning().shape| == 2 && TransposeAny(weight) == Some(t)
    ensures t.Valid() && |t.Meaning().shape| == 2 && MatmulAny(Replicated(h, n), t) == Some(y) && Columns(y, h.shape, sizes)
    ensures y.Valid() && TransposeAny(Plain(weight.Meaning())) == Some(Plain(t.Meaning()))
    ensures MatmulAny(Plain(h), Plain(t.Meaning())) == Some(Plain(y.Meaning()))
  {
    hide Unshard, MatmulAny;
    TransposeRuns(weight, sizes, seq(n, _ => h.shape[Last(h.shape)]));
    t := TransposeAny(weight).value;
    TransposeSound(weight, t, n);
    ColumnProductsRun(h, n, t, sizes);
    y := MatmulAny(Replicated(h, n), t).value;
  }

  /** The product before the bias. */
  lemma SplitReductionRuns(m: AnyTensor, shape: seq<nat>, layer: Layer, outer: nat, sizes: seq<nat>)
    returns (t: AnyTensor, y: AnyTensor)
    requires Columns(m, shape, sizes) && |shape| >= 2 && SplitReduction(layer.weight, outer, sizes)
    ensures |layer.weight.Meaning().shape| == 2 && TransposeAny(layer.weight) == Some(t)
    ensures t.Valid() && MatmulAny(m, t) == Some(y) && y.Valid() && y.Unreduced?
    ensures TransposeAny(Plain(layer.weight.Meaning())) == Some(Plain(t.Meaning()))
    ensures MatmulAny(Plain(m.Meaning()), Plain(t.Meaning())) == Some(Plain(y.Meaning()))
  {
    TransposeRuns(layer.weight, seq(|sizes|, _ => outer), sizes);
    t := TransposeAny(layer.weight).value;
    TransposeSound(layer.weight, t, |sizes|);
    y := InnerProductsRun(m, shape, t, outer, sizes);
  }

  lemma InnerProductsRun(m: AnyTensor, shape: seq<nat>, t: AnyTensor, outer: nat, sizes: seq<nat>) returns (y: AnyTensor)
    requires Columns(m, shape, sizes) && |shape| >= 2 && Parts(t, 0) && |t.split.shards| == |sizes|
    requires forall i | 0 <= i < |sizes| :: t.split.shards[i].shape == [sizes[i], outer]
    ensures |t.Meaning().shape| == 2 && MatmulAny(m, t) == Some(y) && y.Valid() && y.Unreduced?
    ensures MatmulAny(Plain(m.Meaning()), Plain(t.Meaning())) == Some(Plain(y.Meaning()))
  {
    var ls, rs := m.split.shards, t.split.shards;
    assert ls[0].shape == shape[Last(shape) := sizes[0]] && rs[0].shape == [sizes[0], outer];
    ProductsRun(ls, rs);
    var ps := MatmulEach(ls, rs).value;
    InnerValid(ls, rs, ps);
    y := Unreduced(ps);
    SplitsSound(m.split, t.split, y);
  }

  lemma GateRuns(h: Tensor<real>, n: nat, layer: Layer, sizes: seq<nat>, activation: real -> real) returns (y: AnyTensor)
    requires h.Valid() && |h.shape| >= 2 && n == |sizes| && SplitParallel(layer, h.shape[Last(h.shape)], sizes)
    ensures n > 0 && layer.Valid(n) && Gate(Replicated(h, n), layer, activation) == Some(y) && Columns(y, h.shape, sizes)
    ensures Gate(Plain(h), layer.Unsharded(), activation) == Some(Plain(y.Meaning()))
  {
    var g := SplitParallelRuns(h, n, layer, sizes);
    MapColumnsRun(activation, g, h.shape, sizes);
    y := UnaryAny(activation, g).value;
  }

  lemma ProjectRuns(gate: AnyTensor, up: AnyTensor, shape: seq<nat>, sizes: seq<nat>, down: Layer, outer: nat)
    returns (y: AnyTensor)
    requires Columns(gate, shape, sizes) && Columns(up, shape, sizes) && |shape| >= 2
    requires SplitReduction(down.weight, outer, sizes) && (down.bias.Some? ==> down.bias.value.Valid())
    ensures y.Valid() && y.Unreduced? && |down.weight.Meaning().shape| == 2
    ensures down.bias.None? ==>
      && Project(gate, up, down) == Some(y)
      && Project(Plain(gate.Meaning()), Plain(up.Meaning()), down.Unsharded()) == Some(Plain(y.Meaning()))
    ensures down.bias.Some? && down.bias.value.Replicated? ==> Project(gate, up, down) == None
  {
    var m := ZipColumnsRun(MUL, gate, up, shape, shape, sizes);
    var t;
    t, y := SplitReductionRuns(m, shape, down, outer, sizes);
    assert down.bias.None? ==> Linear(m, down) == Some(y);
  }

  /** The sharding of the feed-forward block: gate and up are split along their outputs, down along the dimension it
      sums over, all three in the same way. The block then runs, leaves an unreduced tensor, and that stands for
      what the unsharded block computes. */
  lemma TensorParallelBlock(h: Tensor<real>, block: Block, n: nat, outer: nat, sizes: seq<nat>, activation: real -> real)
    returns (y: AnyTensor)
    requires h.Valid() && |h.shape| >= 2 && n == |sizes| && block.down.bias.None?
    requires SplitParallel(block.gate, h.shape[Last(h.shape)], sizes) && SplitParallel(block.up, h.shape[Last(h.shape)], sizes)
    requires SplitReduction(block.down.weight, outer, sizes)
    ensures n > 0 && block.Valid(n) && y.Valid() && y.Unreduced?
    ensures Forward(Replicated(h, n), block, n, activation) == Some(y)
    ensures Forward(Plain(h), UnshardedBlock(block, n), n, activation) == Some(Plain(y.Meaning()))
    ensures WeightsOf(block, n).Fit(h.shape) && Computes(y.Meaning(), h, WeightsOf(block, n), activation)
  {
    y := ParallelRuns(h, block, n, outer, sizes, activation);
    ParallelFits(h, block, n, outer, sizes);
    hide Forward, SplitParallel, SplitReduction, Computes, WeightsOf;
    UnshardedComputes(h, block, n, activation, y.Meaning());
  }

  lemma ColumnsMean(y: AnyTensor, shape: seq<nat>, sizes: seq<nat>)
    requires Columns(y, shape, sizes)
    ensures y.Meaning().shape == shape[Last(shape) := Total(sizes)]
  {
    hide Unshard;
    ShardsTotal(y.split.shards, Last(shape), sizes);
    assert y.split.shards[0].shape == shape[Last(shape) := sizes[0]];
  }

  function Total(sizes: seq<nat>): nat {
    if sizes == [] then 0 else sizes[0] + Total(sizes[1..])
  }

  lemma {:induction false} ShardsTotal(ts: seq<Tensor<real>>, d: nat, sizes: seq<nat>)
    requires |ts| == |sizes| && forall i | 0 <= i < |ts| :: d < |ts[i].shape| && ts[i].shape[d] == sizes[i]
    ensures DimSum(ts, d) == Total(sizes)
  {
    if ts != [] {
      ShardsTotal(ts[1..], d, sizes[1..]);
    }
  }

  lemma RowsMean(w: AnyTensor, inner: nat, sizes: seq<nat>)
    requires Parts(w, 0) && |w.split.shards| == |sizes| && forall i | 0 <= i < |sizes| :: w.split.shards[i].shape == [sizes[i], inner]
    ensures w.Fits(|sizes|) && w.Meaning().shape == [Total(sizes), inner]
  {
    hide Unshard, Prod;
    ShardsTotal(w.split.shards, 0, sizes);
    assert w.split.shards[0].shape == [sizes[0], inner];
  }

  lemma ParallelLayerFits(layer: Layer, inner: nat, sizes: seq<nat>)
    requires SplitParallel(layer, inner, sizes)
    ensures layer.Valid(|sizes|) && layer.weight.Meaning().shape == [Total(sizes), inner] && BiasFits(layer.weight.Meaning(), Bias(layer))
  {
    RowsMean(layer.weight, inner, sizes);
    hide Unshard, Prod, DimSum, Split.Valid, Columns, Parts;
    if layer.bias.Some? {
      ColumnsFit(layer.bias.value, [0], sizes);
      ColumnsMean(layer.bias.value, [0], sizes);
    }
  }

  lemma ParallelFits(h: Tensor<real>, block: Block, n: nat, outer: nat, sizes: seq<nat>)
    requires h.Valid() && |h.shape| >= 2 && n == |sizes| && block.down.bias.None?
    requires SplitParallel(block.gate, h.shape[Last(h.shape)], sizes) && SplitParallel(block.up, h.shape[Last(h.shape)], sizes)
    requires SplitReduction(block.down.weight, outer, sizes)
    ensures block.Valid(n) && WeightsOf(block, n).Fit(h.shape)
  {
    hide Unshard, SplitParallel;
    ParallelLayerFits(block.gate, h.shape[Last(h.shape)], sizes);
    ParallelLayerFits(block.up, h.shape[Last(h.shape)], sizes);
    ReductionFits(block.down, outer, sizes);
    ShardsTotal(block.down.weight.split.shards, 1, sizes);
    assert block.down.weight.split.shards[0].shape == [outer, sizes[0]];
  }

  lemma ParallelRuns(h: Tensor<real>, block: Block, n: nat, outer: nat, sizes: seq<nat>, activation: real -> real)
    returns (y: AnyTensor)
    requires h.Valid() && |h.shape| >= 2 && n == |sizes| && block.down.bias.None?
    requires SplitParallel(block.gate, h.shape[Last(h.shape)], sizes) && SplitParallel(block.up, h.shape[Last(h.shape)], sizes)
    requires SplitReduction(block.down.weight, outer, sizes)
    ensures n > 0 && block.Valid(n) && y.Valid() && y.Unreduced?
    ensures Forward(Replicated(h, n), block, n, activation) == Some(y)
    ensures Forward(Plain(h), UnshardedBlock(block, n), n, activation) == Some(Plain(y.Meaning()))
  {
    hide Linear, Gate, Project, SplitParallel, SplitReduction, Columns;
    var gate := GateRuns(h, n, block.gate, sizes, activation);
    var up := SplitParallelRuns(h, n, block.up, sizes);
    y := ProjectRuns(gate, up, h.shape, sizes, block.down, outer);
    ReductionFits(block.down, outer, sizes);
  }

  lemma ReductionFits(layer: Layer, outer: nat, sizes: seq<nat>)
    requires SplitReduction(layer.weight, outer, sizes) && layer.bias.None?
    ensures layer.Valid(|sizes|)
  {
    assert layer.weight.split.shards[0].shape == [outer, sizes[0]];
  }

  /** With a replicated bias on the down projection, as the sharding prescribes for one, the block does not run. */
  lemma DownBiasFails(h: Tensor<real>, block: Block, n: nat, outer: nat, sizes: seq<nat>, bias: Tensor<real>, activation: real -> real)
    requires h.Valid() && |h.shape| >= 2 && n == |sizes| && bias.Valid() && block.down.bias == Some(Replicated(bias, n))
    requires SplitParallel(block.gate, h.shape[Last(h.shape)], sizes) && SplitParallel(block.up, h.shape[Last(h.shape)], sizes)
    requires SplitReduction(block.down.weight, outer, sizes)
    ensures n > 0 && block.Valid(n) && Forward(Replicated(h, n), block, n, activation) == None
  {
    var gate := GateRuns(h, n, block.gate, sizes, activation);
    var up := SplitParallelRuns(h, n, block.up, sizes);
    var _ := ProjectRuns(gate, up, h.shape, sizes, block.down, outer);
  }

  /** A layer with weight and bias split along the output dimension. */
  function ShardOutputs(w: Tensor<real>, bias: Option<Tensor<real>>, n: nat): Option<Layer>
    requires BiasFits(w, bias)
  {
    match SplitTensor(w, 0, n)
    case None => None
    case Some(s) =>
      if bias.None? then Some(Layer(Sharded(s), None))
      else
        match SplitTensor(bias.value, 0, n)
        case None => None
        case Some(b) => Some(Layer(Sharded(s), Some(Sharded(b))))
  }

  /** A layer with the weight split along the summed dimension. */
  function ShardInputs(w: Tensor<real>, n: nat): Option<Layer>
    requires w.Valid()
  {
    match SplitTensor(w, 1, n)
    case None => None
    case Some(s) => Some(Layer(Sharded(s), None))
  }

  lemma RowParts(w: Tensor<real>, n: nat) returns (s: Split<real>)
    requires w.Valid() && |w.shape| == 2 && n > 0 && PartCount(w.shape[0], n) == n
    ensures SplitTensor(w, 0, n) == Some(s) && SplitParallel(Layer(Sharded(s), None), w.shape[1], PartLengths(w.shape[0], n))
    ensures Unshard(s) == w && |s.shards| == n
  {
    hide Unshard;
    SplitParts(w, 0, n);
    SplitThenUnshard(w, 0, n);
    PartLengthsCount(w.shape[0], n);
    s := SplitTensor(w, 0, n).value;
  }

  lemma VectorParts(v: Tensor<real>, n: nat) returns (s: Split<real>)
    requires v.Valid() && |v.shape| == 1 && n > 0 && PartCount(v.shape[0], n) == n
    ensures SplitTensor(v, 0, n) == Some(s) && Columns(Sharded(s), [0], PartLengths(v.shape[0], n))
    ensures Unshard(s) == v && |s.shards| == n
  {
    hide Unshard;
    SplitParts(v, 0, n);
    SplitThenUnshard(v, 0, n);
    PartLengthsCount(v.shape[0], n);
    s := SplitTensor(v, 0, n).value;
  }

  lemma OutputParts(w: Tensor<real>, bias: Option<Tensor<real>>, n: nat) returns (layer: Layer)
    requires BiasFits(w, bias) && n > 0 && PartCount(w.shape[0], n) == n
    ensures ShardOutputs(w, bias, n) == Some(layer) && SplitParallel(layer, w.shape[1], PartLengths(w.shape[0], n))
    ensures layer.Valid(n) && layer.Unsharded() == PlainLayer(w, bias)
  {
    hide SplitTensor, Unshard, PartLengths;
    var s := RowParts(w, n);
    layer := Layer(Sharded(s), None);
    if bias.Some? {
      var b := VectorParts(bias.value, n);
      layer := Layer(Sharded(s), Some(Sharded(b)));
    }
  }

  lemma InputParts(w: Tensor<real>, n: nat) returns (layer: Layer)
    requires w.Valid() && |w.shape| == 2 && n > 0 && PartCount(w.shape[1], n) == n
    ensures ShardInputs(w, n) == Some(layer) && SplitReduction(layer.weight, w.shape[0], PartLengths(w.shape[1], n))
    ensures layer.Valid(n) && layer.Unsharded() == PlainLayer(w, None) && layer.bias.None?
  {
    SplitParts(w, 1, n);
    SplitThenUnshard(w, 1, n);
    PartLengthsCount(w.shape[1], n);
    layer := ShardInputs(w, n).value;
  }

  /** Sharding the theta of a block changes nothing, for every width that splits into the requested number of shards. */
  lemma ShardedBlockKeepsMeaning(h: Tensor<real>, gate: Tensor<real>, gateBias: Option<Tensor<real>>,
                                 up: Tensor<real>, upBias: Option<Tensor<real>>, down: Tensor<real>, n: nat, activation: real -> real)
    returns (block: Block, y: AnyTensor)
    requires h.Valid() && |h.shape| >= 2 && BiasFits(gate, gateBias) && BiasFits(up, upBias) && down.Valid()
    requires gate.shape[1] == h.shape[Last(h.shape)] && up.shape == gate.shape
    requires |down.shape| == 2 && down.shape[1] == gate.shape[0] && n > 0 && SplitTensor(gate, 0, n).Some?
    ensures ShardOutputs(gate, gateBias, n) == Some(block.gate) && ShardOutputs(up, upBias, n) == Some(block.up)
    ensures ShardInputs(down, n) == Some(block.down) && block.Valid(n)
    ensures Forward(Replicated(h, n), block, n, activation) == Some(y) && y.Valid() && y.Unreduced?
    ensures Block(PlainLayer(gate, gateBias), PlainLayer(up, upBias), PlainLayer(down, None)).Valid(n)
    ensures Forward(Plain(h), Block(PlainLayer(gate, gateBias), PlainLayer(up, upBias), PlainLayer(down, None)), n, activation)
         == Some(Plain(y.Meaning()))
    ensures var ws := Weights(gate, gateBias, up, upBias, down, None);
      ws.Fit(h.shape) && Computes(y.Meaning(), h, ws, activation)
  {
    hide Computes;
    SplitParts(gate, 0, n);
    var gateLayer := OutputParts(gate, gateBias, n);
    var upLayer := OutputParts(up, upBias, n);
    var downLayer := InputParts(down, n);
    block := Block(gateLayer, upLayer, downLayer);
    y := TensorParallelBlock(h, block, n, down.shape[0], PartLengths(gate.shape[0], n), activation);
  }
}
