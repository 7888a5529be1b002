/** What linear layers and the gated feed-forward block compute, element by element. */
module DenseValues {
  import opened Elementwise
  import opened Products
  import opened ShapePrograms
  import opened Sharding
  import opened Slices
  import opened Sums
  import opened Tensors
  import opened Wrappers

  /** An element of a tensor, and zero outside of it. */
  function Value(t: Tensor<real>, idx: seq<nat>): real {
    if t.Valid() && InBounds(idx, t.shape) then At(t, idx) else 0.0
  }

  /** The bias of a layer, if there is one, has one element for each output. */
  predicate BiasFits(w: Tensor<real>, bias: Option<Tensor<real>>) {
    w.Valid() && |w.shape| == 2 && (bias.Some? ==> bias.value.Valid() && bias.value.shape == [w.shape[0]])
  }

  /** Output `o` of a linear layer for the row of the input at an index. */
  function LinearValue(x: Tensor<real>, w: Tensor<real>, bias: Option<Tensor<real>>, idx: seq<nat>, o: nat): real
    requires idx != [] && |w.shape| == 2
  {
    Sum(w.shape[1], (k: nat) => Value(x, idx[|idx| - 1 := k]) * Value(w, [o, k]))
    + if bias.Some? then Value(bias.value, [o]) else 0.0
  }

  /** The weights and biases of a gated block, as plain tensors. */
  datatype Weights = Weights(gate: Tensor<real>, gateBias: Option<Tensor<real>>, up: Tensor<real>, upBias: Option<Tensor<real>>,
                             down: Tensor<real>, downBias: Option<Tensor<real>>)
  {
    /** The layers fit together and to inputs of the given shape. */
    predicate Fit(shape: seq<nat>) {
      && |shape| >= 2 && BiasFits(gate, gateBias) && BiasFits(up, upBias) && BiasFits(down, downBias)
      && gate.shape[1] == up.shape[1] == shape[|shape| - 1] && gate.shape[0] == up.shape[0] == down.shape[1]
    }
  }

  /** The block: every hidden unit is the activated gate times the up projection, and the down projection adds them up. */
  function BlockValue(h: Tensor<real>, ws: Weights, activation: real -> real, idx: seq<nat>): real
    requires idx != [] && ws.Fit(h.shape)
  {
    var o := idx[|idx| - 1];
    Sum(ws.down.shape[1], (j: nat) =>
      activation(LinearValue(h, ws.gate, ws.gateBias, idx, j)) * LinearValue(h, ws.up, ws.upBias, idx, j) * Value(ws.down, [o, j]))
    + if ws.downBias.Some? then Value(ws.downBias.value, [o]) else 0.0
  }

  // ---- Linear layers ----

  lemma ValueAt(t: Tensor<real>, idx: seq<nat>)
    requires t.Valid() && InBounds(idx, t.shape)
    ensures Value(t, idx) == At(t, idx)
  {
  }

  lemma TransposedValue(w: Tensor<real>, k: nat, o: nat)
    requires w.Valid() && |w.shape| == 2 && k < w.shape[1] && o < w.shape[0]
    ensures Transposed(w, 0, 1).shape == [w.shape[1], w.shape[0]] && InBounds([k, o], Transposed(w, 0, 1).shape)
    ensures At(Transposed(w, 0, 1), [k, o]) == Value(w, [o, k])
  {
    assert Transposed(w, 0, 1).shape == [w.shape[1], w.shape[0]];
    TransposedAt(w, 0, 1, [k, o]);
    assert Swap([k, o], 0, 1) == [o, k];
  }

  lemma ProductValue(x: Tensor<real>, w: Tensor<real>, idx: seq<nat>)
    requires x.Valid() && w.Valid() && |x.shape| >= 2 && |w.shape| == 2 && x.shape[|x.shape| - 1] == w.shape[1]
    ensures CanMatmul(x, Transposed(w, 0, 1))
    ensures Matmul(x, Transposed(w, 0, 1)).shape == x.shape[|x.shape| - 1 := w.shape[0]]
    ensures InBounds(idx, x.shape[|x.shape| - 1 := w.shape[0]]) ==>
      At(Matmul(x, Transposed(w, 0, 1)), idx) == LinearValue(x, w, None, idx, idx[|idx| - 1])
  {
    hide At, Sum;
    var t, last := Transposed(w, 0, 1), |x.shape| - 1;
    assert t.shape == [w.shape[1], w.shape[0]];
    if InBounds(idx, x.shape[last := w.shape[0]]) {
      var o := idx[last];
      var terms := (k: nat) => Value(x, idx[|idx| - 1 := k]) * Value(w, [o, k]);
      forall k: nat | k < t.shape[0] ensures Terms(x, t, idx)(k) == terms(k) {
        TransposedValue(w, k, o);
        ValueAt(x, idx[last := k]);
      }
      SumSame(t.shape[0], Terms(x, t, idx), terms);
      assert At(Matmul(x, t), idx) == Dot(x, t, idx);
    }
  }

  lemma VectorFits(s: seq<nat>, t: seq<nat>)
    requires s != [] && t == [s[|s| - 1]]
    ensures Compatible(s, t) && BroadcastShape(s, t) == s
  {
  }

  lemma VectorPick(b: Tensor<real>, shape: seq<nat>, idx: seq<nat>)
    requires b.Valid() && shape != [] && b.shape == [shape[|shape| - 1]] && InBounds(idx, shape) && Stretches(b.shape, shape)
    ensures Pick(b, idx) == Value(b, [idx[|idx| - 1]])
  {
    hide At;
    Picked(b, shape, idx);
    assert Low(b.shape, idx) == [idx[|idx| - 1]];
  }

  /** A vector that is combined with every row. */
  lemma VectorValue(f: (real, real) -> real, p: Tensor<real>, b: Tensor<real>, idx: seq<nat>)
    requires p.Valid() && b.Valid() && p.shape != [] && b.shape == [p.shape[|p.shape| - 1]]
    ensures Broadcasts(p, b) && Zip(f, p, b).shape == p.shape
    ensures InBounds(idx, p.shape) ==> At(Zip(f, p, b), idx) == f(At(p, idx), Value(b, [idx[|idx| - 1]]))
  {
    hide At, Compatible, BroadcastShape, Stretches, Pick, Value;
    VectorFits(p.shape, b.shape);
    BothStretch(p.shape, b.shape);
    if InBounds(idx, p.shape) {
      ZippedAt(f, p, b, idx);
      PickWhole(p, idx);
      VectorPick(b, p.shape, idx);
    }
  }
}
