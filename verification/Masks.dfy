/** The boolean masks of a causal language model; `true` marks a position that must not be seen. */
module Masks {

  /** One row of `input_mask`: everything at or after the sequence length is masked. */
  function InputMask(seqLen: nat, width: nat): seq<bool> {
    seq(width, pos requires 0 <= pos < width => pos >= seqLen)
  }

  /** `generate_causal_context_mask`: the strict upper triangle is masked. */
  function CausalContextMask(contextLength: nat): seq<seq<bool>> {
    seq(contextLength, q => seq(contextLength, k => k > q))
  }

  /** `attention_mask` of one sequence, by query and key position. */
  function AttentionMask(seqLen: nat, width: nat, contextLength: nat): seq<seq<bool>>
    requires width <= contextLength
  {
    var causal := CausalContextMask(contextLength);
    seq(width, q requires 0 <= q < width =>
      seq(width, k requires 0 <= k < width => causal[q][k] || InputMask(seqLen, width)[k]))
  }

  /** What a query can see of a row of values. */
  function Unmasked<V>(values: seq<V>, mask: seq<bool>): seq<V>
    requires |values| == |mask|
  {
    if values == [] then []
    else (if mask[0] then [] else [values[0]]) + Unmasked(values[1..], mask[1..])
  }

  /** An input mask shows exactly the positions of the sequence, in order. */
  lemma {:induction false} InputMaskShowsPrefix<V>(values: seq<V>, seqLen: nat)
    requires seqLen <= |values|
    ensures Unmasked(values, InputMask(seqLen, |values|)) == values[..seqLen]
  {
    if values != [] {
      var rest := if seqLen == 0 then 0 else seqLen - 1;
      InputMaskShowsPrefix(values[1..], rest);
      var mask := InputMask(seqLen, |values|);
      assert mask[1..] == InputMask(rest, |values| - 1);
      assert mask[0] == (seqLen == 0);
      if seqLen > 0 {
        assert values[..seqLen] == [values[0]] + values[1..][..rest];
      }
    }
  }

  /** A decode step sees what the last token of a one-shot prefill of the same sequence sees. */
  lemma DecodeSeesLikePrefill(seqLen: nat, width: nat, contextLength: nat)
    requires 0 < seqLen <= width <= contextLength
    ensures AttentionMask(seqLen, width, contextLength)[seqLen - 1] == InputMask(seqLen, width)
  {
    var row := AttentionMask(seqLen, width, contextLength)[seqLen - 1];
    forall k | 0 <= k < width ensures row[k] == InputMask(seqLen, width)[k] {
    }
  }

  /** A query sees the positions of the sequence up to its own, in order, and nothing else. */
  lemma QueryShows<V>(seqLen: nat, width: nat, contextLength: nat, q: nat, values: seq<V>)
    requires q < width <= contextLength && |values| == width && seqLen <= width
    ensures |AttentionMask(seqLen, width, contextLength)| == width
    ensures Unmasked(values, AttentionMask(seqLen, width, contextLength)[q]) == if q < seqLen then values[..q + 1] else values[..seqLen]
  {
    var shown := if q < seqLen then q + 1 else seqLen;
    var row := AttentionMask(seqLen, width, contextLength)[q];
    assert row == InputMask(shown, width) by {
      forall k | 0 <= k < width ensures row[k] == (k >= shown) {
        assert CausalContextMask(contextLength)[q][k] == (k > q) && InputMask(seqLen, width)[k] == (k >= seqLen);
      }
    }
    InputMaskShowsPrefix(values, shown);
  }
}
