/**
 * The integer and boolean part of `TransformerEncoder`: its construction, the
 * embedding lookups of `forward`, and the self-attention padding mask.
 */
module Encoder {
  import opened Outcomes
  import opened Tensors
  import opened Masks
  import opened Attention
  import opened Positions
  import opened Weights

  /** The fields of a `TransformerEncoder` that the bookkeeping reads. */
  datatype TransformerEncoder = TransformerEncoder(numTokens: nat, hidDim: nat, nLayers: nat, padIndex: Option<int>, maxLen: nat)

  /**
   * Whether the layer stack gets through a batch of `bs` sequences: each layer's
   * self-attention merges its heads with `view(bs, -1, hid_dim)`, which raises
   * `RuntimeError` when `bs * hid_dim == 0` (see `Attention.MergeHeads`).
   */
  predicate LayersRun(enc: TransformerEncoder, bs: nat) {
    enc.nLayers == 0 || (bs > 0 && enc.hidDim > 0)
  }

  /**
   * `TransformerEncoder(...)`: its own `nn.Dropout` rejects a `dropout` that is not a
   * probability before any layer is built; then each of the `n_layers` layers
   * builds an attention layer, whose constructor rejects an `n_heads` that does not
   * divide `hid_dim`; then `init_weights` Xavier-initialises every matrix, which
   * divides by zero on a `0 x 0` one. `pf_dim` only sizes matrices.
   */
  function NewEncoder(numTokens: nat, hidDim: nat, nLayers: nat, nHeads: nat, pfDim: nat, dropout: real, padIndex: Option<int>, maxLen: nat):
    (r: Result<TransformerEncoder>)
    ensures r.Ok? <==>
      IsDropoutRate(dropout) &&
      (nLayers == 0 || (nHeads > 0 && hidDim % nHeads == 0)) &&
      !(hidDim == 0 && (nLayers > 0 || numTokens == 0 || maxLen == 0))
    ensures !IsDropoutRate(dropout) ==> r == Err(ValueError)
    ensures IsDropoutRate(dropout) && nLayers > 0 && NewAttentionLayer(hidDim, nHeads, dropout).Err? ==>
      r == Err(NewAttentionLayer(hidDim, nHeads, dropout).error)
    ensures r.Err? && IsDropoutRate(dropout) && (nLayers == 0 || NewAttentionLayer(hidDim, nHeads, dropout).Ok?) ==>
      r.error == ZeroDivisionError
    ensures r.Ok? ==> r.value == TransformerEncoder(numTokens, hidDim, nLayers, padIndex, maxLen)
  {
    var attn := NewAttentionLayer(hidDim, nHeads, dropout);
    EncoderInitFails(numTokens, hidDim, nLayers, pfDim, maxLen);
    if !IsDropoutRate(dropout) then Err(ValueError)
    else if nLayers > 0 && attn.Err? then Err(attn.error)
    else match InitWeights(EncoderWeights(numTokens, hidDim, nLayers, pfDim, maxLen))
      case Some(e) => Err(e)
      case None => Ok(TransformerEncoder(numTokens, hidDim, nLayers, padIndex, maxLen))
  }

  /** What `forward` hands to its layers besides embedding values: the looked-up positions and the mask. */
  datatype EncoderInputs = EncoderInputs(positions: seq<seq<int>>, mask: Option<seq<seq<seq<bool>>>>)

  /**
   * `forward` as written: the token and position lookups, and then the read of
   * `self.padding_index`, an attribute that the constructor never sets (it sets
   * `self.pad_index`). No call returns.
   */
  function ForwardAsWritten(enc: TransformerEncoder, x: seq<seq<int>>, seqLen: nat): (r: Result<EncoderInputs>)
    requires IsMatrix(x, |x|, seqLen)
    ensures r.Err?
    ensures r.error == AttributeError <==> AllIndicesIn(x, enc.numTokens) && (|x| == 0 || seqLen <= enc.maxLen)
    ensures r.error != AttributeError ==> r.error == IndexError
  {
    var positions := PositionIndices(|x|, seqLen);
    PositionsInRange(|x|, seqLen, enc.maxLen);
    if !AllIndicesIn(x, enc.numTokens) then Err(IndexError)
    else if !AllIndicesIn(positions, enc.maxLen) then Err(IndexError)
    else Err(AttributeError)
  }

  /**
   * `forward` reading `self.pad_index` instead: when a pad index is configured the
   * self-attention mask hides, from every query, each key position holding it;
   * when none is, there is no mask. Once the lookups pass, the layer stack runs
   * and fails only as `LayersRun` says. The shape and range of the positions
   * follow from their value; they are stated for callers.
   */
  function Forward(enc: TransformerEncoder, x: seq<seq<int>>, seqLen: nat): (r: Result<EncoderInputs>)
    requires IsMatrix(x, |x|, seqLen)
    ensures r.Ok? <==> AllIndicesIn(x, enc.numTokens) && (|x| == 0 || seqLen <= enc.maxLen) && LayersRun(enc, |x|)
    ensures r.Err? ==> r.error == if AllIndicesIn(x, enc.numTokens) && (|x| == 0 || seqLen <= enc.maxLen) then RuntimeError else IndexError
    ensures r.Ok? ==> r.value.positions == PositionIndices(|x|, seqLen)
    ensures r.Ok? ==> IsMatrix(r.value.positions, |x|, seqLen)
    ensures r.Ok? ==> forall b, i :: 0 <= b < |x| && 0 <= i < seqLen ==> 0 <= r.value.positions[b][i] < enc.maxLen
    ensures r.Ok? ==> (r.value.mask.Some? <==> enc.padIndex.Some?)
    ensures r.Ok? && enc.padIndex.Some? ==>
      IsCube(r.value.mask.value, |x|, seqLen, seqLen) &&
      forall b, i, j :: 0 <= b < |x| && 0 <= i < seqLen && 0 <= j < seqLen ==>
        (r.value.mask.value[b][i][j] <==> x[b][j] == enc.padIndex.value)
  {
    var positions := PositionIndices(|x|, seqLen);
    PositionsInRange(|x|, seqLen, enc.maxLen);
    if !AllIndicesIn(x, enc.numTokens) then Err(IndexError)
    else if !AllIndicesIn(positions, enc.maxLen) then Err(IndexError)
    else
      var mask := match enc.padIndex
        case None => None
        case Some(pad) => Some(PadMask(x, seqLen, x, seqLen, pad));
      if !LayersRun(enc, |x|) then Err(RuntimeError)
      else Ok(EncoderInputs(positions, mask))
  }

  /**
   * The two differ only from the attribute read on: they share every lookup
   * failure, and wherever the written one raises `AttributeError` the corrected
   * one goes on, to return or to fail in the layer stack.
   */
  lemma AsWrittenFailsWhereCorrectedReturns(enc: TransformerEncoder, x: seq<seq<int>>, seqLen: nat)
    requires IsMatrix(x, |x|, seqLen)
    ensures ForwardAsWritten(enc, x, seqLen) == Err(IndexError) <==> Forward(enc, x, seqLen) == Err(IndexError)
    ensures ForwardAsWritten(enc, x, seqLen) == Err(AttributeError) <==>
      Forward(enc, x, seqLen).Ok? || Forward(enc, x, seqLen) == Err(RuntimeError)
    ensures ForwardAsWritten(enc, x, seqLen) == Err(AttributeError) && LayersRun(enc, |x|) ==> Forward(enc, x, seqLen).Ok?
  {
  }

  /**
   * The corrected `forward` fails in the layers exactly when the first layer's
   * head merge does: whatever that layer's shape, its `view(bs, -1, hid_dim)` on
   * the batch is the one that raises.
   */
  lemma LayerFailureIsMerge<T>(enc: TransformerEncoder, x: seq<seq<int>>, seqLen: nat, layer: AttentionLayer, heads: seq<seq<seq<seq<T>>>>)
    requires IsMatrix(x, |x|, seqLen) && AllIndicesIn(x, enc.numTokens) && (|x| == 0 || seqLen <= enc.maxLen)
    requires enc.nLayers > 0 && layer.Valid() && layer.hidDim == enc.hidDim
    requires Is4(heads, |x|, layer.nHeads, seqLen, layer.headDim)
    ensures Forward(enc, x, seqLen).Err? <==> MergeHeads(layer, heads, |x|, seqLen).Err?
    ensures Forward(enc, x, seqLen).Err? ==> Forward(enc, x, seqLen).error == MergeHeads(layer, heads, |x|, seqLen).error
  {
  }

  /**
   * A one-sentence batch `[[5, 0]]` with pad index `0`: the written `forward` raises
   * `AttributeError`, the corrected one masks the padded second key for both queries.
   */
  lemma PaddingIndexCounterexample()
    ensures var enc := TransformerEncoder(10, 512, 6, Some(0), 128);
      ForwardAsWritten(enc, [[5, 0]], 2) == Err(AttributeError) &&
      Forward(enc, [[5, 0]], 2) == Ok(EncoderInputs([[0, 1]], Some([[[false, true], [false, true]]])))
  {
    var enc := TransformerEncoder(10, 512, 6, Some(0), 128);
    var x := [[5, 0]];
    assert IsMatrix(x, 1, 2);
    var r := Forward(enc, x, 2);
    assert r.Ok?;
    var p := r.value.positions;
    assert p[0][0] == 0 && p[0][1] == 1;
    assert p[0] == [0, 1];
    var m := r.value.mask.value;
    assert !m[0][0][0] && m[0][0][1] && !m[0][1][0] && m[0][1][1];
    assert m[0][0] == [false, true] && m[0][1] == [false, true];
    assert m[0] == [[false, true], [false, true]];
    assert p == [[0, 1]] && m == [[[false, true], [false, true]]];
    assert r == Ok(EncoderInputs(p, Some(m)));
  }
}
