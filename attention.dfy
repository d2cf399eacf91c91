/**
 * The index bookkeeping of `MultiHeadAttentionLayer`: the divisibility check of its
 * constructor, the split of `[bs][seq_len][hid_dim]` into heads, the merge back, and
 * the broadcast of a mask over the heads. The values moved around never matter here.
 */
module Attention {
  import opened Outcomes
  import opened Tensors

  /** The shape fields of a `MultiHeadAttentionLayer`. */
  datatype AttentionLayer = AttentionLayer(hidDim: nat, nHeads: nat, headDim: nat)
  {
    /** The heads tile the hidden dimension exactly. */
    predicate Valid() {
      nHeads * headDim == hidDim
    }
  }

  /**
   * `MultiHeadAttentionLayer(hid_dim, n_heads, dropout)`: fails unless `n_heads`
   * divides `hid_dim` (a modulo by zero first of all), then sets
   * `head_dim = hid_dim // n_heads`, and last builds its `nn.Dropout`.
   */
  function NewAttentionLayer(hidDim: nat, nHeads: nat, dropout: real): (r: Result<AttentionLayer>)
    ensures r.Ok? <==> nHeads > 0 && hidDim % nHeads == 0 && IsDropoutRate(dropout)
    ensures nHeads == 0 ==> r == Err(ZeroDivisionError)
    ensures nHeads > 0 && hidDim % nHeads != 0 ==> r == Err(AssertionError)
    ensures nHeads > 0 && hidDim % nHeads == 0 && !IsDropoutRate(dropout) ==> r == Err(ValueError)
    ensures r.Ok? ==> r.value.Valid() && r.value.hidDim == hidDim && r.value.nHeads == nHeads
  {
    if nHeads == 0 then Err(ZeroDivisionError)
    else if hidDim % nHeads != 0 then Err(AssertionError)
    else if !IsDropoutRate(dropout) then Err(ValueError)
    else Ok(AttentionLayer(hidDim, nHeads, hidDim / nHeads))
  }

  /**
   * `x.view(bs, seq_len, n_heads, head_dim).permute(0, 2, 1, 3)`: entry
   * `(b, s, h * head_dim + d)` of the input lands at `(b, h, s, d)`.
   */
  function SplitHeads<T>(layer: AttentionLayer, x: seq<seq<seq<T>>>, bs: nat, seqLen: nat): (r: seq<seq<seq<seq<T>>>>)
    requires layer.Valid() && IsCube(x, bs, seqLen, layer.hidDim)
    ensures Is4(r, bs, layer.nHeads, seqLen, layer.headDim)
    ensures forall b, h, s, d :: 0 <= b < bs && 0 <= h < layer.nHeads && 0 <= s < seqLen && 0 <= d < layer.headDim ==>
      r[b][h][s][d] == x[b][s][Flat(h, d, layer.nHeads, layer.headDim)]
  {
    var (nh, hd) := (layer.nHeads, layer.headDim);
    ViewSplitsLast(x, bs, seqLen, nh, hd);
    SplitLastAt(x, bs, seqLen, nh, hd);
    Permute0213(Reshape4(Flatten3(x), bs, seqLen, nh, hd), bs, seqLen, nh, hd)
  }

  /**
   * `x.permute(0, 2, 1, 3).contiguous().view(bs, -1, hid_dim)`. The `-1` is the
   * element count over `bs * hid_dim`, which `view` refuses to infer when that
   * product is zero.
   */
  function MergeHeads<T>(layer: AttentionLayer, y: seq<seq<seq<seq<T>>>>, bs: nat, seqLen: nat): (r: Result<seq<seq<seq<T>>>>)
    requires layer.Valid() && Is4(y, bs, layer.nHeads, seqLen, layer.headDim)
    ensures r.Ok? <==> bs > 0 && layer.hidDim > 0
    ensures r.Err? ==> r.error == RuntimeError
    ensures r.Ok? ==> IsCube(r.value, bs, seqLen, layer.hidDim)
  {
    var t := Permute0213(y, bs, layer.nHeads, seqLen, layer.headDim);
    Reshape4Flatten4(t, bs, seqLen, layer.nHeads, layer.headDim);
    var flat := Flatten4(t);
    ViewCount(bs, seqLen, layer.hidDim);
    match InferDim(|flat|, bs * layer.hidDim)
    case None => Err(RuntimeError)
    case Some(n) =>
      assert n == seqLen;
      Ok(Reshape3(flat, bs, n, layer.hidDim))
  }

  /** The element count of `[bs][seq_len][hid_dim]` over `bs * hid_dim` gives back `seq_len`. */
  lemma ViewCount(bs: nat, seqLen: nat, hidDim: nat)
    ensures bs * (seqLen * hidDim) == seqLen * (bs * hidDim)
    ensures bs * hidDim > 0 ==> InferDim(bs * (seqLen * hidDim), bs * hidDim) == Some(seqLen)
  {
    assert bs * (seqLen * hidDim) == seqLen * (bs * hidDim);
    if bs * hidDim > 0 {
      MulDivCancel(seqLen, bs * hidDim);
    }
  }

  /** Merging what was split gives the input back, for a non-empty batch and hidden size. */
  lemma MergeAfterSplit<T>(layer: AttentionLayer, x: seq<seq<seq<T>>>, bs: nat, seqLen: nat)
    requires layer.Valid() && IsCube(x, bs, seqLen, layer.hidDim)
    requires bs > 0 && layer.hidDim > 0
    ensures MergeHeads(layer, SplitHeads(layer, x, bs, seqLen), bs, seqLen) == Ok(x)
  {
    var (nh, hd) := (layer.nHeads, layer.headDim);
    ViewSplitsLast(x, bs, seqLen, nh, hd);
    var v := Reshape4(Flatten3(x), bs, seqLen, nh, hd);
    PermuteTwice(v, bs, seqLen, nh, hd);
    FlattenSplitLast(x, bs, seqLen, nh, hd);
    ViewCount(bs, seqLen, layer.hidDim);
    Reshape3Flatten3(x, bs, seqLen, layer.hidDim);
  }

  /**
   * Splitting what was merged gives the heads back, and so entry `(b, h, s, d)` of
   * the heads sits at `(b, s, h * head_dim + d)` of the merged tensor.
   */
  lemma SplitAfterMerge<T>(layer: AttentionLayer, y: seq<seq<seq<seq<T>>>>, bs: nat, seqLen: nat)
    requires layer.Valid() && Is4(y, bs, layer.nHeads, seqLen, layer.headDim)
    requires bs > 0 && layer.hidDim > 0
    ensures MergeHeads(layer, y, bs, seqLen).Ok?
    ensures SplitHeads(layer, MergeHeads(layer, y, bs, seqLen).value, bs, seqLen) == y
    ensures forall b, h, s, d :: 0 <= b < bs && 0 <= h < layer.nHeads && 0 <= s < seqLen && 0 <= d < layer.headDim ==>
      MergeHeads(layer, y, bs, seqLen).value[b][s][Flat(h, d, layer.nHeads, layer.headDim)] == y[b][h][s][d]
  {
    var (nh, hd) := (layer.nHeads, layer.headDim);
    var t := Permute0213(y, bs, nh, seqLen, hd);
    Reshape4Flatten4(t, bs, seqLen, nh, hd);
    var flat := Flatten4(t);
    ViewCount(bs, seqLen, layer.hidDim);
    var x := Reshape3(flat, bs, seqLen, layer.hidDim);
    assert MergeHeads(layer, y, bs, seqLen) == Ok(x);
    Flatten3Reshape3(flat, bs, seqLen, layer.hidDim);
    PermuteTwice(y, bs, nh, seqLen, hd);
    assert SplitHeads(layer, x, bs, seqLen) == y;
  }

  /**
   * `mask.unsqueeze(1).repeat(1, n_heads, 1, 1)`: every head of batch `b` gets
   * the mask of batch `b`.
   */
  function HeadMask(layer: AttentionLayer, mask: seq<seq<seq<bool>>>, bs: nat, queryLen: nat, keyLen: nat): (r: seq<seq<seq<seq<bool>>>>)
    requires IsCube(mask, bs, queryLen, keyLen)
    ensures Is4(r, bs, layer.nHeads, queryLen, keyLen)
    ensures forall b, h, i, j :: 0 <= b < bs && 0 <= h < layer.nHeads && 0 <= i < queryLen && 0 <= j < keyLen ==>
      r[b][h][i][j] == mask[b][i][j]
  {
    Expand1(Unsqueeze1(mask), layer.nHeads)
  }
}
