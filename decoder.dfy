/**
 * The integer and boolean part of `TransformerDecoder`: its construction and, in
 * `forward`, the alignment of token ids and encoder rows to one length, the image
 * slot and its dummy token, the embedding lookups, and the two attention masks.
 * Encoder rows hold entries of an abstract type `E`; of an entry only whether it
 * is non-zero matters, and `zero` is the entry `torch.zeros` fills rows with.
 */
module Decoder {
  import opened Outcomes
  import opened Tensors
  import opened Masks
  import opened Attention
  import opened Positions
  import opened Weights

  /** The fields of a `TransformerDecoder` that the bookkeeping reads. */
  datatype TransformerDecoder = TransformerDecoder(numTokens: nat, hidDim: nat, nLayers: nat, padIndex: Option<int>, maxLen: nat)

  /**
   * `TransformerDecoder(...)`: its own `nn.Dropout` rejects a `dropout` that is not a
   * probability before any layer is built; then each of the `n_layers` layers
   * builds two attention layers, whose constructor rejects an `n_heads` that does not
   * divide `hid_dim`; then `init_weights` Xavier-initialises every matrix, which
   * divides by zero on a `0 x 0` one. `pf_dim` only sizes matrices.
   */
  function NewDecoder(numTokens: nat, hidDim: nat, nLayers: nat, nHeads: nat, pfDim: nat, dropout: real, padIndex: Option<int>, maxLen: nat):
    (r: Result<TransformerDecoder>)
    ensures r.Ok? <==>
      IsDropoutRate(dropout) &&
      (nLayers == 0 || (nHeads > 0 && hidDim % nHeads == 0)) &&
      !(hidDim == 0 && (nLayers > 0 || numTokens == 0 || maxLen == 0))
    ensures !IsDropoutRate(dropout) ==> r == Err(ValueError)
    ensures IsDropoutRate(dropout) && nLayers > 0 && NewAttentionLayer(hidDim, nHeads, dropout).Err? ==>
      r == Err(NewAttentionLayer(hidDim, nHeads, dropout).error)
    ensures r.Err? && IsDropoutRate(dropout) && (nLayers == 0 || NewAttentionLayer(hidDim, nHeads, dropout).Ok?) ==>
      r.error == ZeroDivisionError
    ensures r.Ok? ==> r.value == TransformerDecoder(numTokens, hidDim, nLayers, padIndex, maxLen)
  {
    var attn := NewAttentionLayer(hidDim, nHeads, dropout);
    DecoderInitFails(numTokens, hidDim, nLayers, pfDim, maxLen);
    if !IsDropoutRate(dropout) then Err(ValueError)
    else if nLayers > 0 && attn.Err? then Err(attn.error)
    else match InitWeights(DecoderWeights(numTokens, hidDim, nLayers, pfDim, maxLen))
      case Some(e) => Err(e)
      case None => Ok(TransformerDecoder(numTokens, hidDim, nLayers, padIndex, maxLen))
  }

  /** The arguments of one `forward` call: ids `[bs][dec_len]`, encoder rows `[bs][enc_len][hid_dim]`, and whether an image embedding is passed. */
  datatype Call<E> = Call(x: seq<seq<int>>, decLen: nat, encOut: seq<seq<seq<E>>>, encLen: nat, hidDim: nat, hasImage: bool)
  {
    predicate WellShaped() {
      IsMatrix(x, |x|, decLen) && IsCube(encOut, |x|, encLen, hidDim)
    }

    function Bs(): nat { |x| }

    /** The number of slots the image takes: one when given. */
    function Img(): nat { ImageSlots(hasImage) }

    /** `seq_len`: the common length that ids and encoder rows are padded to. */
    function SeqLen(): nat { AlignedLength(decLen + Img(), encLen) }
  }

  /** The number of positions the image takes: one when given. */
  function ImageSlots(hasImage: bool): nat {
    if hasImage then 1 else 0
  }

  /** What a position of the embedding sequence holds: the image embedding, or the embedding of a token id. */
  datatype Slot = ImageSlot | TokenSlot(id: int)

  /** What `forward` hands to its layers, apart from embedding values. */
  datatype DecoderInputs<E> = DecoderInputs(
    tokens: seq<seq<int>>,            // the ids after padding
    encOut: seq<seq<seq<E>>>,         // the encoder rows after padding
    slots: seq<seq<Slot>>,            // what each position of `emb` is made from
    positions: seq<seq<int>>,         // the positional indices looked up
    maskTokens: seq<seq<int>>,        // the ids the masks are computed from
    inputMask: seq<seq<seq<bool>>>,   // self-attention mask
    encMask: seq<seq<seq<bool>>>)     // encoder-attention mask

  /** `max(dec_seq_len, enc_seq_len)`: the least length that fits both. */
  function AlignedLength(decSeqLen: nat, encLen: nat): (n: nat)
    ensures n >= decSeqLen && n >= encLen
    ensures n == decSeqLen || n == encLen
  {
    if decSeqLen >= encLen then decSeqLen else encLen
  }

  /** Each row of ids extended with `pad_index` up to `width`, the original ids first. */
  function PadTokens(x: seq<seq<int>>, decLen: nat, width: nat, pad: int): (r: seq<seq<int>>)
    requires IsMatrix(x, |x|, decLen) && decLen <= width
    ensures IsMatrix(r, |x|, width)
    ensures forall b, k :: 0 <= b < |x| && 0 <= k < width ==> r[b][k] == if k < decLen then x[b][k] else pad
  {
    Cat1(x, Full2(|x|, width - decLen, pad))
  }

  /** Each batch of encoder rows extended with all-`zero` rows up to `seqLen`, the original rows first. */
  function PadEncoderOut<E>(enc: seq<seq<seq<E>>>, encLen: nat, hidDim: nat, seqLen: nat, zero: E): (r: seq<seq<seq<E>>>)
    requires IsCube(enc, |enc|, encLen, hidDim) && encLen <= seqLen
    ensures IsCube(r, |enc|, seqLen, hidDim)
    ensures forall b, j :: 0 <= b < |enc| && 0 <= j < encLen ==> r[b][j] == enc[b][j]
    ensures forall b, j, k :: 0 <= b < |enc| && encLen <= j < seqLen && 0 <= k < hidDim ==> r[b][j][k] == zero
  {
    Cat1(enc, seq(|enc|, _ => Full2(seqLen - encLen, hidDim, zero)))
  }

  /** The ids the masks see: with an image, the dummy id `1` stands in front, in the image's slot. */
  function PrependDummy(tokens: seq<seq<int>>, width: nat, hasImage: bool): (r: seq<seq<int>>)
    requires IsMatrix(tokens, |tokens|, width)
    ensures IsMatrix(r, |tokens|, width + ImageSlots(hasImage))
    ensures forall b, k :: 0 <= b < |tokens| && 0 <= k < width ==> r[b][k + ImageSlots(hasImage)] == tokens[b][k]
    ensures hasImage ==> forall b :: 0 <= b < |tokens| ==> r[b][0] == 1
  {
    if hasImage then Cat1(Full2(|tokens|, 1, 1), tokens) else tokens
  }

  /** The embedding sequence: the image (when given) and then one token embedding per id. */
  function Slots(tokens: seq<seq<int>>, width: nat, hasImage: bool): (r: seq<seq<Slot>>)
    requires IsMatrix(tokens, |tokens|, width)
    ensures IsMatrix(r, |tokens|, width + ImageSlots(hasImage))
    ensures forall b, k :: 0 <= b < |tokens| && 0 <= k < width ==>
      r[b][k + ImageSlots(hasImage)] == TokenSlot(tokens[b][k])
    ensures hasImage ==> forall b :: 0 <= b < |tokens| ==> r[b][0] == ImageSlot
  {
    var embedded := seq(|tokens|, b requires 0 <= b < |tokens| =>
      seq(width, k requires 0 <= k < width => TokenSlot(tokens[b][k])));
    if hasImage then Cat1(Full2(|tokens|, 1, ImageSlot), embedded) else embedded
  }

  /** The self-attention mask: a key is hidden from a query when it holds the pad id or lies after the query. */
  function InputMask(maskTokens: seq<seq<int>>, seqLen: nat, pad: int): (m: seq<seq<seq<bool>>>)
    requires IsMatrix(maskTokens, |maskTokens|, seqLen)
    ensures IsCube(m, |maskTokens|, seqLen, seqLen)
    ensures forall b, i, j :: 0 <= b < |maskTokens| && 0 <= i < seqLen && 0 <= j < seqLen ==>
      (m[b][i][j] <==> maskTokens[b][j] == pad || j > i)
  {
    var bs := |maskTokens|;
    Or3(PadMask(maskTokens, seqLen, maskTokens, seqLen, pad), AutoregressiveMask(maskTokens, seqLen), bs, seqLen, seqLen)
  }

  /**
   * The encoder-attention mask: encoder row `j` counts as `1` when all its entries are
   * non-zero and as `0` otherwise, and is hidden when that count equals the pad id.
   */
  function EncoderMask<E>(maskTokens: seq<seq<int>>, encOut: seq<seq<seq<E>>>, seqLen: nat, hidDim: nat, pad: int, nonZero: E -> bool): (m: seq<seq<seq<bool>>>)
    requires IsMatrix(maskTokens, |maskTokens|, seqLen) && IsCube(encOut, |maskTokens|, seqLen, hidDim)
    ensures IsCube(m, |maskTokens|, seqLen, seqLen)
    ensures forall b, i, j :: 0 <= b < |maskTokens| && 0 <= i < seqLen && 0 <= j < seqLen ==>
      (m[b][i][j] <==> (if AllOf(encOut[b][j], nonZero) then 1 else 0) == pad)
  {
    var bs := |maskTokens|;
    var flags := ToLong2(AllLast(encOut, bs, seqLen, hidDim, nonZero), bs, seqLen);
    PadMask(maskTokens, seqLen, flags, seqLen, pad)
  }

  /**
   * Whether the layer stack gets through the call: each layer merges its heads
   * with `view(bs, -1, hid_dim)`, which raises `RuntimeError` when
   * `bs * hid_dim == 0` (see `Attention.MergeHeads`), and its encoder attention
   * projects the encoder rows with `fc_k`, which raises `RuntimeError` unless
   * their width is `hid_dim`.
   */
  predicate LayersRun<E>(dec: TransformerDecoder, c: Call<E>) {
    dec.nLayers == 0 || (c.Bs() > 0 && dec.hidDim > 0 && c.hidDim == dec.hidDim)
  }

  /**
   * Whether the embedding lookups of `forward` pass: a pad index is set, every id
   * (the pad id too, when padding is appended to a non-empty batch) has a token
   * embedding, and the positions fit the positional table.
   */
  predicate LookupsPass<E>(dec: TransformerDecoder, c: Call<E>) {
    && dec.padIndex.Some?
    && AllIndicesIn(c.x, dec.numTokens)
    && (c.Bs() > 0 && c.encLen > c.decLen + c.Img() ==> 0 <= dec.padIndex.value < dec.numTokens)
    && (c.Bs() == 0 || c.SeqLen() <= dec.maxLen)
  }

  /**
   * `forward`, and the layer stack's failure. Multiplying the `None` pad index
   * raises `TypeError`; an id or a position outside its embedding table raises
   * `IndexError`; after that the layers raise `RuntimeError` unless `LayersRun`.
   * What is returned is what the layers receive.
   */
  function Forward<E>(dec: TransformerDecoder, c: Call<E>, zero: E, nonZero: E -> bool): (r: Result<DecoderInputs<E>>)
    requires c.WellShaped()
    ensures dec.padIndex.None? ==> r == Err(TypeError)
    ensures dec.padIndex.Some? && r.Err? ==> r.error == IndexError || r.error == RuntimeError
    ensures r.Ok? ==> dec.padIndex.Some? && LayersRun(dec, c)
    ensures r.Ok? ==> IsCube(r.value.inputMask, c.Bs(), c.SeqLen(), c.SeqLen()) && IsCube(r.value.encMask, c.Bs(), c.SeqLen(), c.SeqLen())
  {
    match dec.padIndex
    case None => Err(TypeError)
    case Some(pad) =>
      var seqLen := c.SeqLen();
      var tokens := PadTokens(c.x, c.decLen, seqLen - c.Img(), pad);
      var encOut := PadEncoderOut(c.encOut, c.encLen, c.hidDim, seqLen, zero);
      var positions := PositionIndices(c.Bs(), seqLen);
      if !AllIndicesIn(tokens, dec.numTokens) then Err(IndexError)
      else if !AllIndicesIn(positions, dec.maxLen) then Err(IndexError)
      else
        var maskTokens := PrependDummy(tokens, seqLen - c.Img(), c.hasImage);
        if !LayersRun(dec, c) then Err(RuntimeError)
        else Ok(DecoderInputs(
          tokens, encOut, Slots(tokens, seqLen - c.Img(), c.hasImage), positions, maskTokens,
          InputMask(maskTokens, seqLen, pad),
          EncoderMask(maskTokens, encOut, seqLen, c.hidDim, pad, nonZero)))
  }

  // ------------------------------------------------ what forward guarantees

  /** The id the masks see at position `j` of row `b`: the dummy `1` in the image slot, then the ids, then padding. */
  function KeyId(x: seq<seq<int>>, decLen: nat, hasImage: bool, pad: int, b: nat, j: nat): int
    requires IsMatrix(x, |x|, decLen) && b < |x|
  {
    if hasImage && j == 0 then 1
    else if j - ImageSlots(hasImage) < decLen then x[b][j - ImageSlots(hasImage)]
    else pad
  }

  /**
   * `forward` returns exactly when the lookups pass and the layers run; with a
   * pad index set it fails with `IndexError` in the lookups and otherwise with
   * `RuntimeError` in the layers.
   */
  lemma ForwardOutcome<E>(dec: TransformerDecoder, c: Call<E>, zero: E, nonZero: E -> bool)
    requires c.WellShaped()
    ensures dec.padIndex.None? ==> Forward(dec, c, zero, nonZero) == Err(TypeError)
    ensures Forward(dec, c, zero, nonZero).Ok? <==> LookupsPass(dec, c) && LayersRun(dec, c)
    ensures dec.padIndex.Some? && Forward(dec, c, zero, nonZero).Err? ==>
      Forward(dec, c, zero, nonZero).error == if LookupsPass(dec, c) then RuntimeError else IndexError
  {
    if dec.padIndex.Some? {
      PaddedTokensInRange(c.x, c.decLen, c.SeqLen() - c.Img(), dec.padIndex.value, dec.numTokens);
      PositionsInRange(c.Bs(), c.SeqLen(), dec.maxLen);
    }
  }

  /** The padded ids all have embeddings exactly when the ids do and, if any padding is added, the pad id does. */
  lemma PaddedTokensInRange(x: seq<seq<int>>, decLen: nat, width: nat, pad: int, numTokens: nat)
    requires IsMatrix(x, |x|, decLen) && decLen <= width
    ensures AllIndicesIn(PadTokens(x, decLen, width, pad), numTokens) <==>
      AllIndicesIn(x, numTokens) && (|x| > 0 && width > decLen ==> 0 <= pad < numTokens)
  {
    var tokens := PadTokens(x, decLen, width, pad);
    if AllIndicesIn(tokens, numTokens) {
      assert forall b, k :: 0 <= b < |x| && 0 <= k < decLen ==> tokens[b][k] == x[b][k];
      if |x| > 0 && width > decLen {
        assert tokens[0][decLen] == pad;
      }
    }
  }

  /**
   * After alignment every per-position tensor has `seq_len` positions: the ids
   * have one fewer when the image takes a slot, the dummy id restores it, and
   * the embedding sequence, the positions, the encoder rows and both masks agree.
   */
  lemma ForwardShapes<E>(dec: TransformerDecoder, c: Call<E>, zero: E, nonZero: E -> bool)
    requires c.WellShaped() && Forward(dec, c, zero, nonZero).Ok?
    ensures var (r, bs, n) := (Forward(dec, c, zero, nonZero).value, c.Bs(), c.SeqLen());
      && n == (if c.decLen + c.Img() >= c.encLen then c.decLen + c.Img() else c.encLen)
      && IsMatrix(r.tokens, bs, n - c.Img())
      && IsMatrix(r.maskTokens, bs, n)
      && IsMatrix(r.slots, bs, n)
      && IsMatrix(r.positions, bs, n)
      && IsCube(r.encOut, bs, n, c.hidDim)
      && IsCube(r.inputMask, bs, n, n)
      && IsCube(r.encMask, bs, n, n)
  {
  }

  /**
   * Padding keeps the ids and encoder rows: the originals come first and what is
   * appended is the pad id, respectively all-`zero` rows.
   */
  lemma ForwardPadding<E>(dec: TransformerDecoder, c: Call<E>, zero: E, nonZero: E -> bool)
    requires c.WellShaped() && Forward(dec, c, zero, nonZero).Ok?
    ensures var (r, bs, n) := (Forward(dec, c, zero, nonZero).value, c.Bs(), c.SeqLen());
      && (forall b :: 0 <= b < bs ==> r.tokens[b][..c.decLen] == c.x[b])
      && (forall b, k :: 0 <= b < bs && c.decLen <= k < n - c.Img() ==> r.tokens[b][k] == dec.padIndex.value)
      && (forall b :: 0 <= b < bs ==> r.encOut[b][..c.encLen] == c.encOut[b])
      && (forall b, j, k :: 0 <= b < bs && c.encLen <= j < n && 0 <= k < c.hidDim ==> r.encOut[b][j][k] == zero)
  {
  }

  /** The masks see the dummy id in the image slot and elsewhere the id, or the pad id, at that position. */
  lemma ForwardMaskIds<E>(dec: TransformerDecoder, c: Call<E>, zero: E, nonZero: E -> bool)
    requires c.WellShaped() && Forward(dec, c, zero, nonZero).Ok?
    ensures var r := Forward(dec, c, zero, nonZero).value;
      forall b, j :: 0 <= b < c.Bs() && 0 <= j < c.SeqLen() ==>
        r.maskTokens[b][j] == KeyId(c.x, c.decLen, c.hasImage, dec.padIndex.value, b, j)
  {
    ForwardParts(dec, c, zero, nonZero);
    var r := Forward(dec, c, zero, nonZero).value;
    var (pad, width) := (dec.padIndex.value, c.SeqLen() - c.Img());
    var ids := PrependDummy(PadTokens(c.x, c.decLen, width, pad), width, c.hasImage);
    assert r.maskTokens == ids;
    forall b, j | 0 <= b < c.Bs() && 0 <= j < c.SeqLen() ensures ids[b][j] == KeyId(c.x, c.decLen, c.hasImage, pad, b, j) {
      PaddedIdAt(c.x, c.decLen, width, pad, c.hasImage, b, j);
    }
  }

  /**
   * The embedding sequence holds the image exactly in slot `0` when one is given, and
   * elsewhere the embedding of the very id the masks see there.
   */
  lemma ForwardSlots<E>(dec: TransformerDecoder, c: Call<E>, zero: E, nonZero: E -> bool)
    requires c.WellShaped() && Forward(dec, c, zero, nonZero).Ok?
    ensures var r := Forward(dec, c, zero, nonZero).value;
      forall b, j :: 0 <= b < c.Bs() && 0 <= j < c.SeqLen() ==>
        r.slots[b][j] == if c.hasImage && j == 0 then ImageSlot else TokenSlot(KeyId(c.x, c.decLen, c.hasImage, dec.padIndex.value, b, j))
  {
    ForwardParts(dec, c, zero, nonZero);
    var r := Forward(dec, c, zero, nonZero).value;
    var (pad, width) := (dec.padIndex.value, c.SeqLen() - c.Img());
    var slots := Slots(PadTokens(c.x, c.decLen, width, pad), width, c.hasImage);
    assert r.slots == slots;
    forall b, j | 0 <= b < c.Bs() && 0 <= j < c.SeqLen()
      ensures slots[b][j] == if c.hasImage && j == 0 then ImageSlot else TokenSlot(KeyId(c.x, c.decLen, c.hasImage, pad, b, j))
    {
      PaddedSlotAt(c.x, c.decLen, width, pad, c.hasImage, b, j);
    }
  }

  /** Position `j` of every row, the image slot included, is looked up as positional index `j`. */
  lemma ForwardPositions<E>(dec: TransformerDecoder, c: Call<E>, zero: E, nonZero: E -> bool)
    requires c.WellShaped() && Forward(dec, c, zero, nonZero).Ok?
    ensures var r := Forward(dec, c, zero, nonZero).value;
      forall b, j :: 0 <= b < c.Bs() && 0 <= j < c.SeqLen() ==> r.positions[b][j] == j
  {
    ForwardParts(dec, c, zero, nonZero);
  }

  /** The pieces `forward` assembles, before the masks. */
  lemma ForwardParts<E>(dec: TransformerDecoder, c: Call<E>, zero: E, nonZero: E -> bool)
    requires c.WellShaped() && Forward(dec, c, zero, nonZero).Ok?
    ensures c.decLen <= c.SeqLen() - c.Img() && c.Img() == ImageSlots(c.hasImage)
    ensures var r := Forward(dec, c, zero, nonZero).value;
      && r.tokens == PadTokens(c.x, c.decLen, c.SeqLen() - c.Img(), dec.padIndex.value)
      && r.maskTokens == PrependDummy(PadTokens(c.x, c.decLen, c.SeqLen() - c.Img(), dec.padIndex.value), c.SeqLen() - c.Img(), c.hasImage)
      && r.slots == Slots(PadTokens(c.x, c.decLen, c.SeqLen() - c.Img(), dec.padIndex.value), c.SeqLen() - c.Img(), c.hasImage)
      && r.positions == PositionIndices(c.Bs(), c.SeqLen())
  {
  }

  /** Position `j` of a padded row, with the dummy id in front when there is an image, is the id `KeyId` names. */
  lemma PaddedIdAt(x: seq<seq<int>>, decLen: nat, width: nat, pad: int, hasImage: bool, b: nat, j: nat)
    requires IsMatrix(x, |x|, decLen) && decLen <= width && b < |x| && j < width + ImageSlots(hasImage)
    ensures PrependDummy(PadTokens(x, decLen, width, pad), width, hasImage)[b][j] == KeyId(x, decLen, hasImage, pad, b, j)
  {
  }

  /** Position `j` of the embedding sequence is the image when it leads, and otherwise the embedding of the id `KeyId` names. */
  lemma PaddedSlotAt(x: seq<seq<int>>, decLen: nat, width: nat, pad: int, hasImage: bool, b: nat, j: nat)
    requires IsMatrix(x, |x|, decLen) && decLen <= width && b < |x| && j < width + ImageSlots(hasImage)
    ensures Slots(PadTokens(x, decLen, width, pad), width, hasImage)[b][j] ==
      if hasImage && j == 0 then ImageSlot else TokenSlot(KeyId(x, decLen, hasImage, pad, b, j))
  {
  }

  /**
   * Every query hides each key holding the pad id and each later key; in
   * particular every position past the ids, up to `seq_len`, is hidden from all.
   */
  lemma ForwardInputMask<E>(dec: TransformerDecoder, c: Call<E>, zero: E, nonZero: E -> bool)
    requires c.WellShaped() && Forward(dec, c, zero, nonZero).Ok?
    ensures var (r, bs, n, pad) := (Forward(dec, c, zero, nonZero).value, c.Bs(), c.SeqLen(), dec.padIndex.value);
      && (forall b, i, j :: 0 <= b < bs && 0 <= i < n && 0 <= j < n ==>
            (r.inputMask[b][i][j] <==> KeyId(c.x, c.decLen, c.hasImage, pad, b, j) == pad || j > i))
      && (forall b, i, j :: 0 <= b < bs && 0 <= i < n && c.decLen + c.Img() <= j < n ==> r.inputMask[b][i][j])
  {
    ForwardMaskIds(dec, c, zero, nonZero);
  }

  /**
   * With an image, the image slot is key `0` and carries the dummy id `1`: unless
   * the pad id is `1` every query sees it; if the pad id is `1`, query `0` sees nothing.
   */
  lemma ImageSlotVisibility<E>(dec: TransformerDecoder, c: Call<E>, zero: E, nonZero: E -> bool)
    requires c.WellShaped() && Forward(dec, c, zero, nonZero).Ok? && c.hasImage
    ensures var (r, bs, n, pad) := (Forward(dec, c, zero, nonZero).value, c.Bs(), c.SeqLen(), dec.padIndex.value);
      && (pad != 1 ==> forall b, i :: 0 <= b < bs && 0 <= i < n ==> !r.inputMask[b][i][0])
      && (pad == 1 ==> forall b, j :: 0 <= b < bs && 0 <= j < n ==> r.inputMask[b][0][j])
  {
    ForwardInputMask(dec, c, zero, nonZero);
  }

  /**
   * The encoder-attention mask in terms of the encoder rows passed in: an original
   * row is hidden when its all-non-zero count (`1` or `0`) equals the pad id, and an
   * added row, all `zero`, counts `0` unless it has no entries at all.
   */
  lemma ForwardEncoderMask<E>(dec: TransformerDecoder, c: Call<E>, zero: E, nonZero: E -> bool)
    requires c.WellShaped() && Forward(dec, c, zero, nonZero).Ok? && !nonZero(zero)
    ensures var r := Forward(dec, c, zero, nonZero).value;
      && (forall b, i, j :: 0 <= b < c.Bs() && 0 <= i < c.SeqLen() && 0 <= j < c.encLen ==>
            (r.encMask[b][i][j] <==> (if AllOf(c.encOut[b][j], nonZero) then 1 else 0) == dec.padIndex.value))
      && (forall b, i, j :: 0 <= b < c.Bs() && 0 <= i < c.SeqLen() && c.encLen <= j < c.SeqLen() ==>
            (r.encMask[b][i][j] <==> (if c.hidDim == 0 then 1 else 0) == dec.padIndex.value))
  {
    ForwardEncoderParts(dec, c, zero, nonZero);
    var r := Forward(dec, c, zero, nonZero).value;
    forall b, j | 0 <= b < c.Bs() && c.encLen <= j < c.SeqLen() ensures AllOf(r.encOut[b][j], nonZero) <==> c.hidDim == 0 {
      PaddedRowAllNonZero(c.encOut, c.encLen, c.hidDim, c.SeqLen(), zero, nonZero, b, j);
    }
  }

  /** The encoder rows and the encoder-attention mask `forward` assembles. */
  lemma ForwardEncoderParts<E>(dec: TransformerDecoder, c: Call<E>, zero: E, nonZero: E -> bool)
    requires c.WellShaped() && Forward(dec, c, zero, nonZero).Ok?
    ensures c.encLen <= c.SeqLen()
    ensures var r := Forward(dec, c, zero, nonZero).value;
      && IsMatrix(r.maskTokens, c.Bs(), c.SeqLen())
      && r.encOut == PadEncoderOut(c.encOut, c.encLen, c.hidDim, c.SeqLen(), zero)
      && r.encMask == EncoderMask(r.maskTokens, r.encOut, c.SeqLen(), c.hidDim, dec.padIndex.value, nonZero)
  {
  }

  /** An added encoder row, all `zero`, is all non-zero only when it has no entries. */
  lemma PaddedRowAllNonZero<E>(enc: seq<seq<seq<E>>>, encLen: nat, hidDim: nat, seqLen: nat, zero: E, nonZero: E -> bool, b: nat, j: nat)
    requires IsCube(enc, |enc|, encLen, hidDim) && encLen <= j < seqLen && b < |enc| && !nonZero(zero)
    ensures AllOf(PadEncoderOut(enc, encLen, hidDim, seqLen, zero)[b][j], nonZero) <==> hidDim == 0
  {
    if hidDim > 0 {
      assert PadEncoderOut(enc, encLen, hidDim, seqLen, zero)[b][j][0] == zero;
    }
  }

  /** With pad id `0` and a non-empty hidden size, every added encoder row is hidden from every query. */
  lemma PaddedEncoderRowsHidden<E>(dec: TransformerDecoder, c: Call<E>, zero: E, nonZero: E -> bool)
    requires c.WellShaped() && Forward(dec, c, zero, nonZero).Ok? && !nonZero(zero)
    requires dec.padIndex == Some(0) && c.hidDim > 0
    ensures var (r, bs, n) := (Forward(dec, c, zero, nonZero).value, c.Bs(), c.SeqLen());
      forall b, i, j :: 0 <= b < bs && 0 <= i < n && c.encLen <= j < n ==> r.encMask[b][i][j]
  {
    ForwardEncoderMask(dec, c, zero, nonZero);
  }

  /**
   * With pad id `0`, an original encoder row is hidden as soon as one of its entries
   * is zero, not only when all of them are; with a pad id other than `0` and `1`
   * the encoder-attention mask hides nothing.
   */
  lemma EncoderMaskQuirks<E>(dec: TransformerDecoder, c: Call<E>, zero: E, nonZero: E -> bool)
    requires c.WellShaped() && Forward(dec, c, zero, nonZero).Ok? && !nonZero(zero)
    ensures var (r, bs, n, pad) := (Forward(dec, c, zero, nonZero).value, c.Bs(), c.SeqLen(), dec.padIndex.value);
      && (pad == 0 ==> forall b, i, j, k ::
            (0 <= b < bs && 0 <= i < n && 0 <= j < c.encLen && 0 <= k < c.hidDim && !nonZero(c.encOut[b][j][k]))
            ==> r.encMask[b][i][j])
      && (pad != 0 && pad != 1 ==> forall b, i, j :: 0 <= b < bs && 0 <= i < n && 0 <= j < n ==> !r.encMask[b][i][j])
  {
    ForwardEncoderMask(dec, c, zero, nonZero);
  }
}
