# Transformer bookkeeping of deephumor, in Dafny

The `deephumor` meme generator ships a vanilla Transformer encoder and decoder
(`deephumor/models/transformers.py`). Most of that file is floating-point work
done by PyTorch. Underneath it is a small discrete layer of integer and boolean
bookkeeping, and that layer is what this project models and proves things about:

- when the `TransformerEncoder` and `TransformerDecoder` constructors succeed:
  their `dropout` range check, the attention layers' divisibility check, then
  `init_weights`, whose Xavier initialisation divides by zero on a `0 x 0`
  weight matrix;
- the two mask builders, `get_pad_mask` and `get_autoregressive_mask`;
- the `MultiHeadAttentionLayer` constructor's divisibility and dropout checks, and the index
  maps of its head split (`view` + `permute(0, 2, 1, 3)`) and merge
  (`permute(0, 2, 1, 3)` + `view(bs, -1, hid_dim)`);
- the positional indices `arange(seq_len).repeat(bs, 1)` and when they fit the
  positional table;
- `TransformerEncoder.forward`: the embedding lookups, the self-attention
  padding mask, and whether the layer stack raises;
- `TransformerDecoder.forward`. This covers the alignment of token ids and
  encoder rows to one `seq_len`, the image slot with its dummy token `1`, the
  self-attention mask (padding OR future), the encoder-attention mask built from
  the all-non-zero encoder rows, and whether the layer stack raises.

Tensors are nested sequences, and their shapes are passed alongside because a
batch of size zero would otherwise forget its inner sizes. `view` is row-major
flattening followed by cutting up again, so the split/merge round trip is a real
theorem about index maps, not an assumption. Values that only feed floating-point
code are left generic. An encoder-output entry is an abstract `E`, and of an entry
the model only knows whether it is non-zero (a caller-supplied predicate) and
which entry `torch.zeros` fills rows with.

Python failures are values of `Result`:

- `TypeError` when the decoder multiplies the `None` pad index;
- `IndexError` when an id or a position falls outside its embedding table;
- `ValueError` when a constructor's `nn.Dropout` is given a `dropout` outside `[0, 1]`;
- `ZeroDivisionError` and `AssertionError` from the attention constructor, and
  `ZeroDivisionError` from Xavier initialisation of a `0 x 0` weight;
- `AttributeError` from the encoder's misspelt attribute;
- `RuntimeError` when `view` cannot infer its `-1` dimension.

Where the code and its comments disagree, the model follows the code. Both
constructors say "if None, don't use masking" for `pad_index` (lines 246 and
408). The encoder never reaches that test, because of the misspelling in the
findings below. The decoder multiplies by `pad_index` unconditionally (line 457),
so `None` raises `TypeError` there.

Modules:

- `Outcomes`: `Option` and `Result`.
- `Tensors`: the PyTorch primitives used, and the row-major flatten/reshape laws.
- `Masks`: the two mask builders.
- `Attention`: `MultiHeadAttentionLayer`'s index bookkeeping.
- `Positions`: the positional indices.
- `Weights`: the weight matrices the constructors create, and `init_weights`.
- `Encoder`: `TransformerEncoder`'s bookkeeping.
- `Decoder`: `TransformerDecoder`'s bookkeeping.

## Model

The `Tensors` rows from `Tensors.Full2` to `Tensors.ToLong2` define the PyTorch
calls that the cited lines make. Their contracts give the shape and the entries
each call produces, and the rows after them build on those definitions.
`Weights.Linear` and `Weights.Embedding` likewise define the weight shapes of
`nn.Linear` and `nn.Embedding`.

| member | source | states |
|---|---|---|
| Tensors.Full2 | deephumor/models/transformers.py:457-458 | `v * ones(d0, d1)` / `zeros(...)` has shape `[d0][d1]` and every entry is `v` |
| Tensors.Ones3 | deephumor/models/transformers.py:37 | `torch.ones([d0, d1, d2])` has that shape and is `1` everywhere |
| Tensors.Arange | deephumor/models/transformers.py:287 | `arange(n)` has length `n` and entry `i` is `i` |
| Tensors.Repeat | deephumor/models/transformers.py:287 | `row.repeat(times, 1)` is `times` rows, each equal to `row` |
| Tensors.Cat1 | deephumor/models/transformers.py:457 | `cat(dim=1)` keeps the batch size and puts each row of the first before the matching row of the second |
| Tensors.Unsqueeze1 | deephumor/models/transformers.py:23 | `unsqueeze(1)` inserts a size-one dimension holding the original entry |
| Tensors.Expand1 | deephumor/models/transformers.py:24 | `expand` along a size-one dimension repeats its one entry `n` times |
| Tensors.Permute0213 | deephumor/models/transformers.py:99 | `permute(0, 2, 1, 3)` swaps the middle sizes and moves entry `(a, b, c, d)` to `(a, c, b, d)` |
| Tensors.EqScalar | deephumor/models/transformers.py:23 | `key == pad_index` keeps the shape and is true exactly at the entries equal to the scalar |
| Tensors.Triu | deephumor/models/transformers.py:37 | `triu(t, diagonal)` keeps entry `(i, j)` when `j - i >= diagonal` and zeroes it otherwise |
| Tensors.ToBool3 | deephumor/models/transformers.py:38 | `.bool()` is true exactly at the non-zero entries |
| Tensors.Or3 | deephumor/models/transformers.py:483 | `a \| b` is the entrywise disjunction, same shape |
| Tensors.AllLast | deephumor/models/transformers.py:486 | `(t != 0).all(dim=-1)` is true for a row exactly when every entry of it is non-zero |
| Tensors.ToLong2 | deephumor/models/transformers.py:486 | `.long()` of a boolean tensor is `1` for true and `0` for false |
| Tensors.InferDim | deephumor/models/transformers.py:122 | `view`'s `-1` exists exactly when the other sizes' product is non-zero and divides the element count, and it times that product is the element count |
| Tensors.Reshape3Flatten3 | deephumor/models/transformers.py:122 | `view` to the shape a contiguous tensor already has is the identity |
| Tensors.Flatten3Reshape3 | deephumor/models/transformers.py:122 | reading a buffer as `[d0][d1][d2]` and flattening gives the buffer back |
| Tensors.Reshape4Flatten4 | deephumor/models/transformers.py:121-122 | flatten then `view` to the same four sizes is the identity |
| Tensors.ViewSplitsLast | deephumor/models/transformers.py:99 | `view(bs, seq_len, n_heads, head_dim)` of `[bs][seq_len][n_heads * head_dim]` cuts each innermost row into `n_heads` consecutive pieces |
| Tensors.PermuteTwice | deephumor/models/transformers.py:121 | applying `permute(0, 2, 1, 3)` twice restores the tensor |
| Masks.PadMask | deephumor/models/transformers.py:10-24 | `get_pad_mask` has shape `[bs of key][query_len][key_len]` and entry `(b, i, j)` holds iff `key[b][j] == pad_index`, whatever `i` and the query's contents |
| Masks.AutoregressiveMask | deephumor/models/transformers.py:27-38 | `get_autoregressive_mask` has shape `[bs][seq_len][seq_len]` and entry `(b, i, j)` holds iff `j > i`, so no query hides itself or an earlier key |
| Attention.NewAttentionLayer | deephumor/models/transformers.py:57-72 | the constructor succeeds iff `n_heads > 0`, `n_heads` divides `hid_dim` and `dropout` lies in `[0, 1]`. It fails with `ZeroDivisionError` for `0` heads, then `AssertionError` when the heads do not divide `hid_dim`, then `ValueError` from `nn.Dropout`. On success `n_heads * head_dim == hid_dim` |
| Attention.SplitHeads | deephumor/models/transformers.py:99 | the head split has shape `[bs][n_heads][seq_len][head_dim]` and entry `(b, h, s, d)` is input entry `(b, s, h * head_dim + d)` |
| Attention.MergeHeads | deephumor/models/transformers.py:121-122 | the merge succeeds iff `bs > 0` and `hid_dim > 0` (otherwise `view` cannot infer `-1`) and gives shape `[bs][seq_len][hid_dim]` |
| Attention.ViewCount | deephumor/models/transformers.py:122 | the `-1` of `view(bs, -1, hid_dim)` on `bs * seq_len * hid_dim` entries is `seq_len` when `bs * hid_dim > 0` |
| Attention.MergeAfterSplit | deephumor/models/transformers.py:99-122 | merging the split heads gives back the `[bs][seq_len][hid_dim]` input |
| Attention.SplitAfterMerge | deephumor/models/transformers.py:99-122 | splitting the merged heads gives the heads back, and head entry `(b, h, s, d)` sits at `(b, s, h * head_dim + d)` of the merge |
| Attention.HeadMask | deephumor/models/transformers.py:108 | `mask.unsqueeze(1).repeat(1, n_heads, 1, 1)` gives every head of batch `b` the mask of batch `b` |
| Positions.PositionIndices | deephumor/models/transformers.py:287 | the positional indices have shape `[bs][seq_len]` and entry `(b, i)` is `i` |
| Positions.PositionsInRange | deephumor/models/transformers.py:287-288 | the positions fit a `max_len`-row table iff the batch is empty or `seq_len <= max_len` |
| Weights.Linear | deephumor/models/transformers.py:64-69 | defines `nn.Linear(in, out).weight` as an `out x in` matrix |
| Weights.Embedding | deephumor/models/transformers.py:249-250 | defines `nn.Embedding(n, d).weight` as an `n x d` matrix |
| Weights.InitWeights | deephumor/models/transformers.py:268-271 | `init_weights` can only fail with `ZeroDivisionError` |
| Weights.InitWeightsFails | deephumor/models/transformers.py:268-271 | `init_weights` fails exactly when one of the weight matrices is `0 x 0`, the only shape whose fans sum to zero |
| Weights.RepeatedHas | deephumor/models/transformers.py:254-257 | the weights of `n_layers` identical layers contain a given shape iff there is a layer and one layer contains it |
| Weights.EncoderWeights | deephumor/models/transformers.py:249-257 | the encoder's matrices are `2 + 6 * n_layers`: the token and positional embeddings first (249-250), then per `EncoderLayer` (182-187) `fc_q`, `fc_k`, `fc_v`, `fc_o` (64-69) and `fc_1`, `fc_2` (145-146). A shape occurs among them iff it is an embedding's or there is a layer holding it |
| Weights.DecoderWeights | deephumor/models/transformers.py:411-428 | the decoder's matrices are `3 + 10 * n_layers`: the two embeddings first (411-412), then per `DecoderLayer` (327-336) the self-attention and encoder-attention projections and `fc_1`, `fc_2`, and last the classifier `[num_tokens][hid_dim]` (428). A shape occurs among them iff it is an embedding's, the classifier's, or there is a layer holding it |
| Weights.EncoderInitFails | deephumor/models/transformers.py:249-271 | initialising the encoder's embeddings, attention projections and feed-forward layers fails iff `hid_dim == 0` and there is a layer, no tokens, or `max_len == 0` |
| Weights.DecoderInitFails | deephumor/models/transformers.py:411-436 | the same for the decoder; its classifier is `0 x 0` only when its token embedding is |
| Encoder.NewEncoder | deephumor/models/transformers.py:249-271 | the encoder builds iff `dropout` lies in `[0, 1]`, its attention layers build (or it has none), and `init_weights` meets no `0 x 0` matrix. The first failure is the `ValueError` of its own `nn.Dropout`, then the attention constructor's error, and otherwise `ZeroDivisionError`. On success it keeps `num_tokens`, `hid_dim`, `n_layers`, `pad_index` and `max_len` |
| Encoder.ForwardAsWritten | deephumor/models/transformers.py:281-297 | `forward` never returns: `IndexError` when an id or position is out of range, `AttributeError` exactly otherwise |
| Encoder.Forward | deephumor/models/transformers.py:281-302 | with `self.pad_index` read, `forward` returns iff every id and position is in range and the layer stack runs (no layers, or `bs > 0` and `hid_dim > 0`). It fails with `IndexError` when a lookup is out of range, and otherwise with `RuntimeError` from the layers' `view(bs, -1, hid_dim)` at line 122; the positions are `arange(seq_len)` in every row and are in range; a mask exists iff a pad index is set, and it hides key `j` from every query iff `x[b][j]` is the pad index |
| Encoder.AsWrittenFailsWhereCorrectedReturns | deephumor/models/transformers.py:296-302 | the written and the corrected `forward` fail with `IndexError` on the same inputs. Where the written one raises `AttributeError`, the corrected one returns or raises `RuntimeError` in the layers, and it returns whenever the layer stack runs |
| Encoder.LayerFailureIsMerge | deephumor/models/transformers.py:301-302 | once the lookups pass, the corrected `forward` with layers fails exactly when the first layer's `Attention.MergeHeads` on the batch fails, and with the same error |
| Encoder.PaddingIndexCounterexample | deephumor/models/transformers.py:296 | on `[[5, 0]]` with pad index `0` the written `forward` raises `AttributeError` while the corrected one returns positions `[[0, 1]]` and a mask hiding the second key from both queries |
| Decoder.NewDecoder | deephumor/models/transformers.py:411-436 | the decoder builds iff `dropout` lies in `[0, 1]`, its attention layers build (or it has none), and `init_weights` meets no `0 x 0` matrix. The first failure is the `ValueError` of its own `nn.Dropout`, then the attention constructor's error, and otherwise `ZeroDivisionError`. On success it keeps `num_tokens`, `hid_dim`, `n_layers`, `pad_index` and `max_len` |
| Decoder.AlignedLength | deephumor/models/transformers.py:456 | `seq_len` is at least both lengths and equal to one of them |
| Decoder.PadTokens | deephumor/models/transformers.py:457 | the padded ids have shape `[bs][width]`, hold the original id at each position before `dec_len` and the pad index after it |
| Decoder.PadEncoderOut | deephumor/models/transformers.py:458 | the padded encoder rows have shape `[bs][seq_len][hid_dim]`, keep the original rows first, and every appended entry is `zero` |
| Decoder.PrependDummy | deephumor/models/transformers.py:479-480 | with an image the ids gain one position, the dummy `1` in front and the ids shifted by one; without one nothing changes |
| Decoder.Slots | deephumor/models/transformers.py:461-465 | the embedding sequence has the image in slot `0` when given and the embedding of id `k` at `k` plus the image slot |
| Decoder.InputMask | deephumor/models/transformers.py:481-483 | the self-attention mask hides key `j` from query `i` iff the id at `j` is the pad index or `j > i` |
| Decoder.EncoderMask | deephumor/models/transformers.py:486-487 | the encoder-attention mask hides row `j` iff its count (`1` if all entries non-zero, else `0`) equals the pad index |
| Decoder.Forward | deephumor/models/transformers.py:448-492 | `forward` raises `TypeError` for a `None` pad index. Otherwise it can only fail with `IndexError` or `RuntimeError`, and it returns only when the layer stack runs. Its two masks are `[bs][seq_len][seq_len]`. What it returns is stated by the `Decoder.Forward*` lemmas below |
| Decoder.ForwardOutcome | deephumor/models/transformers.py:448-492 | `forward` raises `TypeError` for a `None` pad index. It returns iff the lookups pass and the layer stack runs. The lookups pass when every id, the pad id whenever padding is appended, and every position are in range. The layer stack runs when there are no layers, or when `bs > 0`, `hid_dim > 0` and the encoder rows are `hid_dim` wide. With a pad index set it fails with `IndexError` in the lookups, and otherwise with `RuntimeError` in the layers (line 122, or `fc_k` on the encoder rows) |
| Decoder.PaddedTokensInRange | deephumor/models/transformers.py:457-461 | the padded ids are all valid token indices iff the ids are and, when padding is appended to a non-empty batch, the pad index is |
| Decoder.ForwardShapes | deephumor/models/transformers.py:449-487 | `seq_len = max(dec_len + image, enc_len)`; the padded ids are `seq_len` minus the image slot long, and the mask ids, embedding slots, positions, encoder rows and both masks all have `seq_len` positions |
| Decoder.ForwardPadding | deephumor/models/transformers.py:457-458 | the original ids and encoder rows are prefixes of the padded ones, appended ids are the pad index and appended encoder entries are `zero` |
| Decoder.ForwardMaskIds | deephumor/models/transformers.py:479-480 | the id the masks see at `j` is the dummy `1` in the image slot, then the original id, then the pad index |
| Decoder.ForwardSlots | deephumor/models/transformers.py:461-465 | slot `j` holds the image iff an image is given and `j == 0`, and otherwise the embedding of the very id the masks see at `j` |
| Decoder.ForwardPositions | deephumor/models/transformers.py:471-472 | position `j` of every row, the image slot included, is looked up as positional index `j` |
| Decoder.ForwardInputMask | deephumor/models/transformers.py:481-483 | the self-attention mask hides key `j` from query `i` iff the id the masks see at `j` is the pad index or `j > i`, so every appended position is hidden from every query |
| Decoder.ImageSlotVisibility | deephumor/models/transformers.py:479-483 | with an image and a pad index other than `1` no query hides key `0`; with pad index `1` query `0` hides every key |
| Decoder.ForwardEncoderMask | deephumor/models/transformers.py:486-487 | an original encoder row is hidden iff its all-non-zero count equals the pad index; an appended row counts `0` (unless `hid_dim == 0`) and is hidden iff that equals the pad index |
| Decoder.PaddedEncoderRowsHidden | deephumor/models/transformers.py:458-487 | with pad index `0` and `hid_dim > 0` every appended encoder row is hidden from every query |
| Decoder.EncoderMaskQuirks | deephumor/models/transformers.py:486-487 | with pad index `0` an original encoder row with a single zero entry is hidden; with a pad index other than `0` and `1` the encoder-attention mask hides nothing |

## Left out

- Floating-point numerics are not modelled. These are the linear layers, the `/ self.scale` divisions, softmax, the `-1e8` fill, dropout, layer norm, residual sums, the position-wise feed-forward layer and the values Xavier initialisation draws. They run on PyTorch kernels.
- Attention scores and outputs are not computed, so `masked_fill` and the attention product are not modelled. The mask passed to them is modelled (`Attention.HeadMask`).
- The key transpose `permute(0, 2, 3, 1)` (line 100) is not modelled. It only feeds the score product.
- The folds over the layer stacks (lines 301-302 and 491-492) are modelled only by whether they raise. Their floating-point outputs are not modelled. They raise `RuntimeError` when `view(bs, -1, hid_dim)` at line 122 meets `bs * hid_dim == 0`, and in the decoder when `fc_k` meets encoder rows of another width. Encoder.Forward and Decoder.Forward return what the layers receive, and only when the layers do not raise.
- `TransformerDecoder.inference_step` is not modelled. It reads attributes the class never defines.
- Embedding values, `.to(device)`, autograd and `nn.Module` registration are not modelled. An embedding lookup is modelled only by its index check, which raises `IndexError`.
- Negative sizes, ids in floating-point tensors, and broadcasting beyond the shapes used here are not modelled. Sizes are `nat`.
- The layer constructors are modelled by their dropout and attention checks and by the shapes of their weight matrices. `nn.Linear` and `nn.Embedding` themselves are taken to accept any natural sizes, as PyTorch releases that skip initialising zero-element tensors do. `nn.LayerNorm` holds only vectors, which `init_weights` skips.
- `dropout` is a Dafny `real`, so a NaN rate is not modelled. PyTorch accepts NaN, because both of its range comparisons are false. The layers' own `nn.Dropout`s (lines 72, 149, 190 and 339) receive the rate the constructor's `nn.Dropout` has already accepted, so they never raise.
- Of Xavier initialisation only its division by `fan_in + fan_out` is modelled. The random values it draws are not.
- Decoder.ForwardEncoderMask: assumes that the entry `torch.zeros` fills rows with is not "non-zero". Encoder entries are abstract, so this is stated as a precondition.
- Decoder.Forward: the shape of `image_emb` is not checked. An image is a flag, and its embedding is a slot.

## Findings

| source | as written | input that shows it | evidently intended | confidence | as-written member | corrected member |
|---|---|---|---|---|---|---|
| deephumor/models/transformers.py:296 | `forward` tests `self.padding_index`, which the constructor never sets (line 246 sets `self.pad_index`), so every call that gets past the embedding lookups raises `AttributeError` | an encoder with pad index `0`, `num_tokens = 10`, `max_len = 128`, on the batch `[[5, 0]]` | test `self.pad_index`, and mask every key holding it | high, not executed | Encoder.ForwardAsWritten | Encoder.Forward |
