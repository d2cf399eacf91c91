/**
 * The shapes of the two-dimensional weights that `init_weights` visits, and the
 * one way Xavier initialisation of them can fail. `xavier_uniform_` divides by
 * `fan_in + fan_out`, the weight's two sizes, so a `0 x 0` weight raises
 * `ZeroDivisionError`; every other shape initialises.
 */
module Weights {
  import opened Outcomes

  /** The shape `[rows][cols]` of a two-dimensional weight. */
  datatype Weight = Weight(rows: nat, cols: nat)

  /** `nn.Linear(in_dim, out_dim).weight` is `[out_dim][in_dim]`. */
  function Linear(inDim: nat, outDim: nat): (w: Weight)
    ensures w.rows == outDim && w.cols == inDim
  {
    Weight(outDim, inDim)
  }

  /** `nn.Embedding(n, d).weight` is `[n][d]`. */
  function Embedding(n: nat, d: nat): (w: Weight)
    ensures w.rows == n && w.cols == d
  {
    Weight(n, d)
  }

  /** `xavier_uniform_` computes `2 / (fan_in + fan_out)`; for a matrix the fans are its two sizes. */
  predicate XavierDividesByZero(w: Weight) {
    w.cols + w.rows == 0
  }

  /** `init_weights`: the weights in module order; the first one whose initialisation divides by zero raises. */
  function InitWeights(ws: seq<Weight>): (failure: Option<PyError>)
    ensures failure.Some? ==> failure.value == ZeroDivisionError
  {
    if |ws| == 0 then None
    else if XavierDividesByZero(ws[0]) then Some(ZeroDivisionError)
    else InitWeights(ws[1..])
  }

  /** Initialisation fails exactly when some weight is `0 x 0`. */
  lemma {:induction false} InitWeightsFails(ws: seq<Weight>)
    ensures InitWeights(ws).Some? <==> Weight(0, 0) in ws
  {
    if |ws| > 0 {
      assert ws == [ws[0]] + ws[1..];
      assert XavierDividesByZero(ws[0]) <==> ws[0] == Weight(0, 0);
      InitWeightsFails(ws[1..]);
    }
  }

  /** `fc_q`, `fc_k`, `fc_v` and `fc_o` of a `MultiHeadAttentionLayer`. */
  function AttentionWeights(hidDim: nat): seq<Weight> {
    [Linear(hidDim, hidDim), Linear(hidDim, hidDim), Linear(hidDim, hidDim), Linear(hidDim, hidDim)]
  }

  /** `fc_1` and `fc_2` of a `PositionwiseFeedforwardLayer`. */
  function FeedforwardWeights(hidDim: nat, pfDim: nat): seq<Weight> {
    [Linear(hidDim, pfDim), Linear(pfDim, hidDim)]
  }

  /** An `EncoderLayer`: self-attention, then the feed-forward layer (its layer norms hold vectors only). */
  function EncoderLayerWeights(hidDim: nat, pfDim: nat): seq<Weight> {
    AttentionWeights(hidDim) + FeedforwardWeights(hidDim, pfDim)
  }

  /** A `DecoderLayer`: self-attention, encoder attention, then the feed-forward layer. */
  function DecoderLayerWeights(hidDim: nat, pfDim: nat): seq<Weight> {
    AttentionWeights(hidDim) + AttentionWeights(hidDim) + FeedforwardWeights(hidDim, pfDim)
  }

  /** The weights of `n` layers built alike, one layer after another. */
  function Repeated(ws: seq<Weight>, n: nat): (r: seq<Weight>)
    ensures |r| == n * |ws|
  {
    if n == 0 then [] else ws + Repeated(ws, n - 1)
  }

  /**
   * A `TransformerEncoder`: the token and positional embeddings, then per layer
   * the four attention projections and the two feed-forward matrices.
   */
  function EncoderWeights(numTokens: nat, hidDim: nat, nLayers: nat, pfDim: nat, maxLen: nat): (ws: seq<Weight>)
    ensures |ws| == 2 + 6 * nLayers
    ensures ws[0] == Embedding(numTokens, hidDim) && ws[1] == Embedding(maxLen, hidDim)
    ensures forall w :: w in ws <==>
      w == Embedding(numTokens, hidDim) || w == Embedding(maxLen, hidDim) ||
      (nLayers > 0 && w in EncoderLayerWeights(hidDim, pfDim))
  {
    var layers := Repeated(EncoderLayerWeights(hidDim, pfDim), nLayers);
    RepeatedHas(EncoderLayerWeights(hidDim, pfDim), nLayers);
    [Embedding(numTokens, hidDim), Embedding(maxLen, hidDim)] + layers
  }

  /**
   * A `TransformerDecoder`: the token and positional embeddings, then per layer
   * the four self-attention and four encoder-attention projections and the two
   * feed-forward matrices, then the classifier.
   */
  function DecoderWeights(numTokens: nat, hidDim: nat, nLayers: nat, pfDim: nat, maxLen: nat): (ws: seq<Weight>)
    ensures |ws| == 3 + 10 * nLayers
    ensures ws[0] == Embedding(numTokens, hidDim) && ws[1] == Embedding(maxLen, hidDim)
    ensures ws[|ws| - 1] == Linear(hidDim, numTokens)
    ensures forall w :: w in ws <==>
      w == Embedding(numTokens, hidDim) || w == Embedding(maxLen, hidDim) || w == Linear(hidDim, numTokens) ||
      (nLayers > 0 && w in DecoderLayerWeights(hidDim, pfDim))
  {
    var layers := Repeated(DecoderLayerWeights(hidDim, pfDim), nLayers);
    RepeatedHas(DecoderLayerWeights(hidDim, pfDim), nLayers);
    [Embedding(numTokens, hidDim), Embedding(maxLen, hidDim)] + layers + [Linear(hidDim, numTokens)]
  }

  /** The layers hold a weight exactly when there is a layer and one layer holds it. */
  lemma {:induction false} RepeatedHas(ws: seq<Weight>, n: nat)
    ensures forall w :: w in Repeated(ws, n) <==> n > 0 && w in ws
  {
    if n > 0 {
      RepeatedHas(ws, n - 1);
      assert Repeated(ws, n) == ws + Repeated(ws, n - 1);
    }
  }

  /**
   * Initialising an encoder fails exactly when the hidden size is `0` and some
   * matrix is then `0 x 0`: a layer's attention projections, or an embedding
   * table with no rows.
   */
  lemma EncoderInitFails(numTokens: nat, hidDim: nat, nLayers: nat, pfDim: nat, maxLen: nat)
    ensures InitWeights(EncoderWeights(numTokens, hidDim, nLayers, pfDim, maxLen)).Some? <==>
      hidDim == 0 && (nLayers > 0 || numTokens == 0 || maxLen == 0)
  {
    var layer := EncoderLayerWeights(hidDim, pfDim);
    InitWeightsFails(EncoderWeights(numTokens, hidDim, nLayers, pfDim, maxLen));
    assert Weight(0, 0) in layer <==> hidDim == 0 by {
      if hidDim == 0 {
        assert layer[0] == Weight(0, 0);
      }
    }
  }

  /** The same for a decoder: its classifier is `0 x 0` only when its token embedding is. */
  lemma DecoderInitFails(numTokens: nat, hidDim: nat, nLayers: nat, pfDim: nat, maxLen: nat)
    ensures InitWeights(DecoderWeights(numTokens, hidDim, nLayers, pfDim, maxLen)).Some? <==>
      hidDim == 0 && (nLayers > 0 || numTokens == 0 || maxLen == 0)
  {
    var layer := DecoderLayerWeights(hidDim, pfDim);
    InitWeightsFails(DecoderWeights(numTokens, hidDim, nLayers, pfDim, maxLen));
    assert Weight(0, 0) in layer <==> hidDim == 0 by {
      if hidDim == 0 {
        assert layer[0] == Weight(0, 0);
      }
    }
  }
}
