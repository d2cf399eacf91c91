/**
 * The two mask builders of the transformer module. A mask entry that is true
 * hides key position `j` from query position `i`.
 */
module Masks {
  import opened Tensors

  /**
   * `get_pad_mask(query, key, pad_index)`: `[bs][query_len][key_len]`, true exactly
   * where the key holds `pad_index`. The batch size is the key's; of the query only
   * its length is read, so every query row of a batch sees the same key pattern.
   */
  function PadMask(query: seq<seq<int>>, queryLen: nat, key: seq<seq<int>>, keyLen: nat, padIndex: int): (m: seq<seq<seq<bool>>>)
    requires IsMatrix(query, |query|, queryLen) && IsMatrix(key, |key|, keyLen)
    ensures IsCube(m, |key|, queryLen, keyLen)
    ensures forall b, i, j :: 0 <= b < |key| && 0 <= i < queryLen && 0 <= j < keyLen ==>
      (m[b][i][j] <==> key[b][j] == padIndex)
  {
    Expand1(Unsqueeze1(EqScalar(key, padIndex)), queryLen)
  }

  /**
   * `get_autoregressive_mask(seq)`: `[bs][seq_len][seq_len]`, true exactly above the
   * diagonal, so each position sees itself and every earlier position and nothing later.
   */
  function AutoregressiveMask(tokens: seq<seq<int>>, seqLen: nat): (m: seq<seq<seq<bool>>>)
    requires IsMatrix(tokens, |tokens|, seqLen)
    ensures IsCube(m, |tokens|, seqLen, seqLen)
    ensures forall b, i, j :: 0 <= b < |tokens| && 0 <= i < seqLen && 0 <= j < seqLen ==>
      (m[b][i][j] <==> j > i)
  {
    var bs := |tokens|;
    ToBool3(Triu(Ones3(bs, seqLen, seqLen), bs, seqLen, seqLen, 1), bs, seqLen, seqLen)
  }
}
