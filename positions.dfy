/** The positional indices that both stacks look up in their positional embedding tables. */
module Positions {
  import opened Tensors

  /** `torch.arange(seq_len).repeat(bs, 1)`: every row is `0, 1, ..., seq_len - 1`. */
  function PositionIndices(bs: nat, seqLen: nat): (r: seq<seq<int>>)
    ensures IsMatrix(r, bs, seqLen)
    ensures forall b, i :: 0 <= b < bs && 0 <= i < seqLen ==> r[b][i] == i
  {
    Repeat(Arange(seqLen), bs)
  }

  /**
   * Looking the positions up in a table of `max_len` rows stays in range exactly
   * when the batch is empty (nothing is looked up) or `seq_len <= max_len`.
   */
  lemma PositionsInRange(bs: nat, seqLen: nat, maxLen: nat)
    ensures AllIndicesIn(PositionIndices(bs, seqLen), maxLen) <==> bs == 0 || seqLen <= maxLen
  {
    var r := PositionIndices(bs, seqLen);
    if bs > 0 && seqLen > maxLen {
      assert r[0][maxLen] == maxLen;
    }
  }
}
