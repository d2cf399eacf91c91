/**
 * The handful of tensor primitives that the mask and layout code is built from,
 * over nested sequences. A `[d0][d1][d2]` tensor is a `seq<seq<seq<T>>>` whose
 * shape is stated by `IsCube`; shapes are passed explicitly because a nested
 * sequence with no rows forgets the length of its rows, while a tensor does not.
 * Contiguous memory is row-major, so `view` is "flatten, then cut up again".
 */
module Tensors {
  import opened Outcomes

  // ---------------------------------------------------------------- shapes

  predicate IsMatrix<T>(m: seq<seq<T>>, rows: nat, cols: nat) {
    |m| == rows && forall i :: 0 <= i < rows ==> |m[i]| == cols
  }

  predicate IsCube<T>(t: seq<seq<seq<T>>>, d0: nat, d1: nat, d2: nat) {
    |t| == d0 && forall i :: 0 <= i < d0 ==> IsMatrix(t[i], d1, d2)
  }

  predicate Is4<T>(t: seq<seq<seq<seq<T>>>>, d0: nat, d1: nat, d2: nat, d3: nat) {
    |t| == d0 && forall i :: 0 <= i < d0 ==> IsCube(t[i], d1, d2, d3)
  }

  /** Every entry of `t` is a valid row number of an embedding table with `size` rows. */
  predicate AllIndicesIn(t: seq<seq<int>>, size: int) {
    forall i, j :: 0 <= i < |t| && 0 <= j < |t[i]| ==> 0 <= t[i][j] < size
  }

  /** `(row != 0).all()`, with "non-zero" left to the caller. */
  predicate AllOf<E>(row: seq<E>, p: E -> bool) {
    forall k :: 0 <= k < |row| ==> p(row[k])
  }

  /** `nn.Dropout(p)` raises `ValueError` unless `p` is a probability. */
  predicate IsDropoutRate(p: real) {
    0.0 <= p <= 1.0
  }

  // ------------------------------------------------------------ factories

  /** `torch.full((d0, d1), v)`; also `v * torch.ones(d0, d1)` and `torch.zeros(d0, d1, hid)`. */
  function Full2<T>(d0: nat, d1: nat, v: T): (r: seq<seq<T>>)
    ensures IsMatrix(r, d0, d1)
    ensures forall i, j :: 0 <= i < d0 && 0 <= j < d1 ==> r[i][j] == v
  {
    seq(d0, _ => seq(d1, _ => v))
  }

  /** `torch.ones([d0, d1, d2])`. */
  function Ones3(d0: nat, d1: nat, d2: nat): (r: seq<seq<seq<int>>>)
    ensures IsCube(r, d0, d1, d2)
    ensures forall b, i, j :: 0 <= b < d0 && 0 <= i < d1 && 0 <= j < d2 ==> r[b][i][j] == 1
  {
    seq(d0, _ => Full2(d1, d2, 1))
  }

  /** `torch.arange(n)`. */
  function Arange(n: nat): (r: seq<int>)
    ensures |r| == n
    ensures forall i :: 0 <= i < n ==> r[i] == i
  {
    seq(n, i => i)
  }

  /** `row.repeat(times, 1)` for a one-dimensional `row`: `times` stacked copies. */
  function Repeat<T>(row: seq<T>, times: nat): (r: seq<seq<T>>)
    ensures IsMatrix(r, times, |row|)
    ensures forall i :: 0 <= i < times ==> r[i] == row
  {
    seq(times, _ => row)
  }

  // ---------------------------------------------------- shape manipulation

  /** `torch.cat([a, b], dim=1)`: each row of `a` followed by the matching row of `b`. */
  function Cat1<T>(a: seq<seq<T>>, b: seq<seq<T>>): (r: seq<seq<T>>)
    requires |a| == |b|
    ensures |r| == |a|
    ensures forall i :: 0 <= i < |a| ==> r[i] == a[i] + b[i]
  {
    seq(|a|, i requires 0 <= i < |a| => a[i] + b[i])
  }

  /** `t.unsqueeze(1)`: a dimension of size one after the first. */
  function Unsqueeze1<T>(t: seq<T>): (r: seq<seq<T>>)
    ensures IsMatrix(r, |t|, 1)
    ensures forall i :: 0 <= i < |t| ==> r[i][0] == t[i]
  {
    seq(|t|, i requires 0 <= i < |t| => [t[i]])
  }

  /** `t.expand(d0, n, ...)` of a tensor whose second dimension has size one. */
  function Expand1<T>(t: seq<seq<T>>, n: nat): (r: seq<seq<T>>)
    requires forall i :: 0 <= i < |t| ==> |t[i]| == 1
    ensures IsMatrix(r, |t|, n)
    ensures forall i, k :: 0 <= i < |t| && 0 <= k < n ==> r[i][k] == t[i][0]
  {
    seq(|t|, i requires 0 <= i < |t| => seq(n, _ => t[i][0]))
  }

  /** `.permute(0, 2, 1, 3)`: swaps the two middle dimensions. */
  function Permute0213<T>(t: seq<seq<seq<seq<T>>>>, d0: nat, d1: nat, d2: nat, d3: nat): (r: seq<seq<seq<seq<T>>>>)
    requires Is4(t, d0, d1, d2, d3)
    ensures Is4(r, d0, d2, d1, d3)
    ensures forall a, b, c, d :: 0 <= a < d0 && 0 <= b < d1 && 0 <= c < d2 && 0 <= d < d3 ==>
      r[a][c][b][d] == t[a][b][c][d]
  {
    seq(d0, a requires 0 <= a < d0 =>
      seq(d2, c requires 0 <= c < d2 => seq(d1, b requires 0 <= b < d1 => t[a][b][c])))
  }

  // -------------------------------------------------------- elementwise

  /** `t == v`, elementwise. */
  function EqScalar(t: seq<seq<int>>, v: int): (r: seq<seq<bool>>)
    ensures |r| == |t|
    ensures forall i :: 0 <= i < |t| ==> |r[i]| == |t[i]|
    ensures forall i, j :: 0 <= i < |t| && 0 <= j < |t[i]| ==> r[i][j] == (t[i][j] == v)
  {
    seq(|t|, i requires 0 <= i < |t| => seq(|t[i]|, j requires 0 <= j < |t[i]| => t[i][j] == v))
  }

  /** `torch.triu(t, diagonal)` on a batch of matrices: entry `(i, j)` is kept when `j - i >= diagonal`, zeroed otherwise. */
  function Triu(t: seq<seq<seq<int>>>, d0: nat, d1: nat, d2: nat, diagonal: int): (r: seq<seq<seq<int>>>)
    requires IsCube(t, d0, d1, d2)
    ensures IsCube(r, d0, d1, d2)
    ensures forall b, i, j :: 0 <= b < d0 && 0 <= i < d1 && 0 <= j < d2 ==>
      r[b][i][j] == if j - i >= diagonal then t[b][i][j] else 0
  {
    seq(d0, b requires 0 <= b < d0 => seq(d1, i requires 0 <= i < d1 =>
      seq(d2, j requires 0 <= j < d2 => if j - i >= diagonal then t[b][i][j] else 0)))
  }

  /** `t.bool()`: non-zero is true. */
  function ToBool3(t: seq<seq<seq<int>>>, d0: nat, d1: nat, d2: nat): (r: seq<seq<seq<bool>>>)
    requires IsCube(t, d0, d1, d2)
    ensures IsCube(r, d0, d1, d2)
    ensures forall b, i, j :: 0 <= b < d0 && 0 <= i < d1 && 0 <= j < d2 ==> r[b][i][j] == (t[b][i][j] != 0)
  {
    seq(d0, b requires 0 <= b < d0 => seq(d1, i requires 0 <= i < d1 =>
      seq(d2, j requires 0 <= j < d2 => t[b][i][j] != 0)))
  }

  /** `a | b` on two boolean tensors of one shape. */
  function Or3(a: seq<seq<seq<bool>>>, b: seq<seq<seq<bool>>>, d0: nat, d1: nat, d2: nat): (r: seq<seq<seq<bool>>>)
    requires IsCube(a, d0, d1, d2) && IsCube(b, d0, d1, d2)
    ensures IsCube(r, d0, d1, d2)
    ensures forall x, i, j :: 0 <= x < d0 && 0 <= i < d1 && 0 <= j < d2 ==> r[x][i][j] == (a[x][i][j] || b[x][i][j])
  {
    seq(d0, x requires 0 <= x < d0 => seq(d1, i requires 0 <= i < d1 =>
      seq(d2, j requires 0 <= j < d2 => a[x][i][j] || b[x][i][j])))
  }

  /** `(t != 0).all(dim=-1)`, with "non-zero" left to the caller. */
  function AllLast<E>(t: seq<seq<seq<E>>>, d0: nat, d1: nat, d2: nat, nonZero: E -> bool): (r: seq<seq<bool>>)
    requires IsCube(t, d0, d1, d2)
    ensures IsMatrix(r, d0, d1)
    ensures forall b, j :: 0 <= b < d0 && 0 <= j < d1 ==> (r[b][j] <==> forall k :: 0 <= k < d2 ==> nonZero(t[b][j][k]))
  {
    seq(d0, b requires 0 <= b < d0 => seq(d1, j requires 0 <= j < d1 => AllOf(t[b][j], nonZero)))
  }

  /** `t.long()` of a boolean tensor: true is `1`, false is `0`. */
  function ToLong2(t: seq<seq<bool>>, d0: nat, d1: nat): (r: seq<seq<int>>)
    requires IsMatrix(t, d0, d1)
    ensures IsMatrix(r, d0, d1)
    ensures forall b, j :: 0 <= b < d0 && 0 <= j < d1 ==> r[b][j] == if t[b][j] then 1 else 0
  {
    seq(d0, b requires 0 <= b < d0 => seq(d1, j requires 0 <= j < d1 => if t[b][j] then 1 else 0))
  }

  // --------------------------------------------------- flatten and reshape

  /** The row-major position of entry `(i, j)` of a `[rows][cols]` matrix. */
  function Flat(i: nat, j: nat, rows: nat, cols: nat): (o: nat)
    requires i < rows && j < cols
    ensures o < rows * cols
  {
    MulSign(rows - i, cols);
    i * cols + j
  }

  /** The pieces of `ss`, one after another. */
  function Concat<T>(ss: seq<seq<T>>): seq<T>
  {
    if |ss| == 0 then [] else ss[0] + Concat(ss[1..])
  }

  /** `s` cut into `k` consecutive pieces of length `n`. */
  function Chunk<T>(s: seq<T>, k: nat, n: nat): (r: seq<seq<T>>)
    requires |s| == k * n
    ensures IsMatrix(r, k, n)
    decreases k
  {
    if k == 0 then [] else [s[..n]] + Chunk(s[n..], k - 1, n)
  }

  /** The row-major order of a three-dimensional tensor's entries. */
  function Flatten3<T>(t: seq<seq<seq<T>>>): seq<T>
  {
    Concat(seq(|t|, i requires 0 <= i < |t| => Concat(t[i])))
  }

  /** The row-major order of a four-dimensional tensor's entries. */
  function Flatten4<T>(t: seq<seq<seq<seq<T>>>>): seq<T>
  {
    Concat(seq(|t|, i requires 0 <= i < |t| => Flatten3(t[i])))
  }

  /** A flat row-major buffer read as a `[d0][d1][d2]` tensor. */
  function Reshape3<T>(s: seq<T>, d0: nat, d1: nat, d2: nat): (r: seq<seq<seq<T>>>)
    requires |s| == d0 * (d1 * d2)
    ensures IsCube(r, d0, d1, d2)
  {
    var rows := Chunk(s, d0, d1 * d2);
    seq(d0, i requires 0 <= i < d0 => Chunk(rows[i], d1, d2))
  }

  /** A flat row-major buffer read as a `[d0][d1][d2][d3]` tensor. */
  function Reshape4<T>(s: seq<T>, d0: nat, d1: nat, d2: nat, d3: nat): (r: seq<seq<seq<seq<T>>>>)
    requires |s| == d0 * (d1 * (d2 * d3))
    ensures Is4(r, d0, d1, d2, d3)
  {
    var blocks := Chunk(s, d0, d1 * (d2 * d3));
    seq(d0, i requires 0 <= i < d0 => Reshape3(blocks[i], d1, d2, d3))
  }

  /**
   * The size `view` gives a `-1` dimension: the element count divided by the
   * product of the other sizes, which must be non-zero and divide it exactly.
   */
  function InferDim(numel: nat, known: nat): (r: Option<nat>)
    ensures r.Some? <==> known > 0 && numel % known == 0
    ensures r.Some? ==> r.value * known == numel
  {
    if known > 0 && numel % known == 0 then Some(numel / known) else None
  }

  // ---------------------------------------------------------------- lemmas

  lemma {:induction false} ConcatLength<T>(ss: seq<seq<T>>, k: nat, n: nat)
    requires IsMatrix(ss, k, n)
    ensures |Concat(ss)| == k * n
    decreases k
  {
    if k > 0 {
      ConcatLength(ss[1..], k - 1, n);
    }
  }

  /** Cutting up and gluing back together gives the original sequence. */
  lemma {:induction false} ConcatChunk<T>(s: seq<T>, k: nat, n: nat)
    requires |s| == k * n
    ensures Concat(Chunk(s, k, n)) == s
    decreases k
  {
    if k > 0 {
      var r := Chunk(s, k, n);
      assert r[1..] == Chunk(s[n..], k - 1, n);
      ConcatChunk(s[n..], k - 1, n);
    }
  }

  /** Gluing equal-length pieces together and cutting them up again gives the pieces back. */
  lemma {:induction false} ChunkConcat<T>(ss: seq<seq<T>>, k: nat, n: nat)
    requires IsMatrix(ss, k, n)
    ensures |Concat(ss)| == k * n && Chunk(Concat(ss), k, n) == ss
    decreases k
  {
    ConcatLength(ss, k, n);
    if k > 0 {
      ChunkConcat(ss[1..], k - 1, n);
      var c := Concat(ss);
      assert c[..n] == ss[0];
      assert c[n..] == Concat(ss[1..]);
    }
  }

  /** Piece `i` of a chunking holds the entries `i * n .. i * n + n` of the source. */
  lemma {:induction false} ChunkAt<T>(s: seq<T>, k: nat, n: nat, i: nat, j: nat)
    requires |s| == k * n && i < k && j < n
    ensures Chunk(s, k, n)[i][j] == s[Flat(i, j, k, n)]
    decreases i
  {
    var r := Chunk(s, k, n);
    if i == 0 {
      assert r[0] == s[..n];
    } else {
      var rest := s[n..];
      assert r[i] == Chunk(rest, k - 1, n)[i - 1];
      ChunkAt(rest, k - 1, n, i - 1, j);
      assert Flat(i - 1, j, k - 1, n) + n == Flat(i, j, k, n);
    }
  }

  /** `ChunkAt` at every position. */
  lemma ChunkAtAll<T>(s: seq<T>, k: nat, n: nat)
    requires |s| == k * n
    ensures forall i, j :: 0 <= i < k && 0 <= j < n ==> Chunk(s, k, n)[i][j] == s[Flat(i, j, k, n)]
  {
    forall i, j | 0 <= i < k && 0 <= j < n ensures Chunk(s, k, n)[i][j] == s[Flat(i, j, k, n)] {
      ChunkAt(s, k, n, i, j);
    }
  }

  /** `view` to the shape a tensor already has changes nothing. */
  lemma Reshape3Flatten3<T>(t: seq<seq<seq<T>>>, d0: nat, d1: nat, d2: nat)
    requires IsCube(t, d0, d1, d2)
    ensures |Flatten3(t)| == d0 * (d1 * d2) && Reshape3(Flatten3(t), d0, d1, d2) == t
  {
    var rows := seq(|t|, i requires 0 <= i < |t| => Concat(t[i]));
    forall i | 0 <= i < d0 ensures |rows[i]| == d1 * d2 && Chunk(rows[i], d1, d2) == t[i] {
      ChunkConcat(t[i], d1, d2);
    }
    ChunkConcat(rows, d0, d1 * d2);
  }

  /** Flattening what a reshape produced gives back the buffer. */
  lemma Flatten3Reshape3<T>(s: seq<T>, d0: nat, d1: nat, d2: nat)
    requires |s| == d0 * (d1 * d2)
    ensures Flatten3(Reshape3(s, d0, d1, d2)) == s
  {
    var rows := Chunk(s, d0, d1 * d2);
    var t := Reshape3(s, d0, d1, d2);
    forall i | 0 <= i < d0 ensures Concat(t[i]) == rows[i] {
      ConcatChunk(rows[i], d1, d2);
    }
    assert seq(|t|, i requires 0 <= i < |t| => Concat(t[i])) == rows;
    ConcatChunk(s, d0, d1 * d2);
  }

  /** `view` to the four sizes a tensor already has changes nothing. */
  lemma Reshape4Flatten4<T>(t: seq<seq<seq<seq<T>>>>, d0: nat, d1: nat, d2: nat, d3: nat)
    requires Is4(t, d0, d1, d2, d3)
    ensures |Flatten4(t)| == d0 * (d1 * (d2 * d3)) && Reshape4(Flatten4(t), d0, d1, d2, d3) == t
  {
    var blocks := seq(|t|, i requires 0 <= i < |t| => Flatten3(t[i]));
    forall i | 0 <= i < d0
      ensures |blocks[i]| == d1 * (d2 * d3) && Reshape3(blocks[i], d1, d2, d3) == t[i]
    {
      Reshape3Flatten3(t[i], d1, d2, d3);
    }
    ChunkConcat(blocks, d0, d1 * (d2 * d3));
  }

  /** Swapping the middle dimensions twice restores the tensor. */
  lemma PermuteTwice<T>(t: seq<seq<seq<seq<T>>>>, d0: nat, d1: nat, d2: nat, d3: nat)
    requires Is4(t, d0, d1, d2, d3)
    ensures Permute0213(Permute0213(t, d0, d1, d2, d3), d0, d2, d1, d3) == t
  {
    var u := Permute0213(Permute0213(t, d0, d1, d2, d3), d0, d2, d1, d3);
    forall a, b, c | 0 <= a < d0 && 0 <= b < d1 && 0 <= c < d2 ensures u[a][b][c] == t[a][b][c] {
    }
    forall a, b | 0 <= a < d0 && 0 <= b < d1 ensures u[a][b] == t[a][b] {
    }
    forall a | 0 <= a < d0 ensures u[a] == t[a] {
    }
  }

  /** Each innermost row of `x` cut into `h` pieces of length `d`. */
  function SplitLast<T>(x: seq<seq<seq<T>>>, d0: nat, d1: nat, h: nat, d: nat): (r: seq<seq<seq<seq<T>>>>)
    requires IsCube(x, d0, d1, h * d)
    ensures Is4(r, d0, d1, h, d)
  {
    seq(d0, a requires 0 <= a < d0 => seq(d1, b requires 0 <= b < d1 => Chunk(x[a][b], h, d)))
  }

  /** Entry `(a, b, c, e)` of the split is entry `(a, b, c * d + e)` of `x`. */
  lemma SplitLastAt<T>(x: seq<seq<seq<T>>>, d0: nat, d1: nat, h: nat, d: nat)
    requires IsCube(x, d0, d1, h * d)
    ensures forall a, b, c, e :: 0 <= a < d0 && 0 <= b < d1 && 0 <= c < h && 0 <= e < d ==>
      SplitLast(x, d0, d1, h, d)[a][b][c][e] == x[a][b][Flat(c, e, h, d)]
  {
    var y := SplitLast(x, d0, d1, h, d);
    forall a, b | 0 <= a < d0 && 0 <= b < d1
      ensures forall c, e :: 0 <= c < h && 0 <= e < d ==> y[a][b][c][e] == x[a][b][Flat(c, e, h, d)]
    {
      assert y[a][b] == Chunk(x[a][b], h, d);
      ChunkAtAll(x[a][b], h, d);
    }
  }

  /** Splitting the last dimension does not move any entry in row-major order. */
  lemma FlattenSplitLast<T>(x: seq<seq<seq<T>>>, d0: nat, d1: nat, h: nat, d: nat)
    requires IsCube(x, d0, d1, h * d)
    ensures Flatten4(SplitLast(x, d0, d1, h, d)) == Flatten3(x)
  {
    var y := SplitLast(x, d0, d1, h, d);
    forall a | 0 <= a < d0 ensures Flatten3(y[a]) == Concat(x[a]) {
      forall b | 0 <= b < d1 ensures Concat(y[a][b]) == x[a][b] {
        ConcatChunk(x[a][b], h, d);
      }
      assert seq(|y[a]|, b requires 0 <= b < |y[a]| => Concat(y[a][b])) == x[a];
    }
    assert seq(|y|, a requires 0 <= a < |y| => Flatten3(y[a])) == seq(|x|, a requires 0 <= a < |x| => Concat(x[a]));
  }

  /** `view` from `[d0][d1][h * d]` to `[d0][d1][h][d]` cuts each innermost row into `h` pieces. */
  lemma ViewSplitsLast<T>(x: seq<seq<seq<T>>>, d0: nat, d1: nat, h: nat, d: nat)
    requires IsCube(x, d0, d1, h * d)
    ensures |Flatten3(x)| == d0 * (d1 * (h * d))
    ensures Reshape4(Flatten3(x), d0, d1, h, d) == SplitLast(x, d0, d1, h, d)
  {
    var y := SplitLast(x, d0, d1, h, d);
    FlattenSplitLast(x, d0, d1, h, d);
    Reshape4Flatten4(y, d0, d1, h, d);
  }

  /** A multiple of `m` divided by `m`. */
  lemma MulDivCancel(q: nat, m: nat)
    requires m > 0
    ensures (q * m) % m == 0 && (q * m) / m == q
  {
    var a := q * m;
    var d, r := a / m, a % m;
    assert (q - d) * m == r;
    MulSign(q - d, m);
  }

  /** A product with a positive factor keeps the sign of the other factor, by at least that factor. */
  lemma MulSign(k: int, m: nat)
    requires m > 0
    ensures k >= 1 ==> k * m >= m
    ensures k <= -1 ==> k * m + m <= 0
  {
    if k >= 1 {
      assert k * m == (k - 1) * m + m;
    } else if k <= -1 {
      assert k * m == (k + 1) * m - m;
    }
  }
}
