/**
 * The logit flattener: tensors as nested sequences, their row-major flattening
 * (`annotations.view(-1)`), the `(B,C,H,W) -> (B*H*W, C)` flattening of logits
 * (`permute(0, 2, 3, 1).contiguous().view(-1, C)`), and `index_select` along rows.
 *
 * An annotation tensor of shape (B,H,W) is `anno[b][i][j]`; a logit tensor of shape
 * (B,C,H,W) is `logits[b][c][i][j]`. The shape is passed beside the elements.
 */
module Flatten {
  import opened Wrappers

  /** Every row has length `w`. */
  predicate Uniform<T>(rows: seq<seq<T>>, w: nat) {
    forall r :: 0 <= r < |rows| ==> |rows[r]| == w
  }

  predicate IsTensor3<T>(t: seq<seq<seq<T>>>, d0: nat, d1: nat, d2: nat) {
    |t| == d0 && forall a :: 0 <= a < d0 ==> |t[a]| == d1 && Uniform(t[a], d2)
  }

  predicate IsTensor4<T>(t: seq<seq<seq<seq<T>>>>, d0: nat, d1: nat, d2: nat, d3: nat) {
    |t| == d0 && forall a :: 0 <= a < d0 ==> IsTensor3(t[a], d1, d2, d3)
  }

  /** Row-major concatenation of rows. */
  function Concat<T>(rows: seq<seq<T>>): seq<T> {
    if |rows| == 0 then [] else rows[0] + Concat(rows[1..])
  }

  lemma {:induction false} ConcatLength<T>(rows: seq<seq<T>>, w: nat)
    requires Uniform(rows, w)
    ensures |Concat(rows)| == |rows| * w
  {
    if |rows| > 0 {
      ConcatLength(rows[1..], w);
    }
  }

  /** Element `j` of row `r` sits at offset `r * w + j` of the concatenation. */
  lemma {:induction false} ConcatAt<T>(rows: seq<seq<T>>, w: nat, r: nat, j: nat)
    requires Uniform(rows, w) && r < |rows| && j < w
    ensures r * w + j < |Concat(rows)| && Concat(rows)[r * w + j] == rows[r][j]
  {
    if r > 0 {
      ConcatAt(rows[1..], w, r - 1, j);
      assert r * w + j == w + ((r - 1) * w + j);
    }
  }

  lemma {:induction false} ConcatSnoc<T>(rows: seq<seq<T>>, last: seq<T>)
    ensures Concat(rows + [last]) == Concat(rows) + last
  {
    if |rows| > 0 {
      assert (rows + [last])[1..] == rows[1..] + [last];
      ConcatSnoc(rows[1..], last);
    } else {
      assert rows + [last] == [last];
    }
  }

  lemma {:induction false} ConcatMember<T>(rows: seq<seq<T>>, x: T)
    requires x in Concat(rows)
    ensures exists r :: 0 <= r < |rows| && x in rows[r]
  {
    if x !in rows[0] {
      ConcatMember(rows[1..], x);
      var r :| 0 <= r < |rows[1..]| && x in rows[1..][r];
      assert x in rows[r + 1];
    }
  }

  /** The flattened images of a (B,H,W) tensor, one per batch entry. */
  function Images<T>(t: seq<seq<seq<T>>>): seq<seq<T>> {
    seq(|t|, b requires 0 <= b < |t| => Concat(t[b]))
  }

  /** `view(-1)` of a contiguous (B,H,W) tensor: batch, then row, then column. */
  function Flatten3<T>(t: seq<seq<seq<T>>>): seq<T> {
    Concat(Images(t))
  }

  /** Offset `i*W+j` within image b of size H*W is the row-major position of (b,i,j). */
  lemma PositionArith(b: nat, i: nat, j: nat, H: nat, W: nat)
    ensures b * (H * W) + (i * W + j) == (b * H + i) * W + j
  {
  }

  /** The flat position of pixel (b,i,j) is `(b*H+i)*W+j`: the row-major order. */
  lemma Flatten3At<T>(t: seq<seq<seq<T>>>, B: nat, H: nat, W: nat, b: nat, i: nat, j: nat)
    requires IsTensor3(t, B, H, W) && b < B && i < H && j < W
    ensures |Flatten3(t)| == B * H * W
    ensures (b * H + i) * W + j < |Flatten3(t)|
    ensures Flatten3(t)[(b * H + i) * W + j] == t[b][i][j]
  {
    var imgs := Images(t);
    forall a | 0 <= a < B
      ensures |imgs[a]| == H * W
    {
      ConcatLength(t[a], W);
    }
    assert Uniform(imgs, H * W);
    ConcatLength(imgs, H * W);
    assert B * (H * W) == B * H * W;
    ConcatAt(t[b], W, i, j);
    ConcatLength(t[b], W);
    ConcatAt(imgs, H * W, b, i * W + j);
    PositionArith(b, i, j, H, W);
  }

  lemma Flatten3Length<T>(t: seq<seq<seq<T>>>, B: nat, H: nat, W: nat)
    requires IsTensor3(t, B, H, W)
    ensures |Flatten3(t)| == B * H * W
  {
    var imgs := Images(t);
    forall a | 0 <= a < B
      ensures |imgs[a]| == H * W
    {
      ConcatLength(t[a], W);
    }
    ConcatLength(imgs, H * W);
    assert B * (H * W) == B * H * W;
  }

  /** Every element of the flattening is an element of the tensor. */
  lemma Flatten3Member<T>(t: seq<seq<seq<T>>>, x: T)
    requires x in Flatten3(t)
    ensures exists b, i :: 0 <= b < |t| && 0 <= i < |t[b]| && x in t[b][i]
  {
    ConcatMember(Images(t), x);
    var b :| 0 <= b < |t| && x in Images(t)[b];
    ConcatMember(t[b], x);
  }

  /** `permute(0, 2, 3, 1)`: (B,C,H,W) becomes (B,H,W,C). */
  function Permute<T>(logits: seq<seq<seq<seq<T>>>>, B: nat, C: nat, H: nat, W: nat)
    : (r: seq<seq<seq<seq<T>>>>)
    requires IsTensor4(logits, B, C, H, W)
    ensures IsTensor4(r, B, H, W, C)
    ensures forall b, i, j, c :: 0 <= b < B && 0 <= i < H && 0 <= j < W && 0 <= c < C ==>
      r[b][i][j][c] == logits[b][c][i][j]
  {
    seq(B, b requires 0 <= b < B =>
      seq(H, i requires 0 <= i < H =>
        seq(W, j requires 0 <= j < W =>
          seq(C, c requires 0 <= c < C => logits[b][c][i][j]))))
  }

  /** The channel vectors of the pixels, in row-major pixel order. */
  function Pixels<T>(logits: seq<seq<seq<seq<T>>>>, B: nat, C: nat, H: nat, W: nat): seq<seq<T>>
    requires IsTensor4(logits, B, C, H, W)
  {
    Flatten3(Permute(logits, B, C, H, W))
  }

  /** Pixel (b,i,j) is row `(b*H+i)*W+j`, and its column c is `logits[b][c][i][j]`. */
  lemma PixelsAt<T>(logits: seq<seq<seq<seq<T>>>>, B: nat, C: nat, H: nat, W: nat,
                    b: nat, i: nat, j: nat)
    requires IsTensor4(logits, B, C, H, W) && b < B && i < H && j < W
    ensures |Pixels(logits, B, C, H, W)| == B * H * W
    ensures (b * H + i) * W + j < B * H * W
    ensures |Pixels(logits, B, C, H, W)[(b * H + i) * W + j]| == C
    ensures forall c :: 0 <= c < C ==>
      Pixels(logits, B, C, H, W)[(b * H + i) * W + j][c] == logits[b][c][i][j]
  {
    var p := Permute(logits, B, C, H, W);
    assert IsTensor3(p, B, H, W);
    Flatten3At(p, B, H, W, b, i, j);
  }

  /** Every row of the flattened logits has the C channel scores. */
  lemma PixelsUniform<T>(logits: seq<seq<seq<seq<T>>>>, B: nat, C: nat, H: nat, W: nat)
    requires IsTensor4(logits, B, C, H, W)
    ensures |Pixels(logits, B, C, H, W)| == B * H * W
    ensures Uniform(Pixels(logits, B, C, H, W), C)
  {
    var p := Permute(logits, B, C, H, W);
    assert IsTensor3(p, B, H, W);
    Flatten3Length(p, B, H, W);
    forall r | 0 <= r < |Flatten3(p)|
      ensures |Flatten3(p)[r]| == C
    {
      var x := Flatten3(p)[r];
      Flatten3Member(p, x);
    }
  }

  /** Splits `s` into consecutive rows of length `n`; None when a short row would be left. */
  function Chunks<T>(s: seq<T>, n: nat): (r: Option<seq<seq<T>>>)
    requires n > 0
    ensures r.Some? ==> Uniform(r.value, n) && Concat(r.value) == s
    decreases |s|
  {
    if |s| == 0 then Some([])
    else if |s| < n then None
    else match Chunks(s[n..], n)
      case None => None
      case Some(rest) =>
        assert Concat([s[..n]] + rest) == s[..n] + Concat(rest) by {
          assert ([s[..n]] + rest)[1..] == rest;
        }
        Some([s[..n]] + rest)
  }

  lemma {:induction false} ChunksOfConcat<T>(rows: seq<seq<T>>, n: nat)
    requires n > 0 && Uniform(rows, n)
    ensures Chunks(Concat(rows), n) == Some(rows)
  {
    if |rows| > 0 {
      var s := Concat(rows);
      assert s == rows[0] + Concat(rows[1..]);
      assert s[n..] == Concat(rows[1..]);
      assert s[..n] == rows[0];
      ChunksOfConcat(rows[1..], n);
      assert [rows[0]] + rows[1..] == rows;
    }
  }

  /** Splitting into rows of `n` succeeds exactly when `n` divides the length. */
  lemma {:induction false} ChunksDefined<T>(s: seq<T>, n: nat)
    requires n > 0
    ensures Chunks(s, n).Some? <==> |s| % n == 0
    decreases |s|
  {
    if |s| >= n {
      ChunksDefined(s[n..], n);
      ModShift(|s| - n, n);
    } else if |s| > 0 {
      assert |s| / n == 0;
    }
  }

  lemma ModShift(a: nat, n: nat)
    requires n > 0
    ensures (a + n) % n == a % n
  {
    var q, r := a / n, a % n;
    var q', r' := (a + n) / n, (a + n) % n;
    var d := q' - q - 1;
    assert n * d == r - r' by {
      assert n * q' + r' == n * q + n + r;
      assert n * d == n * q' - n * q - n;
    }
  }

  /** `view(-1, n)` of a contiguous sequence of scalars. */
  function View<T>(s: seq<T>, n: nat): (r: Option<seq<seq<T>>>)
    ensures n == 0 ==> r.None?
    ensures r.Some? ==> Uniform(r.value, n) && Concat(r.value) == s
  {
    if n == 0 then None else Chunks(s, n)
  }

  /** `flatten_logits(logits, number_of_classes)`. */
  function FlattenLogits<T>(logits: seq<seq<seq<seq<T>>>>, B: nat, C: nat, H: nat, W: nat,
                            numberOfClasses: nat): (r: Option<seq<seq<T>>>)
    requires IsTensor4(logits, B, C, H, W)
    ensures numberOfClasses == 0 ==> r.None?
    ensures r.Some? ==> Uniform(r.value, numberOfClasses)
    ensures r.Some? ==> Concat(r.value) == Concat(Pixels(logits, B, C, H, W))
  {
    View(Concat(Pixels(logits, B, C, H, W)), numberOfClasses)
  }

  /**
   * `view(-1, numberOfClasses)` succeeds exactly when `numberOfClasses` is positive and divides
   * the number of logits, B*H*W*C.
   */
  lemma FlattenLogitsDefined<T>(logits: seq<seq<seq<seq<T>>>>, B: nat, C: nat, H: nat, W: nat,
                                numberOfClasses: nat)
    requires IsTensor4(logits, B, C, H, W)
    ensures FlattenLogits(logits, B, C, H, W, numberOfClasses).Some? <==>
      numberOfClasses > 0 && (B * H * W * C) % numberOfClasses == 0
  {
    PixelsUniform(logits, B, C, H, W);
    ConcatLength(Pixels(logits, B, C, H, W), C);
    if numberOfClasses > 0 {
      ChunksDefined(Concat(Pixels(logits, B, C, H, W)), numberOfClasses);
    }
  }

  /**
   * With the true class count, the flattened logits are exactly the pixels' channel
   * vectors in row-major order (`PixelsAt` gives row `(b*H+i)*W+j`).
   */
  lemma FlattenLogitsAligned<T>(logits: seq<seq<seq<seq<T>>>>, B: nat, C: nat, H: nat, W: nat)
    requires IsTensor4(logits, B, C, H, W) && C > 0
    ensures FlattenLogits(logits, B, C, H, W, C) == Some(Pixels(logits, B, C, H, W))
  {
    PixelsUniform(logits, B, C, H, W);
    ChunksOfConcat(Pixels(logits, B, C, H, W), C);
  }

  /** `torch.index_select(rows, 0, index)`; None when an index is out of range. */
  function IndexSelect<T>(rows: seq<T>, index: seq<int>): (r: Option<seq<T>>)
    ensures r.Some? <==> forall k :: 0 <= k < |index| ==> 0 <= index[k] < |rows|
    ensures r.Some? ==> |r.value| == |index|
    ensures r.Some? ==> forall k :: 0 <= k < |index| ==> r.value[k] == rows[index[k]]
  {
    if forall k :: 0 <= k < |index| ==> 0 <= index[k] < |rows| then
      Some(seq(|index|, k requires 0 <= k < |index| => rows[index[k]]))
    else
      None
  }
}
