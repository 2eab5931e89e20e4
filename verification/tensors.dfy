/** Abstract tensors as nested sequences of reals, with the four
    operations the vocoder adapter applies to them: `unsqueeze(0)`,
    `transpose(2, 1)`, element-wise scaling and `view(-1)`.
    Dimensions are passed explicitly where a nested sequence cannot carry
    them (an empty outer sequence says nothing about its inner axes). */
module Tensors {

  type Tensor2 = seq<seq<real>>
  type Tensor3 = seq<seq<seq<real>>>

  /** `m` is a rectangular matrix of shape (rows, cols). */
  predicate IsMatrix(m: Tensor2, rows: nat, cols: nat)
  {
    |m| == rows && forall i :: 0 <= i < rows ==> |m[i]| == cols
  }

  /** `t` is a rectangular rank-3 tensor of shape (d0, d1, d2). */
  predicate IsCube(t: Tensor3, d0: nat, d1: nat, d2: nat)
  {
    |t| == d0 && forall b :: 0 <= b < d0 ==> IsMatrix(t[b], d1, d2)
  }

  /** `x.unsqueeze(0)`: a leading axis of size one. */
  function Unsqueeze0(m: Tensor2): Tensor3
  {
    [m]
  }

  /** `x.transpose(2, 1)` on a tensor of shape (d0, d1, d2): the last two axes
      swap places, giving shape (d0, d2, d1). */
  function Transpose21(t: Tensor3, d1: nat, d2: nat): (r: Tensor3)
    requires IsCube(t, |t|, d1, d2)
    ensures IsCube(r, |t|, d2, d1)
    ensures forall b, i, j :: 0 <= b < |t| && 0 <= i < d2 && 0 <= j < d1 ==> r[b][i][j] == t[b][j][i]
  {
    seq(|t|, b requires 0 <= b < |t| =>
      seq(d2, i requires 0 <= i < d2 =>
        seq(d1, j requires 0 <= j < d1 => t[b][j][i])))
  }

  /** `k * x`: every element multiplied by `k`, the shape unchanged. */
  function Scale(k: real, t: Tensor3): (r: Tensor3)
    ensures |r| == |t|
    ensures forall b :: 0 <= b < |t| ==> |r[b]| == |t[b]|
    ensures forall b, i :: 0 <= b < |t| && 0 <= i < |t[b]| ==> |r[b][i]| == |t[b][i]|
    ensures forall b, i, j :: 0 <= b < |t| && 0 <= i < |t[b]| && 0 <= j < |t[b][i]| ==>
      r[b][i][j] == k * t[b][i][j]
  {
    seq(|t|, b requires 0 <= b < |t| =>
      seq(|t[b]|, i requires 0 <= i < |t[b]| =>
        seq(|t[b][i]|, j requires 0 <= j < |t[b][i]| => k * t[b][i][j])))
  }

  /** Row-major concatenation of a matrix. */
  function Flatten2(m: Tensor2): seq<real>
  {
    if |m| == 0 then [] else m[0] + Flatten2(m[1..])
  }

  /** `x.view(-1)` on a rank-3 tensor: row-major concatenation of its matrices. */
  function Flatten3(t: Tensor3): seq<real>
  {
    if |t| == 0 then [] else Flatten2(t[0]) + Flatten3(t[1..])
  }

  /** (n + 1) * c == n * c + c, the one step of multiplication the layout
      proofs need. */
  lemma MulSucc(n: nat, c: nat)
    ensures (n + 1) * c == n * c + c
  {
  }

  /** Row-major position of element (i, j) in a matrix with `cols` columns. */
  function Offset2(i: nat, j: nat, cols: nat): nat
  {
    i * cols + j
  }

  /** Row-major position of element (b, i, j) in a tensor of shape (_, d1, d2). */
  function Offset3(b: nat, i: nat, j: nat, d1: nat, d2: nat): nat
  {
    b * (d1 * d2) + Offset2(i, j, d2)
  }

  /** Number of elements of a tensor of shape (d0, d1, d2). */
  function Volume(d0: nat, d1: nat, d2: nat): nat
  {
    d0 * (d1 * d2)
  }

  /** Flattening a (rows, cols) matrix yields rows * cols elements. */
  lemma {:induction false} Flatten2Length(m: Tensor2, rows: nat, cols: nat)
    requires IsMatrix(m, rows, cols)
    ensures |Flatten2(m)| == rows * cols
  {
    if rows > 0 {
      Flatten2Length(m[1..], rows - 1, cols);
      MulSucc(rows - 1, cols);
    }
  }

  /** Element (i, j) of a flattened (rows, cols) matrix sits at its row-major offset. */
  lemma {:induction false} Flatten2At(m: Tensor2, rows: nat, cols: nat, i: nat, j: nat)
    requires IsMatrix(m, rows, cols)
    requires i < rows && j < cols
    ensures Offset2(i, j, cols) < |Flatten2(m)|
    ensures Flatten2(m)[Offset2(i, j, cols)] == m[i][j]
  {
    Flatten2Length(m, rows, cols);
    if i > 0 {
      Flatten2At(m[1..], rows - 1, cols, i - 1, j);
      MulSucc(i - 1, cols);
    } else {
      MulSucc(0, cols);
    }
  }

  /** Flattening a (d0, d1, d2) tensor yields d0 * (d1 * d2) elements. */
  lemma {:induction false} Flatten3Length(t: Tensor3, d0: nat, d1: nat, d2: nat)
    requires IsCube(t, d0, d1, d2)
    ensures |Flatten3(t)| == Volume(d0, d1, d2)
  {
    if d0 > 0 {
      Flatten2Length(t[0], d1, d2);
      Flatten3Length(t[1..], d0 - 1, d1, d2);
      MulSucc(d0 - 1, d1 * d2);
    }
  }

  /** Element (b, i, j) of a flattened (d0, d1, d2) tensor sits at its
      row-major offset. */
  lemma {:induction false} Flatten3At(t: Tensor3, d0: nat, d1: nat, d2: nat, b: nat, i: nat, j: nat)
    requires IsCube(t, d0, d1, d2)
    requires b < d0 && i < d1 && j < d2
    ensures Offset3(b, i, j, d1, d2) < |Flatten3(t)|
    ensures Flatten3(t)[Offset3(b, i, j, d1, d2)] == t[b][i][j]
  {
    Flatten3Length(t, d0, d1, d2);
    Flatten2Length(t[0], d1, d2);
    if b == 0 {
      Flatten2At(t[0], d1, d2, i, j);
      MulSucc(0, d1 * d2);
    } else {
      Flatten3At(t[1..], d0 - 1, d1, d2, b - 1, i, j);
      MulSucc(b - 1, d1 * d2);
    }
  }

  /** Flattening a (d0, d1, d2) tensor yields d0 * d1 * d2 elements, and element
      (b, i, j) lands at its row-major offset: `view(-1)` is the row-major layout. */
  lemma {:induction false} Flatten3Layout(t: Tensor3, d0: nat, d1: nat, d2: nat)
    requires IsCube(t, d0, d1, d2)
    ensures |Flatten3(t)| == Volume(d0, d1, d2)
    ensures forall b, i, j :: 0 <= b < d0 && 0 <= i < d1 && 0 <= j < d2 ==>
      Offset3(b, i, j, d1, d2) < |Flatten3(t)| && Flatten3(t)[Offset3(b, i, j, d1, d2)] == t[b][i][j]
  {
    Flatten3Length(t, d0, d1, d2);
    forall b, i, j | 0 <= b < d0 && 0 <= i < d1 && 0 <= j < d2
      ensures Offset3(b, i, j, d1, d2) < |Flatten3(t)|
      ensures Flatten3(t)[Offset3(b, i, j, d1, d2)] == t[b][i][j]
    {
      Flatten3At(t, d0, d1, d2, b, i, j);
    }
  }

  /** Swapping the last two axes twice gives the tensor back. */
  lemma TransposeInvolutive(t: Tensor3, d1: nat, d2: nat)
    requires IsCube(t, |t|, d1, d2)
    ensures Transpose21(Transpose21(t, d1, d2), d2, d1) == t
  {
    var r := Transpose21(Transpose21(t, d1, d2), d2, d1);
    forall b | 0 <= b < |t| ensures r[b] == t[b] {
      forall i | 0 <= i < d1 ensures r[b][i] == t[b][i] { }
    }
  }

  /** Scaling commutes with the transpose: rescaling before or after the layout
      change gives the same tensor. */
  lemma ScaleCommutesWithTranspose(k: real, t: Tensor3, d1: nat, d2: nat)
    requires IsCube(t, |t|, d1, d2)
    ensures IsCube(Scale(k, t), |t|, d1, d2)
    ensures Scale(k, Transpose21(t, d1, d2)) == Transpose21(Scale(k, t), d1, d2)
  {
    var st := Scale(k, t);
    assert IsCube(st, |t|, d1, d2);
    var lhs := Scale(k, Transpose21(t, d1, d2));
    var rhs := Transpose21(st, d1, d2);
    forall b | 0 <= b < |t| ensures lhs[b] == rhs[b] {
      forall i | 0 <= i < d2 ensures lhs[b][i] == rhs[b][i] {
        forall j | 0 <= j < d1 ensures lhs[b][i][j] == rhs[b][i][j] { }
      }
    }
  }

  /** Scaling by one changes nothing. */
  lemma UnitScaleIsIdentity(t: Tensor3)
    ensures Scale(1.0, t) == t
  {
    var r := Scale(1.0, t);
    forall b | 0 <= b < |t| ensures r[b] == t[b] {
      forall i | 0 <= i < |t[b]| ensures r[b][i] == t[b][i] { }
    }
  }
}
