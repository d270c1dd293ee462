/** Dense real matrices and vectors: the linear-algebra substrate of the filters.
    `Vector` and `Matrix` stand for the aliases `dVector`/`dMatrix` and
    `fVector<ROW>`/`fMatrix<ROW, COL>`; a fixed size is a dimension predicate. */
module LinAlg {
  type Vector = seq<real>
  type Matrix = seq<seq<real>>

  /** A has r rows of c entries each. */
  predicate IsMatrix(A: Matrix, r: nat, c: nat) {
    |A| == r && forall i :: 0 <= i < r ==> |A[i]| == c
  }

  /** The number of columns, read off the first row (0 for an empty matrix). */
  function NCols(A: Matrix): nat {
    if |A| == 0 then 0 else |A[0]|
  }

  /** All rows have the same length. */
  predicate Rect(A: Matrix) {
    IsMatrix(A, |A|, NCols(A))
  }

  /** Two r-by-c matrices with the same entries are equal. */
  lemma MatrixExt(A: Matrix, B: Matrix, r: nat, c: nat)
    requires IsMatrix(A, r, c) && IsMatrix(B, r, c)
    requires forall i, j :: 0 <= i < r && 0 <= j < c ==> A[i][j] == B[i][j]
    ensures A == B
  {
    forall i | 0 <= i < r
      ensures A[i] == B[i]
    {
    }
  }

  // ---------------------------------------------------------------- vectors

  function Zeros(n: nat): (v: Vector)
    ensures |v| == n && forall i :: 0 <= i < n ==> v[i] == 0.0
  {
    seq(n, _ => 0.0)
  }

  function VecAdd(u: Vector, v: Vector): (w: Vector)
    requires |u| == |v|
    ensures |w| == |u| && forall i :: 0 <= i < |u| ==> w[i] == u[i] + v[i]
  {
    seq(|u|, i requires 0 <= i < |u| => u[i] + v[i])
  }

  function VecSub(u: Vector, v: Vector): (w: Vector)
    requires |u| == |v|
    ensures |w| == |u| && forall i :: 0 <= i < |u| ==> w[i] == u[i] - v[i]
  {
    seq(|u|, i requires 0 <= i < |u| => u[i] - v[i])
  }

  function VecScale(s: real, u: Vector): (w: Vector)
    ensures |w| == |u| && forall i :: 0 <= i < |u| ==> w[i] == s * u[i]
  {
    seq(|u|, i requires 0 <= i < |u| => s * u[i])
  }

  /** The unit vector of length n with its 1 at index k (all zeros when k is out of range). */
  function Unit(n: nat, k: int): (v: Vector)
    ensures |v| == n && forall i :: 0 <= i < n ==> v[i] == if i == k then 1.0 else 0.0
  {
    seq(n, i => if i == k then 1.0 else 0.0)
  }

  function Dot(u: Vector, v: Vector): real
    requires |u| == |v|
    decreases |u|
  {
    if |u| == 0 then 0.0 else u[0] * v[0] + Dot(u[1..], v[1..])
  }

  // --------------------------------------------------------------- matrices

  /** Column j of A. */
  function Col(A: Matrix, j: nat): (v: Vector)
    requires forall i :: 0 <= i < |A| ==> j < |A[i]|
    ensures |v| == |A| && forall i :: 0 <= i < |A| ==> v[i] == A[i][j]
  {
    seq(|A|, i requires 0 <= i < |A| => A[i][j])
  }

  function MatVec(A: Matrix, v: Vector): (w: Vector)
    requires IsMatrix(A, |A|, |v|)
    ensures |w| == |A| && forall i :: 0 <= i < |A| ==> w[i] == Dot(A[i], v)
  {
    seq(|A|, i requires 0 <= i < |A| => Dot(A[i], v))
  }

  function MatMul(A: Matrix, B: Matrix): (C: Matrix)
    requires IsMatrix(A, |A|, |B|) && Rect(B)
    ensures IsMatrix(C, |A|, NCols(B))
    ensures forall i, j :: 0 <= i < |A| && 0 <= j < NCols(B) ==> C[i][j] == Dot(A[i], Col(B, j))
  {
    seq(|A|, i requires 0 <= i < |A| => seq(NCols(B), j requires 0 <= j < NCols(B) => Dot(A[i], Col(B, j))))
  }

  function Transpose(A: Matrix): (T: Matrix)
    requires Rect(A)
    ensures IsMatrix(T, NCols(A), |A|)
    ensures forall i, j :: 0 <= i < NCols(A) && 0 <= j < |A| ==> T[i][j] == A[j][i]
  {
    seq(NCols(A), j requires 0 <= j < NCols(A) => Col(A, j))
  }

  function MatAdd(A: Matrix, B: Matrix): (C: Matrix)
    requires Rect(A) && IsMatrix(B, |A|, NCols(A))
    ensures IsMatrix(C, |A|, NCols(A))
    ensures forall i, j :: 0 <= i < |A| && 0 <= j < NCols(A) ==> C[i][j] == A[i][j] + B[i][j]
  {
    seq(|A|, i requires 0 <= i < |A| => VecAdd(A[i], B[i]))
  }

  function MatSub(A: Matrix, B: Matrix): (C: Matrix)
    requires Rect(A) && IsMatrix(B, |A|, NCols(A))
    ensures IsMatrix(C, |A|, NCols(A))
    ensures forall i, j :: 0 <= i < |A| && 0 <= j < NCols(A) ==> C[i][j] == A[i][j] - B[i][j]
  {
    seq(|A|, i requires 0 <= i < |A| => VecSub(A[i], B[i]))
  }

  function MatScale(s: real, A: Matrix): (C: Matrix)
    requires Rect(A)
    ensures IsMatrix(C, |A|, NCols(A))
    ensures forall i, j :: 0 <= i < |A| && 0 <= j < NCols(A) ==> C[i][j] == s * A[i][j]
  {
    seq(|A|, i requires 0 <= i < |A| => VecScale(s, A[i]))
  }

  /** The r-by-c matrix with ones on its main diagonal (Eigen's Identity(rows, cols)). */
  function RectIdentity(r: nat, c: nat): (I: Matrix)
    ensures IsMatrix(I, r, c)
    ensures forall i, j :: 0 <= i < r && 0 <= j < c ==> I[i][j] == if i == j then 1.0 else 0.0
  {
    seq(r, i => Unit(c, i))
  }

  function Identity(n: nat): (I: Matrix)
    ensures IsMatrix(I, n, n)
    ensures forall i :: 0 <= i < n ==> I[i] == Unit(n, i)
  {
    RectIdentity(n, n)
  }

  function Zero(r: nat, c: nat): (Z: Matrix)
    ensures IsMatrix(Z, r, c)
    ensures forall i :: 0 <= i < r ==> Z[i] == Zeros(c)
  {
    seq(r, _ => Zeros(c))
  }

  /** The square matrix with v on its diagonal (Eigen's asDiagonal()). */
  function Diag(v: Vector): (D: Matrix)
    ensures IsMatrix(D, |v|, |v|)
    ensures forall i, j :: 0 <= i < |v| && 0 <= j < |v| ==> D[i][j] == if i == j then v[i] else 0.0
  {
    seq(|v|, i requires 0 <= i < |v| => seq(|v|, j requires 0 <= j < |v| => if i == j then v[i] else 0.0))
  }

  /** Sum of the first k diagonal entries. */
  function DiagSum(A: Matrix, k: nat): real
    requires k <= |A| && forall i :: 0 <= i < k ==> k <= |A[i]|
  {
    if k == 0 then 0.0 else DiagSum(A, k - 1) + A[k - 1][k - 1]
  }

  function Trace(A: Matrix): real
    requires IsMatrix(A, |A|, |A|)
  {
    DiagSum(A, |A|)
  }

  predicate IsSquare(A: Matrix, n: nat) {
    IsMatrix(A, n, n)
  }

  predicate IsSymmetric(A: Matrix) {
    IsMatrix(A, |A|, |A|) && forall i, j :: 0 <= i < |A| && 0 <= j < |A| ==> A[i][j] == A[j][i]
  }

  predicate IsDiagonal(A: Matrix) {
    IsMatrix(A, |A|, |A|) && forall i, j :: 0 <= i < |A| && 0 <= j < |A| && i != j ==> A[i][j] == 0.0
  }

  predicate IsZeroMatrix(A: Matrix) {
    forall i, j :: 0 <= i < |A| && 0 <= j < |A[i]| ==> A[i][j] == 0.0
  }

  // ------------------------------------------------------------ dot product

  lemma {:induction false} DotComm(u: Vector, v: Vector)
    requires |u| == |v|
    ensures Dot(u, v) == Dot(v, u)
  {
    if |u| > 0 {
      DotComm(u[1..], v[1..]);
    }
  }

  lemma {:induction false} DotZerosRight(u: Vector)
    ensures Dot(u, Zeros(|u|)) == 0.0
  {
    if |u| > 0 {
      assert Zeros(|u|)[1..] == Zeros(|u| - 1);
      DotZerosRight(u[1..]);
    }
  }

  lemma DotZerosLeft(v: Vector)
    ensures Dot(Zeros(|v|), v) == 0.0
  {
    DotZerosRight(v);
    DotComm(Zeros(|v|), v);
  }

  lemma {:induction false} DotUnit(u: Vector, k: int)
    ensures Dot(u, Unit(|u|, k)) == if 0 <= k < |u| then u[k] else 0.0
  {
    if |u| > 0 {
      assert Unit(|u|, k)[1..] == Unit(|u| - 1, k - 1);
      DotUnit(u[1..], k - 1);
    }
  }

  lemma {:induction false} DotAddLeft(u: Vector, v: Vector, w: Vector)
    requires |u| == |v| == |w|
    ensures Dot(VecAdd(u, v), w) == Dot(u, w) + Dot(v, w)
  {
    if |u| > 0 {
      assert VecAdd(u, v)[1..] == VecAdd(u[1..], v[1..]);
      DotAddLeft(u[1..], v[1..], w[1..]);
    }
  }

  lemma {:induction false} DotScaleLeft(s: real, u: Vector, w: Vector)
    requires |u| == |w|
    ensures Dot(VecScale(s, u), w) == s * Dot(u, w)
  {
    if |u| > 0 {
      forall i | 0 <= i < |u| - 1
        ensures VecScale(s, u)[1..][i] == VecScale(s, u[1..])[i]
      {
      }
      assert VecScale(s, u)[1..] == VecScale(s, u[1..]);
      DotScaleLeft(s, u[1..], w[1..]);
      assert s * u[0] * w[0] + s * Dot(u[1..], w[1..]) == s * (u[0] * w[0] + Dot(u[1..], w[1..]));
    }
  }

  lemma {:induction false} DotSelfNonNegative(u: Vector)
    ensures Dot(u, u) >= 0.0
  {
    if |u| > 0 {
      DotSelfNonNegative(u[1..]);
      assert u[0] * u[0] >= 0.0;
    }
  }

  // ---------------------------------------------------------- associativity

  /** Row vector a times matrix B, for an explicit column count K. */
  function VecMat(a: Vector, B: Matrix, K: nat): (w: Vector)
    requires IsMatrix(B, |a|, K)
    ensures |w| == K
  {
    seq(K, k requires 0 <= k < K => Dot(a, Col(B, k)))
  }

  lemma {:induction false} DotVecMat(a: Vector, B: Matrix, c: Vector, K: nat)
    requires IsMatrix(B, |a|, K) && |c| == K
    ensures Dot(VecMat(a, B, K), c) == Dot(a, MatVec(B, c))
  {
    if |a| == 0 {
      assert VecMat(a, B, K) == Zeros(K);
      DotZerosLeft(c);
    } else {
      var a', B' := a[1..], B[1..];
      VecMatCons(a, B, K);
      DotAddLeft(VecScale(a[0], B[0]), VecMat(a', B', K), c);
      DotScaleLeft(a[0], B[0], c);
      DotVecMat(a', B', c, K);
      MatVecCons(B, c);
    }
  }

  /** a·B splits by the first row: a₀·B₀ + a'·B'. */
  lemma VecMatCons(a: Vector, B: Matrix, K: nat)
    requires IsMatrix(B, |a|, K) && |a| > 0
    ensures VecMat(a, B, K) == VecAdd(VecScale(a[0], B[0]), VecMat(a[1..], B[1..], K))
  {
    forall k | 0 <= k < K
      ensures VecMat(a, B, K)[k] == VecAdd(VecScale(a[0], B[0]), VecMat(a[1..], B[1..], K))[k]
    {
      assert Col(B, k)[1..] == Col(B[1..], k);
    }
  }

  /** B·c splits by the first row, and dotting it with a does too. */
  lemma MatVecCons(B: Matrix, c: Vector)
    requires Rect(B) && |B| > 0 && NCols(B) == |c|
    ensures MatVec(B, c)[1..] == MatVec(B[1..], c) && MatVec(B, c)[0] == Dot(B[0], c)
  {
  }


  lemma MatMulAssoc(A: Matrix, B: Matrix, C: Matrix, r: nat, k: nat, l: nat, c: nat)
    requires IsMatrix(A, r, k) && IsMatrix(B, k, l) && IsMatrix(C, l, c) && k >= 1 && l >= 1
    ensures MatMul(MatMul(A, B), C) == MatMul(A, MatMul(B, C))
  {
    var AB, BC := MatMul(A, B), MatMul(B, C);
    forall i, j | 0 <= i < r && 0 <= j < c
      ensures MatMul(AB, C)[i][j] == MatMul(A, BC)[i][j]
    {
      assert AB[i] == VecMat(A[i], B, l);
      assert Col(BC, j) == MatVec(B, Col(C, j));
      DotVecMat(A[i], B, Col(C, j), l);
    }
    MatrixExt(MatMul(AB, C), MatMul(A, BC), r, c);
  }

  lemma MatVecAssoc(A: Matrix, B: Matrix, v: Vector, r: nat, k: nat)
    requires IsMatrix(A, r, k) && IsMatrix(B, k, |v|) && k >= 1
    ensures MatVec(MatMul(A, B), v) == MatVec(A, MatVec(B, v))
  {
    var AB := MatMul(A, B);
    forall i | 0 <= i < r
      ensures MatVec(AB, v)[i] == MatVec(A, MatVec(B, v))[i]
    {
      assert AB[i] == VecMat(A[i], B, |v|);
      DotVecMat(A[i], B, v, |v|);
    }
  }

  lemma MatVecAdd(A: Matrix, u: Vector, v: Vector)
    requires |u| == |v| && IsMatrix(A, |A|, |u|)
    ensures MatVec(A, VecAdd(u, v)) == VecAdd(MatVec(A, u), MatVec(A, v))
  {
    forall i | 0 <= i < |A|
      ensures MatVec(A, VecAdd(u, v))[i] == VecAdd(MatVec(A, u), MatVec(A, v))[i]
    {
      DotComm(A[i], VecAdd(u, v));
      DotAddLeft(u, v, A[i]);
      DotComm(u, A[i]);
      DotComm(v, A[i]);
    }
  }

  // --------------------------------------------------------------- identity

  /** a + (z − a) = z. */
  lemma VecAddSubCancel(a: Vector, z: Vector)
    requires |a| == |z|
    ensures VecAdd(a, VecSub(z, a)) == z
  {
    var w := VecAdd(a, VecSub(z, a));
    assert forall i :: 0 <= i < |z| ==> w[i] == z[i];
  }

  lemma MatMulIdentityLeft(A: Matrix, r: nat, c: nat)
    requires IsMatrix(A, r, c) && r >= 1
    ensures MatMul(Identity(r), A) == A
  {
    forall i, j | 0 <= i < r && 0 <= j < c
      ensures MatMul(Identity(r), A)[i][j] == A[i][j]
    {
      DotComm(Unit(r, i), Col(A, j));
      DotUnit(Col(A, j), i);
    }
    MatrixExt(MatMul(Identity(r), A), A, r, c);
  }

  lemma MatMulIdentityRight(A: Matrix, r: nat, c: nat)
    requires IsMatrix(A, r, c) && c >= 1
    ensures MatMul(A, Identity(c)) == A
  {
    forall i, j | 0 <= i < r && 0 <= j < c
      ensures MatMul(A, Identity(c))[i][j] == A[i][j]
    {
      assert Col(Identity(c), j) == Unit(c, j);
      DotUnit(A[i], j);
    }
    MatrixExt(MatMul(A, Identity(c)), A, r, c);
  }

  lemma MatVecIdentity(v: Vector)
    ensures MatVec(Identity(|v|), v) == v
  {
    forall i | 0 <= i < |v|
      ensures MatVec(Identity(|v|), v)[i] == v[i]
    {
      DotComm(Unit(|v|, i), v);
      DotUnit(v, i);
    }
  }

  lemma MatVecZerosRight(A: Matrix, n: nat)
    requires IsMatrix(A, |A|, n)
    ensures MatVec(A, Zeros(n)) == Zeros(|A|)
  {
    forall i | 0 <= i < |A|
      ensures MatVec(A, Zeros(n))[i] == 0.0
    {
      DotZerosRight(A[i]);
    }
  }

  lemma MatVecZeroMatrix(A: Matrix, v: Vector)
    requires IsMatrix(A, |A|, |v|) && IsZeroMatrix(A)
    ensures MatVec(A, v) == Zeros(|A|)
  {
    forall i | 0 <= i < |A|
      ensures MatVec(A, v)[i] == 0.0
    {
      assert A[i] == Zeros(|v|);
      DotZerosLeft(v);
    }
  }

  lemma MatAddZeroRight(A: Matrix, r: nat, c: nat)
    requires IsMatrix(A, r, c)
    ensures MatAdd(A, Zero(r, c)) == A
  {
    if r > 0 {
      MatrixExt(MatAdd(A, Zero(r, c)), A, r, c);
    }
  }

  // -------------------------------------------------------------- transpose

  lemma TransposeTwice(A: Matrix, r: nat, c: nat)
    requires IsMatrix(A, r, c) && r >= 1 && c >= 1
    ensures Transpose(Transpose(A)) == A
  {
    MatrixExt(Transpose(Transpose(A)), A, r, c);
  }

  lemma TransposeIdentity(n: nat)
    requires n >= 1
    ensures Transpose(Identity(n)) == Identity(n)
  {
    forall i | 0 <= i < n
      ensures Transpose(Identity(n))[i] == Identity(n)[i]
    {
    }
  }

  lemma TransposeMul(A: Matrix, B: Matrix, r: nat, k: nat, c: nat)
    requires IsMatrix(A, r, k) && IsMatrix(B, k, c) && r >= 1 && k >= 1 && c >= 1
    ensures Transpose(MatMul(A, B)) == MatMul(Transpose(B), Transpose(A))
  {
    var AB, Bt, At := MatMul(A, B), Transpose(B), Transpose(A);
    forall i, j | 0 <= i < c && 0 <= j < r
      ensures Transpose(AB)[i][j] == MatMul(Bt, At)[i][j]
    {
      assert Bt[i] == Col(B, i);
      assert Col(At, j) == A[j];
      DotComm(A[j], Col(B, i));
    }
    MatrixExt(Transpose(AB), MatMul(Bt, At), c, r);
  }

  lemma TransposeAdd(A: Matrix, B: Matrix, r: nat, c: nat)
    requires IsMatrix(A, r, c) && IsMatrix(B, r, c) && r >= 1 && c >= 1
    ensures Transpose(MatAdd(A, B)) == MatAdd(Transpose(A), Transpose(B))
  {
    MatrixExt(Transpose(MatAdd(A, B)), MatAdd(Transpose(A), Transpose(B)), c, r);
  }

  lemma SymmetricIsTransposeFixed(A: Matrix)
    requires |A| >= 1
    ensures IsSymmetric(A) <==> IsMatrix(A, |A|, |A|) && Transpose(A) == A
  {
    if IsMatrix(A, |A|, |A|) && Transpose(A) == A {
      forall i, j | 0 <= i < |A| && 0 <= j < |A|
        ensures A[i][j] == A[j][i]
      {
        assert Transpose(A)[i][j] == A[j][i];
      }
    }
    if IsSymmetric(A) {
      MatrixExt(Transpose(A), A, |A|, |A|);
    }
  }

  // ------------------------------------------------------------------ trace

  lemma {:induction false} DiagSumAdd(A: Matrix, B: Matrix, n: nat, k: nat)
    requires IsMatrix(A, n, n) && IsMatrix(B, n, n) && k <= n
    ensures DiagSum(MatAdd(A, B), k) == DiagSum(A, k) + DiagSum(B, k)
  {
    if k > 0 {
      DiagSumAdd(A, B, n, k - 1);
    }
  }

  lemma TraceAdd(A: Matrix, B: Matrix, n: nat)
    requires IsMatrix(A, n, n) && IsMatrix(B, n, n)
    ensures Trace(MatAdd(A, B)) == Trace(A) + Trace(B)
  {
    DiagSumAdd(A, B, n, n);
  }

  // ---------------------------------------------------------------- inverse

  /** X is a two-sided inverse of the square matrix A. */
  predicate IsInverse(A: Matrix, X: Matrix) {
    |A| >= 1 && IsMatrix(A, |A|, |A|) && IsMatrix(X, |A|, |A|) &&
    MatMul(A, X) == Identity(|A|) && MatMul(X, A) == Identity(|A|)
  }

  ghost predicate Invertible(A: Matrix) {
    exists X :: IsInverse(A, X)
  }

  lemma InverseUnique(A: Matrix)
    ensures forall X, Y :: IsInverse(A, X) && IsInverse(A, Y) ==> X == Y
  {
    forall X, Y | IsInverse(A, X) && IsInverse(A, Y)
      ensures X == Y
    {
      var n := |A|;
      calc {
        X;
        { MatMulIdentityRight(X, n, n); }
        MatMul(X, Identity(n));
        MatMul(X, MatMul(A, Y));
        { MatMulAssoc(X, A, Y, n, n, n, n); }
        MatMul(MatMul(X, A), Y);
        MatMul(Identity(n), Y);
        { MatMulIdentityLeft(Y, n, n); }
        Y;
      }
    }
  }

  /** The inverse of an invertible matrix. It stands for the decomposition the
      sources use (Eigen's LDLT, numpy's inv); only its defining property is modelled. */
  function Inverse(A: Matrix): (X: Matrix)
    requires Invertible(A)
    ensures IsInverse(A, X)
  {
    InverseUnique(A);
    var X :| IsInverse(A, X);
    X
  }

  lemma InverseTranspose(A: Matrix)
    requires Invertible(A)
    ensures Invertible(Transpose(A)) && Inverse(Transpose(A)) == Transpose(Inverse(A))
  {
    var n, X := |A|, Inverse(A);
    var At, Xt := Transpose(A), Transpose(X);
    TransposeMul(X, A, n, n, n);
    TransposeMul(A, X, n, n, n);
    TransposeIdentity(n);
    assert IsInverse(At, Xt);
    InverseUnique(At);
  }

  /** The solution X of A·X = B (Eigen's `A.ldlt().solve(B)`). */
  function Solve(A: Matrix, B: Matrix): (X: Matrix)
    requires Invertible(A) && Rect(B) && |B| == |A|
    ensures IsMatrix(X, |A|, NCols(B)) && MatMul(A, X) == B
  {
    var n := |A|;
    var X := MatMul(Inverse(A), B);
    MatMulAssoc(A, Inverse(A), B, n, n, n, NCols(B));
    MatMulIdentityLeft(B, n, NCols(B));
    X
  }

  /** The solution x of A·x = b for a vector right-hand side. */
  function SolveVec(A: Matrix, b: Vector): (x: Vector)
    requires Invertible(A) && |b| == |A|
    ensures |x| == |A| && MatVec(A, x) == b
  {
    var n := |A|;
    var x := MatVec(Inverse(A), b);
    MatVecAssoc(A, Inverse(A), b, n, n);
    MatVecIdentity(b);
    x
  }

  lemma SolveUnique(A: Matrix, B: Matrix, Y: Matrix)
    requires Invertible(A) && Rect(B) && |B| == |A| && IsMatrix(Y, |A|, NCols(B)) && MatMul(A, Y) == B
    ensures Y == Solve(A, B)
  {
    var n, X := |A|, Inverse(A);
    calc {
      Y;
      { MatMulIdentityLeft(Y, n, NCols(B)); }
      MatMul(Identity(n), Y);
      MatMul(MatMul(X, A), Y);
      { MatMulAssoc(X, A, Y, n, n, n, NCols(B)); }
      MatMul(X, MatMul(A, Y));
    }
  }

  lemma SolveVecUnique(A: Matrix, b: Vector, y: Vector)
    requires Invertible(A) && |b| == |A| && |y| == |A| && MatVec(A, y) == b
    ensures y == SolveVec(A, b)
  {
    var n, X := |A|, Inverse(A);
    calc {
      y;
      { MatVecIdentity(y); }
      MatVec(Identity(n), y);
      MatVec(MatMul(X, A), y);
      { MatVecAssoc(X, A, y, n, n); }
      MatVec(X, MatVec(A, y));
    }
  }

  /** The inverse of a symmetric matrix is symmetric. */
  lemma InverseSymmetric(A: Matrix)
    requires Invertible(A) && IsSymmetric(A)
    ensures IsSymmetric(Inverse(A))
  {
    SymmetricIsTransposeFixed(A);
    InverseTranspose(A);
    SymmetricIsTransposeFixed(Inverse(A));
  }

  /** A·P·Aᵀ is symmetric whenever P is. */
  lemma CongruenceSymmetric(A: Matrix, P: Matrix, r: nat, n: nat)
    requires r >= 1 && n >= 1 && IsMatrix(A, r, n) && IsSymmetric(P) && |P| == n
    ensures IsSymmetric(MatMul(MatMul(A, P), Transpose(A)))
  {
    var At := Transpose(A);
    var AP := MatMul(A, P);
    var B := MatMul(AP, At);
    SymmetricIsTransposeFixed(P);
    calc {
      Transpose(B);
      { TransposeMul(AP, At, r, n, r); }
      MatMul(Transpose(At), Transpose(AP));
      { TransposeTwice(A, r, n); TransposeMul(A, P, r, n, n); }
      MatMul(A, MatMul(P, At));
      { MatMulAssoc(A, P, At, r, n, n, r); }
      B;
    }
    SymmetricIsTransposeFixed(B);
  }

  /** Sums and differences of symmetric matrices are symmetric. */
  lemma SymmetricAddSub(A: Matrix, B: Matrix)
    requires IsSymmetric(A) && IsSymmetric(B) && |A| == |B|
    ensures IsSymmetric(MatAdd(A, B)) && IsSymmetric(MatSub(A, B))
  {
  }

  lemma DotSingleton(u: Vector, v: Vector)
    requires |u| == 1 && |v| == 1
    ensures Dot(u, v) == u[0] * v[0]
  {
    assert Dot(u[1..], v[1..]) == 0.0;
  }

  /** A 1-by-1 matrix is determined by its one entry. */
  lemma OneByOne(A: Matrix)
    requires IsMatrix(A, 1, 1)
    ensures A == [[A[0][0]]]
  {
    MatrixExt(A, [[A[0][0]]], 1, 1);
  }

  /** Peels the entry at index k off a suffix dot product. */
  lemma DotSuffix(u: Vector, v: Vector, k: nat)
    requires |u| == |v| && k < |u|
    ensures Dot(u[k..], v[k..]) == u[k] * v[k] + Dot(u[k + 1..], v[k + 1..])
  {
    assert u[k..][1..] == u[k + 1..];
    assert v[k..][1..] == v[k + 1..];
  }

  /** Dot products of length 3 and 6 written out. */
  lemma Dot3(u: Vector, v: Vector)
    requires |u| == 3 && |v| == 3
    ensures Dot(u, v) == u[0] * v[0] + u[1] * v[1] + u[2] * v[2]
  {
    assert u[0..] == u && v[0..] == v;
    DotSuffix(u, v, 0);
    DotSuffix(u, v, 1);
    DotSuffix(u, v, 2);
  }

  lemma Dot6(u: Vector, v: Vector)
    requires |u| == 6 && |v| == 6
    ensures Dot(u, v) == u[0] * v[0] + u[1] * v[1] + u[2] * v[2] + u[3] * v[3] + u[4] * v[4] + u[5] * v[5]
  {
    assert u == u[..3] + u[3..] && v == v[..3] + v[3..];
    DotConcat(u[..3], v[..3], u[3..], v[3..]);
    Dot3(u[..3], v[..3]);
    Dot3(u[3..], v[3..]);
  }

  /** The dot product of concatenations is the sum of the parts' dot products. */
  lemma {:induction false} DotConcat(a: Vector, b: Vector, c: Vector, d: Vector)
    requires |a| == |b| && |c| == |d|
    ensures Dot(a + c, b + d) == Dot(a, b) + Dot(c, d)
    decreases |a|
  {
    if |a| == 0 {
      assert a + c == c && b + d == d;
    } else {
      assert (a + c)[1..] == a[1..] + c && (b + d)[1..] == b[1..] + d;
      DotConcat(a[1..], b[1..], c, d);
    }
  }
}
