/** The linear Kalman-filter recursion as pure functions on values. Both C++
    filter classes and the Python prototype evaluate exactly these formulas;
    the classes' methods are specified by them and the lemmas below state what
    the recursion guarantees. */
module Kalman {
  import opened LinAlg

  /** F is n×n, G is n×m, H is p×n and Q is n×n, all dimensions at least one. */
  predicate ModelShapes(F: Matrix, G: Matrix, H: Matrix, Q: Matrix, n: nat, m: nat, p: nat) {
    n >= 1 && m >= 1 && p >= 1 &&
    IsMatrix(F, n, n) && IsMatrix(G, n, m) && IsMatrix(H, p, n) && IsMatrix(Q, n, n)
  }

  // ------------------------------------------------------------ time update

  /** x̂ ← F·x̂ (predict without input). */
  function PredictState(F: Matrix, x: Vector): (r: Vector)
    requires IsMatrix(F, |x|, |x|)
    ensures |r| == |x|
  {
    MatVec(F, x)
  }

  /** x̂ ← F·x̂ + G·u (predict with input u). */
  function PredictStateInput(F: Matrix, G: Matrix, x: Vector, u: Vector): (r: Vector)
    requires IsMatrix(F, |x|, |x|) && IsMatrix(G, |x|, |u|)
    ensures |r| == |x|
  {
    VecAdd(MatVec(F, x), MatVec(G, u))
  }

  /** P ← F·P·Fᵀ + Q. */
  function PredictCov(F: Matrix, P: Matrix, Q: Matrix): (r: Matrix)
    requires |F| >= 1 && IsMatrix(F, |F|, |F|) && IsMatrix(P, |F|, |F|) && IsMatrix(Q, |F|, |F|)
    ensures IsMatrix(r, |F|, |F|)
  {
    MatAdd(MatMul(MatMul(F, P), Transpose(F)), Q)
  }

  // ----------------------------------------------------- measurement update

  /** Shapes for a correction: P is n×n, H is p×n, R is p×p, n, p >= 1. */
  predicate CorrectShapes(H: Matrix, P: Matrix, R: Matrix) {
    |P| >= 1 && |H| >= 1 && IsMatrix(P, |P|, |P|) && IsMatrix(H, |H|, |P|) && IsMatrix(R, |H|, |H|)
  }

  /** Σ = H·P·Hᵀ + R. */
  function InnovationCov(H: Matrix, P: Matrix, R: Matrix): (S: Matrix)
    requires CorrectShapes(H, P, R)
    ensures IsMatrix(S, |H|, |H|)
  {
    MatAdd(MatMul(MatMul(H, P), Transpose(H)), R)
  }

  /** The gain can be computed: Σᵀ is invertible. */
  ghost predicate GainDefined(H: Matrix, P: Matrix, R: Matrix) {
    CorrectShapes(H, P, R) && Invertible(Transpose(InnovationCov(H, P, R)))
  }

  /** The Kalman gain K, computed as the C++ filters do: by solving
      Σᵀ·Kᵀ = H·Pᵀ and transposing the solution. */
  function Gain(H: Matrix, P: Matrix, R: Matrix): (K: Matrix)
    requires GainDefined(H, P, R)
    ensures IsMatrix(K, |P|, |H|)
    ensures MatMul(Transpose(InnovationCov(H, P, R)), Transpose(K)) == MatMul(H, Transpose(P))
  {
    var St := Transpose(InnovationCov(H, P, R));
    var X := Solve(St, MatMul(H, Transpose(P)));
    TransposeTwice(X, |H|, |P|);
    Transpose(X)
  }

  /** x̂ ← x̂ + K·(z − H·x̂). */
  function CorrectState(x: Vector, K: Matrix, H: Matrix, z: Vector): (r: Vector)
    requires IsMatrix(H, |z|, |x|) && IsMatrix(K, |x|, |z|)
    ensures |r| == |x|
  {
    VecAdd(x, MatVec(K, VecSub(z, MatVec(H, x))))
  }

  /** P ← P − K·H·P. */
  function CorrectCov(P: Matrix, K: Matrix, H: Matrix): (r: Matrix)
    requires |P| >= 1 && |H| >= 1 && IsMatrix(P, |P|, |P|) && IsMatrix(H, |H|, |P|) && IsMatrix(K, |P|, |H|)
    ensures IsMatrix(r, |P|, |P|)
  {
    MatSub(P, MatMul(MatMul(K, H), P))
  }

  // ------------------------------------------------------------- properties

  /** predict(0) is predict(): G·0 contributes nothing. */
  lemma PredictZeroInput(F: Matrix, G: Matrix, x: Vector, m: nat)
    requires IsMatrix(F, |x|, |x|) && IsMatrix(G, |x|, m)
    ensures PredictStateInput(F, G, x, Zeros(m)) == PredictState(F, x)
  {
    MatVecZerosRight(G, m);
  }

  /** With F = I a prediction leaves the state where it is. */
  lemma PredictIdentityState(x: Vector)
    ensures PredictState(Identity(|x|), x) == x
  {
    MatVecIdentity(x);
  }

  /** With F = I the predicted covariance is P + Q. */
  lemma PredictIdentityCov(P: Matrix, Q: Matrix, n: nat)
    requires n >= 1 && IsMatrix(P, n, n) && IsMatrix(Q, n, n)
    ensures PredictCov(Identity(n), P, Q) == MatAdd(P, Q)
  {
    MatMulIdentityLeft(P, n, n);
    TransposeIdentity(n);
    MatMulIdentityRight(P, n, n);
  }

  /** With F = I and Q = 0 a prediction leaves the covariance unchanged. */
  lemma PredictIdentityNoNoise(P: Matrix, n: nat)
    requires n >= 1 && IsMatrix(P, n, n)
    ensures PredictCov(Identity(n), P, Zero(n, n)) == P
  {
    PredictIdentityCov(P, Zero(n, n), n);
    MatrixExt(MatAdd(P, Zero(n, n)), P, n, n);
  }

  /** With F = I a prediction raises trace(P) by exactly trace(Q). */
  lemma PredictIdentityTrace(P: Matrix, Q: Matrix, n: nat)
    requires n >= 1 && IsMatrix(P, n, n) && IsMatrix(Q, n, n)
    ensures Trace(PredictCov(Identity(n), P, Q)) == Trace(P) + Trace(Q)
  {
    PredictIdentityCov(P, Q, n);
    TraceAdd(P, Q, n);
  }

  /** The symmetric part of the covariance invariant survives the time update, for any F. */
  lemma PredictCovSymmetric(F: Matrix, P: Matrix, Q: Matrix)
    requires |F| >= 1 && IsMatrix(F, |F|, |F|) && IsMatrix(P, |F|, |F|) && IsMatrix(Q, |F|, |F|)
    requires IsSymmetric(P) && IsSymmetric(Q)
    ensures IsSymmetric(PredictCov(F, P, Q))
  {
    CongruenceSymmetric(F, P, |F|, |F|);
    SymmetricAddSub(MatMul(MatMul(F, P), Transpose(F)), Q);
  }

  /** Σ is symmetric when P and R are. */
  lemma InnovationCovSymmetric(H: Matrix, P: Matrix, R: Matrix)
    requires CorrectShapes(H, P, R) && IsSymmetric(P) && IsSymmetric(R)
    ensures IsSymmetric(InnovationCov(H, P, R))
  {
    CongruenceSymmetric(H, P, |H|, |P|);
    SymmetricAddSub(MatMul(MatMul(H, P), Transpose(H)), R);
  }

  /** The measurement update keeps P symmetric: K·H·P = (P·Hᵀ)·Σ⁻¹·(P·Hᵀ)ᵀ. */
  lemma CorrectCovSymmetric(H: Matrix, P: Matrix, R: Matrix)
    requires GainDefined(H, P, R) && IsSymmetric(P) && IsSymmetric(R)
    ensures IsSymmetric(CorrectCov(P, Gain(H, P, R), H))
  {
    var n, p := |P|, |H|;
    var S := InnovationCov(H, P, R);
    GainClosedForm(H, P, R);
    InnovationCovSymmetric(H, P, R);
    InverseSymmetric(S);
    var Si := Inverse(S);
    var A := MatMul(P, Transpose(H));
    var K := Gain(H, P, R);
    SymmetricIsTransposeFixed(P);
    calc {
      MatMul(MatMul(K, H), P);
      MatMul(MatMul(MatMul(A, Si), H), P);
      { MatMulAssoc(MatMul(A, Si), H, P, n, p, n, n); }
      MatMul(MatMul(A, Si), MatMul(H, P));
      { TransposeMul(P, Transpose(H), n, n, p); TransposeTwice(H, p, n); }
      MatMul(MatMul(A, Si), Transpose(A));
    }
    CongruenceSymmetric(A, Si, n, p);
    SymmetricAddSub(P, MatMul(MatMul(K, H), P));
  }

  /** A measurement equal to the predicted one (zero innovation) leaves x̂ unchanged. */
  lemma CorrectZeroInnovation(x: Vector, K: Matrix, H: Matrix, z: Vector)
    requires IsMatrix(H, |z|, |x|) && IsMatrix(K, |x|, |z|)
    requires z == MatVec(H, x)
    ensures CorrectState(x, K, H, z) == x
  {
    assert VecSub(z, MatVec(H, x)) == Zeros(|z|);
    MatVecZerosRight(K, |z|);
  }

  /** The gain equals the textbook form K = P·Hᵀ·Σ⁻¹ (the Python prototype's formula). */
  lemma GainClosedForm(H: Matrix, P: Matrix, R: Matrix)
    requires GainDefined(H, P, R)
    ensures Invertible(InnovationCov(H, P, R))
    ensures Gain(H, P, R) == MatMul(MatMul(P, Transpose(H)), Inverse(InnovationCov(H, P, R)))
  {
    var n, p := |P|, |H|;
    var S := InnovationCov(H, P, R);
    var St := Transpose(S);
    var Pt := Transpose(P);
    InverseTranspose(St);
    TransposeTwice(S, p, p);
    TransposeTwice(Inverse(St), p, p);
    var Si := Inverse(S);
    assert Inverse(St) == Transpose(Si);
    calc {
      Gain(H, P, R);
      Transpose(Solve(St, MatMul(H, Pt)));
      Transpose(MatMul(Inverse(St), MatMul(H, Pt)));
      Transpose(MatMul(Transpose(Si), MatMul(H, Pt)));
      { TransposeMul(Transpose(Si), MatMul(H, Pt), p, p, n); }
      MatMul(Transpose(MatMul(H, Pt)), Transpose(Transpose(Si)));
      { TransposeTwice(Si, p, p); }
      MatMul(Transpose(MatMul(H, Pt)), Si);
      { TransposeMul(H, Pt, p, n, n); TransposeTwice(P, n, n); }
      MatMul(MatMul(P, Transpose(H)), Si);
    }
  }

  /** With R = 0 the gain is a right inverse of H: H·K = I. */
  lemma GainRightInverseExact(H: Matrix, P: Matrix)
    requires GainDefined(H, P, Zero(|H|, |H|))
    ensures MatMul(H, Gain(H, P, Zero(|H|, |H|))) == Identity(|H|)
  {
    var n, p := |P|, |H|;
    var R := Zero(p, p);
    var S := InnovationCov(H, P, R);
    GainClosedForm(H, P, R);
    var Si := Inverse(S);
    var Ht := Transpose(H);
    MatAddZeroRight(MatMul(MatMul(H, P), Ht), p, p);
    calc {
      MatMul(H, Gain(H, P, R));
      MatMul(H, MatMul(MatMul(P, Ht), Si));
      { MatMulAssoc(H, MatMul(P, Ht), Si, p, n, p, p); }
      MatMul(MatMul(H, MatMul(P, Ht)), Si);
      { MatMulAssoc(H, P, Ht, p, n, n, p); }
      MatMul(S, Si);
    }
  }

  /** With R = 0 the corrected state reproduces the measurement exactly:
      H·x̂' = z, so x̂' = H⁻¹·z when H is invertible. */
  lemma CorrectExactMeasurement(x: Vector, P: Matrix, H: Matrix, z: Vector)
    requires GainDefined(H, P, Zero(|H|, |H|)) && |x| == |P| && |z| == |H|
    ensures MatVec(H, CorrectState(x, Gain(H, P, Zero(|H|, |H|)), H, z)) == z
    ensures Invertible(H) ==> CorrectState(x, Gain(H, P, Zero(|H|, |H|)), H, z) == SolveVec(H, z)
  {
    var n, p := |P|, |H|;
    var K := Gain(H, P, Zero(p, p));
    GainRightInverseExact(H, P);
    var e := VecSub(z, MatVec(H, x));
    var x' := CorrectState(x, K, H, z);
    MatVecAdd(H, x, MatVec(K, e));
    MatVecAssoc(H, K, e, p, n);
    MatVecIdentity(e);
    assert MatVec(H, x') == VecAdd(MatVec(H, x), e);
    VecAddSubCancel(MatVec(H, x), z);
    if Invertible(H) {
      SolveVecUnique(H, z, x');
    }
  }

  // The scalar system F = H = 1, Q = 0.01, R = 0.25 from x̂ = 0, P = 1: one
  // predict-then-correct cycle gives the closed-form scalar update
  // P⁻ = 1.01, K = 1.01/1.26, x̂ = K·z and P = (1 − K)·1.01.

  lemma ScalarPredict()
    ensures PredictState([[1.0]], [0.0]) == [0.0]
    ensures PredictCov([[1.0]], [[1.0]], [[0.01]]) == [[1.01]]
  {
    var one: Matrix := [[1.0]];
    DotSingleton([1.0], [0.0]);
    OneByOne(Transpose(one));
    DotSingleton([1.0], Col(one, 0));
    OneByOne(MatMul(one, one));
    OneByOne(PredictCov(one, one, [[0.01]]));
  }

  lemma ScalarInnovation()
    ensures InnovationCov([[1.0]], [[1.01]], [[0.25]]) == [[1.26]]
    ensures IsInverse([[1.26]], [[1.0 / 1.26]])
  {
    var one: Matrix := [[1.0]];
    var P0: Matrix := [[1.01]];
    OneByOne(Transpose(one));
    DotSingleton([1.0], Col(P0, 0));
    OneByOne(MatMul(one, P0));
    DotSingleton([1.01], Col(one, 0));
    OneByOne(MatMul(P0, one));
    OneByOne(InnovationCov(one, P0, [[0.25]]));
    var S: Matrix := [[1.26]];
    var Si: Matrix := [[1.0 / 1.26]];
    DotSingleton([1.26], Col(Si, 0));
    DotSingleton([1.0 / 1.26], Col(S, 0));
    OneByOne(MatMul(S, Si));
    OneByOne(MatMul(Si, S));
    OneByOne(Identity(1));
  }

  lemma ScalarGain()
    ensures GainDefined([[1.0]], [[1.01]], [[0.25]])
    ensures Gain([[1.0]], [[1.01]], [[0.25]]) == [[1.01 / 1.26]]
  {
    var one: Matrix := [[1.0]];
    var P0: Matrix := [[1.01]];
    var S: Matrix := [[1.26]];
    var Si: Matrix := [[1.0 / 1.26]];
    ScalarInnovation();
    OneByOne(Transpose(S));
    assert IsInverse(Transpose(S), Si);
    GainClosedForm(one, P0, [[0.25]]);
    InverseUnique(S);
    assert Inverse(S) == Si;
    var PHt := MatMul(P0, Transpose(one));
    ScalarProduct(P0, Transpose(one));
    ScalarProduct(PHt, Si);
  }

  /** The product of two 1-by-1 matrices. */
  lemma ScalarProduct(A: Matrix, B: Matrix)
    requires IsMatrix(A, 1, 1) && IsMatrix(B, 1, 1)
    ensures MatMul(A, B) == [[A[0][0] * B[0][0]]]
  {
    var C := MatMul(A, B);
    DotSingleton(A[0], Col(B, 0));
    assert Col(B, 0)[0] == B[0][0];
    assert C[0][0] == Dot(A[0], Col(B, 0)) == A[0][0] * B[0][0];
    OneByOne(C);
  }


  lemma ScalarCorrect(z: real)
    ensures CorrectState([0.0], [[1.01 / 1.26]], [[1.0]], [z]) == [1.01 / 1.26 * z]
    ensures CorrectCov([[1.01]], [[1.01 / 1.26]], [[1.0]]) == [[(1.0 - 1.01 / 1.26) * 1.01]]
  {
    var one: Matrix := [[1.0]];
    var P0: Matrix := [[1.01]];
    var K: Matrix := [[1.01 / 1.26]];
    DotSingleton([1.0], [0.0]);
    DotSingleton(K[0], [z]);
    assert VecSub([z], MatVec(one, [0.0])) == [z];
    DotSingleton(K[0], Col(one, 0));
    OneByOne(MatMul(K, one));
    DotSingleton(K[0], Col(P0, 0));
    OneByOne(MatMul(K, P0));
    OneByOne(CorrectCov(P0, K, one));
  }

  // ------------------------------------------------ the filter as a machine

  /** The mutable part of a filter object: estimate, covariance and noise covariance. */
  datatype Estimate = Estimate(x: Vector, P: Matrix, R: Matrix)

  /** One call on a filter object. */
  datatype Call =
    | PredictCall
    | PredictInputCall(u: Vector)
    | PredictInputMeasurementCall(u: Vector, z: Vector)
    | CorrectCall(z: Vector)
    | UpdateNoiseCall(Rnew: Matrix)

  /** The call is well-shaped in state e for the model (F, G, H, Q). */
  ghost predicate CallOk(F: Matrix, G: Matrix, H: Matrix, Q: Matrix, e: Estimate, c: Call) {
    var n := |F|;
    n >= 1 && IsMatrix(F, n, n) && IsMatrix(Q, n, n) && |e.x| == n && IsMatrix(e.P, n, n) &&
    match c
    case PredictCall => true
    case PredictInputCall(u) => IsMatrix(G, n, |u|)
    case PredictInputMeasurementCall(u, z) => IsMatrix(G, n, |u|) && |z| == |H|
    case CorrectCall(z) => |z| == |H| && GainDefined(H, e.P, e.R)
    case UpdateNoiseCall(Rnew) => |H| >= 1 && IsMatrix(Rnew, |H|, |H|)
  }

  /** The effect of one call. The coupling term S·R⁻¹·z of predict(u, z) is
      absent because S is zero in every filter object. */
  function Step(F: Matrix, G: Matrix, H: Matrix, Q: Matrix, e: Estimate, c: Call): (e': Estimate)
    requires CallOk(F, G, H, Q, e, c)
    ensures |e'.x| == |e.x| && IsMatrix(e'.P, |F|, |F|)
    ensures !c.UpdateNoiseCall? ==> e'.R == e.R
    ensures !c.CorrectCall? && !c.UpdateNoiseCall? ==> e'.P == PredictCov(F, e.P, Q)
  {
    match c
    case PredictCall => Estimate(PredictState(F, e.x), PredictCov(F, e.P, Q), e.R)
    case PredictInputCall(u) => Estimate(PredictStateInput(F, G, e.x, u), PredictCov(F, e.P, Q), e.R)
    case PredictInputMeasurementCall(u, _) => Estimate(PredictStateInput(F, G, e.x, u), PredictCov(F, e.P, Q), e.R)
    case CorrectCall(z) =>
      var K := Gain(H, e.P, e.R);
      Estimate(CorrectState(e.x, K, H, z), CorrectCov(e.P, K, H), e.R)
    case UpdateNoiseCall(Rnew) => Estimate(e.x, e.P, Rnew)
  }

  /** Every call of the sequence is well-shaped when it is made. */
  ghost predicate RunOk(F: Matrix, G: Matrix, H: Matrix, Q: Matrix, e: Estimate, calls: seq<Call>)
    decreases |calls|
  {
    |calls| == 0 ||
    (CallOk(F, G, H, Q, e, calls[0]) && RunOk(F, G, H, Q, Step(F, G, H, Q, e, calls[0]), calls[1..]))
  }

  /** The state after a sequence of calls. */
  function Run(F: Matrix, G: Matrix, H: Matrix, Q: Matrix, e: Estimate, calls: seq<Call>): (e': Estimate)
    requires RunOk(F, G, H, Q, e, calls)
    decreases |calls|
  {
    if |calls| == 0 then e else Run(F, G, H, Q, Step(F, G, H, Q, e, calls[0]), calls[1..])
  }

  /** A sequence of calls is run one call after the other. */
  lemma {:induction false} RunSnoc(F: Matrix, G: Matrix, H: Matrix, Q: Matrix, e: Estimate, calls: seq<Call>, c: Call)
    requires RunOk(F, G, H, Q, e, calls)
    requires CallOk(F, G, H, Q, Run(F, G, H, Q, e, calls), c)
    ensures RunOk(F, G, H, Q, e, calls + [c])
    ensures Run(F, G, H, Q, e, calls + [c]) == Step(F, G, H, Q, Run(F, G, H, Q, e, calls), c)
    decreases |calls|
  {
    if |calls| == 0 {
      assert calls + [c] == [c];
      assert [c][1..] == [];
    } else {
      assert (calls + [c])[1..] == calls[1..] + [c];
      RunSnoc(F, G, H, Q, Step(F, G, H, Q, e, calls[0]), calls[1..], c);
    }
  }

  /** A well-shaped sequence splits into a well-shaped prefix and a well-shaped rest. */
  lemma {:induction false} RunSplit(F: Matrix, G: Matrix, H: Matrix, Q: Matrix, e: Estimate, a: seq<Call>, b: seq<Call>)
    requires RunOk(F, G, H, Q, e, a + b)
    ensures RunOk(F, G, H, Q, e, a)
    ensures RunOk(F, G, H, Q, Run(F, G, H, Q, e, a), b)
    ensures Run(F, G, H, Q, e, a + b) == Run(F, G, H, Q, Run(F, G, H, Q, e, a), b)
    decreases |a|
  {
    if |a| == 0 {
      assert a + b == b;
    } else {
      assert (a + b)[0] == a[0];
      assert (a + b)[1..] == a[1..] + b;
      RunSplit(F, G, H, Q, Step(F, G, H, Q, e, a[0]), a[1..], b);
    }
  }

  /** Running a well-shaped sequence one call at a time: after the first i
      calls the next one is well-shaped, and running it gives the first i + 1. */
  lemma RunPrefixStep(F: Matrix, G: Matrix, H: Matrix, Q: Matrix, e: Estimate, calls: seq<Call>, i: nat)
    requires RunOk(F, G, H, Q, e, calls) && i < |calls|
    ensures RunOk(F, G, H, Q, e, calls[..i]) && CallOk(F, G, H, Q, Run(F, G, H, Q, e, calls[..i]), calls[i])
    ensures RunOk(F, G, H, Q, e, calls[..i + 1])
    ensures Run(F, G, H, Q, e, calls[..i + 1]) == Step(F, G, H, Q, Run(F, G, H, Q, e, calls[..i]), calls[i])
  {
    assert calls == calls[..i] + calls[i..];
    RunSplit(F, G, H, Q, e, calls[..i], calls[i..]);
    RunSnoc(F, G, H, Q, e, calls[..i], calls[i]);
    assert calls[..i + 1] == calls[..i] + [calls[i]];
  }

  /** Symmetric P and R stay symmetric through any well-shaped sequence of calls
      that installs only symmetric noise covariances. */
  lemma {:induction false} RunKeepsSymmetric(F: Matrix, G: Matrix, H: Matrix, Q: Matrix, e: Estimate, calls: seq<Call>)
    requires RunOk(F, G, H, Q, e, calls)
    requires IsSymmetric(Q) && IsSymmetric(e.P) && IsSymmetric(e.R)
    requires forall i :: 0 <= i < |calls| && calls[i].UpdateNoiseCall? ==> IsSymmetric(calls[i].Rnew)
    ensures IsSymmetric(Run(F, G, H, Q, e, calls).P)
    decreases |calls|
  {
    if |calls| > 0 {
      var c := calls[0];
      var e' := Step(F, G, H, Q, e, c);
      match c {
        case CorrectCall(z) => CorrectCovSymmetric(H, e.P, e.R);
        case UpdateNoiseCall(_) =>
        case _ => PredictCovSymmetric(F, e.P, Q);
      }
      assert IsSymmetric(e'.R) by {
        if c.UpdateNoiseCall? {
          assert calls[0].UpdateNoiseCall?;
        }
      }
      forall i | 0 <= i < |calls[1..]| && calls[1..][i].UpdateNoiseCall?
        ensures IsSymmetric(calls[1..][i].Rnew)
      {
        assert calls[1..][i] == calls[i + 1];
      }
      RunKeepsSymmetric(F, G, H, Q, e', calls[1..]);
    }
  }
}
