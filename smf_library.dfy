/** The Python prototype of the filter: an object holding the estimate x and
    its covariance P next to the model matrices, any of which may be absent
    (None). Only x and P are ever reassigned. A call that reaches an absent
    operand raises; the model reports that as a failed call. */
module SmfLibrary {
  import opened LinAlg
  import opened Kalman
  import opened Records

  /** K = P·Hᵀ·inv(H·P·Hᵀ + R), the gain as the prototype writes it: it
      solves K·Σ = P·Hᵀ. */
  function PrototypeGain(H: Matrix, P: Matrix, R: Matrix): (K: Matrix)
    requires CorrectShapes(H, P, R) && Invertible(InnovationCov(H, P, R))
    ensures IsMatrix(K, |P|, |H|)
    ensures MatMul(K, InnovationCov(H, P, R)) == MatMul(P, Transpose(H))
  {
    var n, p := |P|, |H|;
    var S := InnovationCov(H, P, R);
    var PHt := MatMul(P, Transpose(H));
    MatMulAssoc(PHt, Inverse(S), S, n, p, p, p);
    MatMulIdentityRight(PHt, n, p);
    MatMul(PHt, Inverse(S))
  }

  /** The prototype's gain is the C++ filters' gain: where inv(Σ) exists,
      so does the solve of Σᵀ·Kᵀ = H·Pᵀ, and both give the same K. */
  lemma PrototypeGainIsGain(H: Matrix, P: Matrix, R: Matrix)
    requires CorrectShapes(H, P, R) && Invertible(InnovationCov(H, P, R))
    ensures GainDefined(H, P, R)
    ensures PrototypeGain(H, P, R) == Gain(H, P, R)
  {
    InverseTranspose(InnovationCov(H, P, R));
    GainClosedForm(H, P, R);
  }

  /** The coupling term S·inv(R)·z that predict adds when S is present. */
  function Coupling(S: Matrix, R: Matrix, z: Vector): (c: Vector)
    requires Invertible(R) && IsMatrix(S, |S|, |R|) && |z| == |R|
    ensures |c| == |S|
  {
    MatVec(MatMul(S, Inverse(R)), z)
  }

  /** With S = 0 the coupling term vanishes, so predict(u, z) is predict(u). */
  lemma CouplingOfZero(n: nat, R: Matrix, z: Vector)
    requires Invertible(R) && |z| == |R| && n >= 1
    ensures Coupling(Zero(n, |R|), R, z) == Zeros(n)
  {
    var p := |R|;
    var Z := MatMul(Zero(n, p), Inverse(R));
    assert IsMatrix(Z, n, p);
    forall i, j | 0 <= i < n && 0 <= j < p
      ensures Z[i][j] == 0.0
    {
      DotZerosLeft(Col(Inverse(R), j));
      assert Zero(n, p)[i] == Zeros(p);
    }
    MatVecZeroMatrix(Z, z);
  }

  class KalmanFilter {
    var x: Vector
    var P: Matrix
    var dim: nat
    var F: Option<Matrix>
    var G: Option<Matrix>
    var H: Option<Matrix>
    var D: Option<Matrix>
    var Q: Option<Matrix>
    var S: Option<Matrix>
    var R: Option<Matrix>

    /** Stores everything as given; the covariance defaults to the identity
        of the state's size. */
    constructor (xInit: Vector, PInit: Option<Matrix>, F: Option<Matrix>, G: Option<Matrix>,
                 H: Option<Matrix>, D: Option<Matrix>, Q: Option<Matrix>, S: Option<Matrix>, R: Option<Matrix>)
      ensures x == xInit && dim == |xInit|
      ensures P == if PInit.None? then Identity(|xInit|) else PInit.value
      ensures this.F == F && this.G == G && this.H == H && this.D == D
      ensures this.Q == Q && this.S == S && this.R == R
    {
      x := xInit;
      dim := |xInit|;
      if PInit.None? {
        P := Identity(|xInit|);
      } else {
        P := PInit.value;
      }
      this.F, this.G, this.H, this.D := F, G, H, D;
      this.Q, this.S, this.R := Q, S, R;
    }

    /** The measurement update: x ← x + K·(z − H·x) and P ← P − K·H·P with
        the prototype's gain, which is the C++ filters' gain; a measurement
        equal to H·x leaves x unchanged. */
    method Filter(measure: Vector)
      requires H.Some? && R.Some? && CorrectShapes(H.value, P, R.value)
      requires |x| == |P| && |measure| == |H.value|
      requires Invertible(InnovationCov(H.value, P, R.value))
      modifies this`x, this`P
      ensures var K := PrototypeGain(H.value, old(P), R.value);
        x == CorrectState(old(x), K, H.value, measure) && P == CorrectCov(old(P), K, H.value)
      ensures GainDefined(H.value, old(P), R.value) &&
              x == CorrectState(old(x), Gain(H.value, old(P), R.value), H.value, measure)
      ensures MatVec(H.value, old(x)) == measure ==> x == old(x)
    {
      var Hm, Rm := H.value, R.value;
      var innovation := VecSub(measure, MatVec(Hm, x));
      var delta := MatAdd(MatMul(MatMul(Hm, P), Transpose(Hm)), Rm);
      var kGain := MatMul(MatMul(P, Transpose(Hm)), Inverse(delta));
      PrototypeGainIsGain(Hm, P, Rm);
      if MatVec(Hm, x) == measure {
        CorrectZeroInnovation(x, kGain, Hm, measure);
      }
      x := VecAdd(x, MatVec(kGain, innovation));
      P := MatSub(P, MatMul(MatMul(kGain, Hm), P));
    }

    /** The time update: x ← F·x, then G·u is added whatever u is (the guard
        tests the builtin input, never None), then S·inv(R)·z exactly when S
        is present, and P ← F·P·Fᵀ + Q. An absent u, or an absent z with S
        present, raises after x has been partly updated and before P is. */
    method Predict(controlInput: Option<Vector>, measure: Option<Vector>) returns (ok: bool)
      requires F.Some? && G.Some? && Q.Some?
      requires |x| >= 1 && IsMatrix(F.value, |x|, |x|) && IsMatrix(P, |x|, |x|) && IsMatrix(Q.value, |x|, |x|)
      requires controlInput.Some? ==> IsMatrix(G.value, |x|, |controlInput.value|)
      requires S.Some? ==> R.Some? && Invertible(R.value) && IsMatrix(S.value, |x|, |R.value|)
      requires S.Some? && measure.Some? ==> |measure.value| == |R.value|
      modifies this`x, this`P
      ensures ok <==> controlInput.Some? && (S.None? || measure.Some?)
      ensures controlInput.None? ==> x == PredictState(F.value, old(x)) && P == old(P)
      ensures controlInput.Some? && S.Some? && measure.None? ==>
        x == PredictStateInput(F.value, G.value, old(x), controlInput.value) && P == old(P)
      ensures ok && S.None? ==>
        x == PredictStateInput(F.value, G.value, old(x), controlInput.value) &&
        P == PredictCov(F.value, old(P), Q.value)
      ensures ok && S.Some? ==>
        x == VecAdd(PredictStateInput(F.value, G.value, old(x), controlInput.value),
                    Coupling(S.value, R.value, measure.value)) &&
        P == PredictCov(F.value, old(P), Q.value)
    {
      x := MatVec(F.value, x);
      if controlInput.None? {
        return false;
      }
      x := VecAdd(x, MatVec(G.value, controlInput.value));
      if S.Some? {
        if measure.None? {
          return false;
        }
        x := VecAdd(x, MatVec(MatMul(S.value, Inverse(R.value)), measure.value));
      }
      P := MatAdd(MatMul(MatMul(F.value, P), Transpose(F.value)), Q.value);
      ok := true;
    }
  }

  /** Without S, a prototype predict is the C++ filters' predict(u), and a
      prototype filter their correct(z): the same estimate from the same one. */
  lemma PrototypeMatchesFilters(F: Matrix, G: Matrix, H: Matrix, Q: Matrix, e: Estimate, u: Vector, z: Vector)
    requires CallOk(F, G, H, Q, e, PredictInputCall(u))
    requires CorrectShapes(H, e.P, e.R) && |z| == |H| && Invertible(InnovationCov(H, e.P, e.R))
    ensures Step(F, G, H, Q, e, PredictInputCall(u)) ==
            Estimate(PredictStateInput(F, G, e.x, u), PredictCov(F, e.P, Q), e.R)
    ensures var K := PrototypeGain(H, e.P, e.R);
      CallOk(F, G, H, Q, e, CorrectCall(z)) &&
      Step(F, G, H, Q, e, CorrectCall(z)) == Estimate(CorrectState(e.x, K, H, z), CorrectCov(e.P, K, H), e.R)
  {
    PrototypeGainIsGain(H, e.P, e.R);
  }

  /** Where S is an all-zero matrix, the prototype's predict(u, z) is the
      C++ filters' predict(u, z). */
  lemma PrototypeZeroCouplingMatchesFilters(F: Matrix, G: Matrix, H: Matrix, Q: Matrix, e: Estimate,
                                            u: Vector, z: Vector, R: Matrix)
    requires CallOk(F, G, H, Q, e, PredictInputMeasurementCall(u, z))
    requires Invertible(R) && |z| == |R|
    ensures VecAdd(PredictStateInput(F, G, e.x, u), Coupling(Zero(|e.x|, |R|), R, z))
         == Step(F, G, H, Q, e, PredictInputMeasurementCall(u, z)).x
  {
    CouplingOfZero(|e.x|, R, z);
    var y := PredictStateInput(F, G, e.x, u);
    assert VecAdd(y, Zeros(|y|)) == y;
  }
}
