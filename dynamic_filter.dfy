/** The runtime-sized filter: the same recursion as the fixed-size one, with
    every dimension read off the matrices it was built from. A product of
    mismatched shapes is a runtime assertion in the matrix library, so each
    operation requires the shapes it multiplies to agree. */
module DynamicFilter {
  import opened LinAlg
  import opened Kalman

  class DynamicKalmanFilter {
    const F: Matrix
    const G: Matrix
    const H: Matrix
    const Q: Matrix
    var R: Matrix
    var S: Matrix
    var xHat: Vector
    var P: Matrix

    /** Every matrix is rectangular (a dense matrix always is) and S is zero. */
    ghost predicate Valid()
      reads this
    {
      Rect(F) && Rect(G) && Rect(H) && Rect(Q) && Rect(R) && Rect(S) && Rect(P) && IsZeroMatrix(S)
    }

    /** The shapes a time update multiplies: F, P and Q are N×N for N = |x̂| >= 1. */
    ghost predicate PredictShapes()
      reads this
    {
      var N := |xHat|;
      N >= 1 && IsMatrix(F, N, N) && IsMatrix(P, N, N) && IsMatrix(Q, N, N)
    }

    function Snapshot(): (e: Estimate)
      reads this
      ensures e.x == xHat && e.P == P && e.R == R
    {
      Estimate(xHat, P, R)
    }

    /** x̂ = 0 of length F.rows, P = Identity(F.rows, F.cols), R = 0 of shape
        H.rows×H.cols and S = 0 of shape F.rows×H.cols. */
    constructor (F: Matrix, G: Matrix, H: Matrix, Q: Matrix)
      requires Rect(F) && Rect(G) && Rect(H) && Rect(Q)
      ensures Valid()
      ensures this.F == F && this.G == G && this.H == H && this.Q == Q
      ensures R == Zero(|H|, NCols(H)) && S == Zero(|F|, NCols(H))
      ensures xHat == Zeros(|F|) && P == RectIdentity(|F|, NCols(F))
    {
      this.F, this.G, this.H, this.Q := F, G, H, Q;
      R := Zero(|H|, NCols(H));
      S := Zero(|F|, NCols(H));
      xHat := Zeros(|F|);
      P := RectIdentity(|F|, NCols(F));
    }

    /** Given x̂ and P; R = 0 of shape H.rows×H.cols and S = 0 of shape F.rows×F.cols. */
    constructor WithInit(F: Matrix, G: Matrix, H: Matrix, Q: Matrix, xHatInit: Vector, PInit: Matrix)
      requires Rect(F) && Rect(G) && Rect(H) && Rect(Q) && Rect(PInit)
      ensures Valid()
      ensures this.F == F && this.G == G && this.H == H && this.Q == Q
      ensures R == Zero(|H|, NCols(H)) && S == Zero(|F|, NCols(F))
      ensures xHat == xHatInit && P == PInit
    {
      this.F, this.G, this.H, this.Q := F, G, H, Q;
      R := Zero(|H|, NCols(H));
      S := Zero(|F|, NCols(F));
      xHat := xHatInit;
      P := PInit;
    }

    method Predict()
      requires Valid() && PredictShapes()
      modifies this`xHat, this`P
      ensures Valid() && PredictShapes() && |xHat| == old(|xHat|)
      ensures xHat == PredictState(F, old(xHat)) && P == PredictCov(F, old(P), Q)
    {
      xHat := MatVec(F, xHat);
      P := MatAdd(MatMul(MatMul(F, P), Transpose(F)), Q);
    }

    method PredictWithInput(u: Vector)
      requires Valid() && PredictShapes() && IsMatrix(G, |xHat|, |u|)
      modifies this`xHat, this`P
      ensures Valid() && PredictShapes() && |xHat| == old(|xHat|)
      ensures xHat == PredictStateInput(F, G, old(xHat), u) && P == PredictCov(F, old(P), Q)
    {
      xHat := VecAdd(MatVec(F, xHat), MatVec(G, u));
      P := MatAdd(MatMul(MatMul(F, P), Transpose(F)), Q);
    }

    /** The solve needs a square R matching z, and S·w needs S to have as many
        columns as w has entries. The result is predict(u), since S = 0. */
    method PredictWithInputAndMeasurement(u: Vector, z: Vector)
      requires Valid() && PredictShapes() && IsMatrix(G, |xHat|, |u|)
      requires IsMatrix(R, |z|, |z|) && IsMatrix(S, |xHat|, |z|)
      modifies this`xHat, this`P
      ensures Valid() && PredictShapes() && |xHat| == old(|xHat|)
      ensures xHat == PredictStateInput(F, G, old(xHat), u) && P == PredictCov(F, old(P), Q)
    {
      assert |Zeros(|z|)| == |z|;
      var w: Vector :| |w| == |z|;
      MatVecZeroMatrix(S, w);
      var predicted := VecAdd(MatVec(F, xHat), MatVec(G, u));
      xHat := VecAdd(predicted, MatVec(S, w));
      assert xHat == predicted;
      P := MatAdd(MatMul(MatMul(F, P), Transpose(F)), Q);
    }

    method Correct(z: Vector)
      requires Valid() && |z| == |H| && |xHat| == |P| && GainDefined(H, P, R)
      modifies this`xHat, this`P
      ensures Valid() && |xHat| == old(|xHat|) && IsMatrix(P, old(|P|), old(|P|))
      ensures var K := Gain(H, old(P), R);
        MatMul(Transpose(InnovationCov(H, old(P), R)), Transpose(K)) == MatMul(H, Transpose(old(P))) &&
        xHat == CorrectState(old(xHat), K, H, z) && P == CorrectCov(old(P), K, H)
    {
      var K := Transpose(Solve(Transpose(MatAdd(MatMul(MatMul(H, P), Transpose(H)), R)), MatMul(H, Transpose(P))));
      assert K == Gain(H, P, R);
      xHat := VecAdd(xHat, MatVec(K, VecSub(z, MatVec(H, xHat))));
      P := MatSub(P, MatMul(MatMul(K, H), P));
    }

    /** Performs one call on a filter whose model has as many outputs as states. */
    method Apply(c: Call)
      requires Valid() && CallOk(F, G, H, Q, Snapshot(), c)
      requires |H| == |F| && IsMatrix(R, |F|, |F|) && S == Zero(|F|, |F|)
      modifies this`xHat, this`P, this`R
      ensures Valid() && Snapshot() == Step(F, G, H, Q, old(Snapshot()), c)
      ensures IsMatrix(R, |F|, |F|)
    {
      match c {
        case PredictCall => Predict();
        case PredictInputCall(u) => PredictWithInput(u);
        case PredictInputMeasurementCall(u, z) => PredictWithInputAndMeasurement(u, z);
        case CorrectCall(z) => Correct(z);
        case UpdateNoiseCall(RNew) => UpdateNoiseCovariance(RNew);
      }
    }

    function StateEstimate(): (x: Vector)
      reads this
      ensures x == Snapshot().x
    {
      xHat
    }

    function StateCovarianceEstimate(): (C: Matrix)
      reads this
      ensures C == Snapshot().P
    {
      P
    }

    /** Replaces R, of any shape, and nothing else. */
    method UpdateNoiseCovariance(RNew: Matrix)
      requires Valid() && Rect(RNew)
      modifies this`R
      ensures Valid() && R == RNew
    {
      R := RNew;
    }
  }

  /** A square model gives the dynamic filter the fixed filter's initial
      state: P = I, and R = 0 is square exactly when H is. */
  lemma DefaultsSquare(F: Matrix, H: Matrix, n: nat, p: nat)
    requires IsMatrix(F, n, n) && IsMatrix(H, p, n) && n >= 1 && p >= 1
    ensures RectIdentity(|F|, NCols(F)) == Identity(n)
    ensures IsMatrix(Zero(|H|, NCols(H)), p, p) <==> p == n
    ensures Zero(|F|, NCols(H)) == Zero(n, n)
  {
    if IsMatrix(Zero(|H|, NCols(H)), p, p) {
      assert |Zero(|H|, NCols(H))[0]| == n;
    }
  }
}
