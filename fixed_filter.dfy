/** The compile-time-sized filter: N state, M input and P output dimensions
    are fixed when the object is built, the model matrices are constant and
    only the estimate, its covariance and the noise covariance change. */
module FixedFilter {
  import opened LinAlg
  import opened Kalman

  class FixedKalmanFilter {
    const n: nat
    const m: nat
    const p: nat
    const F: Matrix  // state transition
    const G: Matrix  // input/control
    const H: Matrix  // output/observation
    const Q: Matrix  // state noise covariance
    var R: Matrix    // measurement noise covariance
    var S: Matrix    // measure-to-state coupling, zero in every object
    var xHat: Vector // state estimate
    var P: Matrix    // state covariance estimate

    ghost predicate Valid()
      reads this
    {
      ModelShapes(F, G, H, Q, n, m, p) &&
      IsMatrix(R, p, p) && S == Zero(n, p) && |xHat| == n && IsMatrix(P, n, n)
    }

    /** The mutable part of the object as a value. */
    function Snapshot(): (e: Estimate)
      reads this
      requires Valid()
      ensures |e.x| == n && IsMatrix(e.P, n, n) && IsMatrix(e.R, p, p)
    {
      Estimate(xHat, P, R)
    }

    /** Zero estimate, identity covariance, zero noise covariance. */
    constructor (n: nat, m: nat, p: nat, F: Matrix, G: Matrix, H: Matrix, Q: Matrix)
      requires ModelShapes(F, G, H, Q, n, m, p)
      ensures Valid()
      ensures this.n == n && this.m == m && this.p == p
      ensures this.F == F && this.G == G && this.H == H && this.Q == Q
      ensures R == Zero(p, p) && S == Zero(n, p) && xHat == Zeros(n) && P == Identity(n)
    {
      this.n, this.m, this.p := n, m, p;
      this.F, this.G, this.H, this.Q := F, G, H, Q;
      R := Zero(p, p);
      S := Zero(n, p);
      xHat := Zeros(n);
      P := Identity(n);
    }

    /** Given initial estimate and covariance, zero noise covariance. */
    constructor WithInit(n: nat, m: nat, p: nat, F: Matrix, G: Matrix, H: Matrix, Q: Matrix,
                         xHatInit: Vector, PInit: Matrix)
      requires ModelShapes(F, G, H, Q, n, m, p)
      requires |xHatInit| == n && IsMatrix(PInit, n, n)
      ensures Valid()
      ensures this.n == n && this.m == m && this.p == p
      ensures this.F == F && this.G == G && this.H == H && this.Q == Q
      ensures R == Zero(p, p) && S == Zero(n, p) && xHat == xHatInit && P == PInit
    {
      this.n, this.m, this.p := n, m, p;
      this.F, this.G, this.H, this.Q := F, G, H, Q;
      R := Zero(p, p);
      S := Zero(n, p);
      xHat := xHatInit;
      P := PInit;
    }

    /** x̂ ← F·x̂ and P ← F·P·Fᵀ + Q. */
    method Predict()
      requires Valid()
      modifies this`xHat, this`P
      ensures Valid()
      ensures xHat == PredictState(F, old(xHat)) && P == PredictCov(F, old(P), Q)
      ensures Snapshot() == Step(F, G, H, Q, old(Snapshot()), PredictCall)
    {
      xHat := MatVec(F, xHat);
      P := MatAdd(MatMul(MatMul(F, P), Transpose(F)), Q);
    }

    /** x̂ ← F·x̂ + G·u and P ← F·P·Fᵀ + Q. */
    method PredictWithInput(u: Vector)
      requires Valid() && |u| == m
      modifies this`xHat, this`P
      ensures Valid()
      ensures xHat == PredictStateInput(F, G, old(xHat), u) && P == PredictCov(F, old(P), Q)
      ensures Snapshot() == Step(F, G, H, Q, old(Snapshot()), PredictInputCall(u))
    {
      xHat := VecAdd(MatVec(F, xHat), MatVec(G, u));
      P := MatAdd(MatMul(MatMul(F, P), Transpose(F)), Q);
    }

    /** x̂ ← F·x̂ + G·u + S·w where w solves R·w = z, and P ← F·P·Fᵀ + Q.
        R may be singular (it is zero until the first noise update), so w is
        known only by its length; S = 0 makes the result predict(u) anyway. */
    method PredictWithInputAndMeasurement(u: Vector, z: Vector)
      requires Valid() && |u| == m && |z| == p
      modifies this`xHat, this`P
      ensures Valid()
      ensures xHat == PredictStateInput(F, G, old(xHat), u) && P == PredictCov(F, old(P), Q)
      ensures Snapshot() == Step(F, G, H, Q, old(Snapshot()), PredictInputMeasurementCall(u, z))
    {
      assert |Zeros(p)| == p;
      var w: Vector :| |w| == p;
      MatVecZeroMatrix(S, w);
      var predicted := VecAdd(MatVec(F, xHat), MatVec(G, u));
      xHat := VecAdd(predicted, MatVec(S, w));
      assert xHat == predicted;
      P := MatAdd(MatMul(MatMul(F, P), Transpose(F)), Q);
    }

    /** K solves (H·P·Hᵀ + R)ᵀ·Kᵀ = H·Pᵀ; then x̂ ← x̂ + K·(z − H·x̂) and P ← P − K·H·P. */
    method Correct(z: Vector)
      requires Valid() && |z| == p && GainDefined(H, P, R)
      modifies this`xHat, this`P
      ensures Valid()
      ensures var K := Gain(H, old(P), R);
        MatMul(Transpose(InnovationCov(H, old(P), R)), Transpose(K)) == MatMul(H, Transpose(old(P))) &&
        xHat == CorrectState(old(xHat), K, H, z) && P == CorrectCov(old(P), K, H)
      ensures Snapshot() == Step(F, G, H, Q, old(Snapshot()), CorrectCall(z))
    {
      var K := Transpose(Solve(Transpose(MatAdd(MatMul(MatMul(H, P), Transpose(H)), R)), MatMul(H, Transpose(P))));
      assert K == Gain(H, P, R);
      xHat := VecAdd(xHat, MatVec(K, VecSub(z, MatVec(H, xHat))));
      P := MatSub(P, MatMul(MatMul(K, H), P));
    }

    /** Performs one call. */
    method Apply(c: Call)
      requires Valid() && CallOk(F, G, H, Q, Snapshot(), c)
      modifies this`xHat, this`P, this`R
      ensures Valid() && Snapshot() == Step(F, G, H, Q, old(Snapshot()), c)
    {
      match c {
        case PredictCall => Predict();
        case PredictInputCall(u) =>
          assert |G[0]| == |u|;
          PredictWithInput(u);
        case PredictInputMeasurementCall(u, z) =>
          assert |G[0]| == |u|;
          PredictWithInputAndMeasurement(u, z);
        case CorrectCall(z) => Correct(z);
        case UpdateNoiseCall(RNew) => UpdateNoiseCovariance(RNew);
      }
    }

    function StateEstimate(): (x: Vector)
      reads this
      requires Valid()
      ensures |x| == n && x == Snapshot().x
    {
      xHat
    }

    function StateCovarianceEstimate(): (C: Matrix)
      reads this
      requires Valid()
      ensures IsMatrix(C, n, n) && C == Snapshot().P
    {
      P
    }

    /** Replaces R and nothing else. */
    method UpdateNoiseCovariance(RNew: Matrix)
      requires Valid() && IsMatrix(RNew, p, p)
      modifies this`R
      ensures Valid() && R == RNew
      ensures Snapshot() == Step(F, G, H, Q, old(Snapshot()), UpdateNoiseCall(RNew))
    {
      R := RNew;
    }
  }
}
