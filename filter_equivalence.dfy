/** The fixed-size and the runtime-sized filter are two implementations of one
    machine: built from the same square model and the same initial estimate,
    and driven by the same calls, they hold the same estimate and covariance
    throughout. */
module FilterEquivalence {
  import opened LinAlg
  import opened Kalman
  import opened FixedFilter
  import opened DynamicFilter

  /** The initial state of both 4-argument constructors for an N-state,
      N-output model. */
  function DefaultEstimate(n: nat): (e: Estimate)
    ensures |e.x| == n && IsMatrix(e.P, n, n) && IsMatrix(e.R, n, n)
    ensures IsZeroMatrix(e.R) && forall i :: 0 <= i < n ==> e.x[i] == 0.0 && e.P[i][i] == 1.0
  {
    Estimate(Zeros(n), Identity(n), Zero(n, n))
  }

  /** Applies the same calls to a fixed and a dynamic filter that start in
      the same state; both end in the state the call machine gives. */
  method RunBoth(f: FixedKalmanFilter, d: DynamicKalmanFilter, n: nat, m: nat,
                 F: Matrix, G: Matrix, H: Matrix, Q: Matrix, calls: seq<Call>)
    requires f.Valid() && d.Valid() && f.n == n && f.m == m && f.p == n
    requires f.F == F && f.G == G && f.H == H && f.Q == Q
    requires d.F == F && d.G == G && d.H == H && d.Q == Q
    requires d.S == Zero(n, n) && IsMatrix(d.R, n, n)
    requires f.Snapshot() == d.Snapshot()
    requires RunOk(F, G, H, Q, f.Snapshot(), calls)
    modifies f`xHat, f`P, f`R, d`xHat, d`P, d`R
    ensures f.Valid() && d.Valid()
    ensures f.Snapshot() == d.Snapshot() == Run(F, G, H, Q, old(f.Snapshot()), calls)
  {
    ghost var e0 := f.Snapshot();
    var i := 0;
    while i < |calls|
      invariant 0 <= i <= |calls|
      invariant f.Valid() && d.Valid() && f.n == n && f.m == m && f.p == n
      invariant d.S == Zero(n, n) && IsMatrix(d.R, n, n)
      invariant RunOk(F, G, H, Q, e0, calls[..i])
      invariant f.Snapshot() == d.Snapshot() == Run(F, G, H, Q, e0, calls[..i])
    {
      RunPrefixStep(F, G, H, Q, e0, calls, i);
      var c := calls[i];
      f.Apply(c);
      d.Apply(c);
      i := i + 1;
    }
    assert calls[..i] == calls;
  }

  /** Builds both filters with the initialising constructors from the same
      x̂₀ and P₀, runs the calls on both and returns both final estimates
      and covariances. */
  method SameCallsSameEstimate(n: nat, m: nat, F: Matrix, G: Matrix, H: Matrix, Q: Matrix,
                               xInit: Vector, PInit: Matrix, calls: seq<Call>)
    returns (xFixed: Vector, PFixed: Matrix, xDynamic: Vector, PDynamic: Matrix)
    requires ModelShapes(F, G, H, Q, n, m, n)
    requires |xInit| == n && IsMatrix(PInit, n, n)
    requires RunOk(F, G, H, Q, Estimate(xInit, PInit, Zero(n, n)), calls)
    ensures xFixed == xDynamic && PFixed == PDynamic
    ensures xFixed == Run(F, G, H, Q, Estimate(xInit, PInit, Zero(n, n)), calls).x
    ensures PFixed == Run(F, G, H, Q, Estimate(xInit, PInit, Zero(n, n)), calls).P
  {
    var f := new FixedKalmanFilter.WithInit(n, m, n, F, G, H, Q, xInit, PInit);
    var d := new DynamicKalmanFilter.WithInit(F, G, H, Q, xInit, PInit);
    DefaultsSquare(F, H, n, n);
    RunBoth(f, d, n, m, F, G, H, Q, calls);
    xFixed, PFixed := f.StateEstimate(), f.StateCovarianceEstimate();
    xDynamic, PDynamic := d.StateEstimate(), d.StateCovarianceEstimate();
  }

  /** The same from the 4-argument constructors, which start both filters
      in DefaultEstimate. */
  method SameCallsSameEstimateFromDefaults(n: nat, m: nat, F: Matrix, G: Matrix, H: Matrix, Q: Matrix,
                                           calls: seq<Call>)
    returns (xFixed: Vector, PFixed: Matrix, xDynamic: Vector, PDynamic: Matrix)
    requires ModelShapes(F, G, H, Q, n, m, n)
    requires RunOk(F, G, H, Q, DefaultEstimate(n), calls)
    ensures xFixed == xDynamic && PFixed == PDynamic
    ensures xFixed == Run(F, G, H, Q, DefaultEstimate(n), calls).x
    ensures PFixed == Run(F, G, H, Q, DefaultEstimate(n), calls).P
  {
    var f := new FixedKalmanFilter(n, m, n, F, G, H, Q);
    var d := new DynamicKalmanFilter(F, G, H, Q);
    DefaultsSquare(F, H, n, n);
    RunBoth(f, d, n, m, F, G, H, Q, calls);
    xFixed, PFixed := f.StateEstimate(), f.StateCovarianceEstimate();
    xDynamic, PDynamic := d.StateEstimate(), d.StateCovarianceEstimate();
  }
}
