/** The boat model the estimator runs: a 3-D constant-acceleration-input model
    over the state [position; velocity], in metres and metres per second,
    with the acceleration as input and the full state observed. */
module Model {
  import opened LinAlg
  import opened Kalman

  /** Seconds between filter steps. */
  const SampleTime: real := 15.0
  /** Standard deviation of the acceleration noise. */
  const WStd: real := 0.1

  const T2: real := SampleTime * SampleTime / 2.0

  const FF: Matrix := [
    [1.0, 0.0, 0.0, SampleTime, 0.0, 0.0],
    [0.0, 1.0, 0.0, 0.0, SampleTime, 0.0],
    [0.0, 0.0, 1.0, 0.0, 0.0, SampleTime],
    [0.0, 0.0, 0.0, 1.0, 0.0, 0.0],
    [0.0, 0.0, 0.0, 0.0, 1.0, 0.0],
    [0.0, 0.0, 0.0, 0.0, 0.0, 1.0]]

  const FG: Matrix := [
    [T2, 0.0, 0.0],
    [0.0, T2, 0.0],
    [0.0, 0.0, T2],
    [SampleTime, 0.0, 0.0],
    [0.0, SampleTime, 0.0],
    [0.0, 0.0, SampleTime]]

  const FH: Matrix := Identity(6)

  /** Q = G·Gᵀ·w², the input noise pushed through G. */
  const FQ: Matrix := MatScale(WStd * WStd, MatMul(FG, Transpose(FG)))

  const FRDefault: Matrix := [
    [1.0, 0.0, 0.0, 0.0, 0.0, 0.0],
    [0.0, 1.0, 0.0, 0.0, 0.0, 0.0],
    [0.0, 0.0, 1.0, 0.0, 0.0, 0.0],
    [0.0, 0.0, 0.0, 0.1, 0.0, 0.0],
    [0.0, 0.0, 0.0, 0.0, 0.1, 0.0],
    [0.0, 0.0, 0.0, 0.0, 0.0, 0.1]]

  /** The initial estimate and covariance the estimator starts from: x̂₀ = 0, P₀ = Q. */
  const XInit: Vector := Zeros(6)
  const PInit: Matrix := FQ

  /** The model has 6 states, 3 inputs and 6 outputs. */
  lemma Shapes()
    ensures ModelShapes(FF, FG, FH, FQ, 6, 3, 6)
    ensures IsMatrix(FRDefault, 6, 6)
  {
  }

  /** F advances each position by SampleTime times its velocity and keeps the velocity. */
  lemma TransitionAdvancesPosition(x: Vector)
    requires |x| == 6
    ensures MatVec(FF, x) == [x[0] + SampleTime * x[3], x[1] + SampleTime * x[4], x[2] + SampleTime * x[5],
                              x[3], x[4], x[5]]
  {
    var r := MatVec(FF, x);
    Dot6(FF[0], x);
    assert r[0] == x[0] + SampleTime * x[3];
    Dot6(FF[1], x);
    assert r[1] == x[1] + SampleTime * x[4];
    Dot6(FF[2], x);
    assert r[2] == x[2] + SampleTime * x[5];
    Dot6(FF[3], x);
    assert r[3] == x[3];
    Dot6(FF[4], x);
    assert r[4] == x[4];
    Dot6(FF[5], x);
    assert r[5] == x[5];
  }

  /** G turns an acceleration into (T²/2)·a of displacement and T·a of velocity. */
  lemma InputIntegratesAcceleration(u: Vector)
    requires |u| == 3
    ensures MatVec(FG, u) == [T2 * u[0], T2 * u[1], T2 * u[2], SampleTime * u[0], SampleTime * u[1], SampleTime * u[2]]
  {
    var r := MatVec(FG, u);
    Dot3(FG[0], u);
    assert r[0] == T2 * u[0];
    Dot3(FG[1], u);
    assert r[1] == T2 * u[1];
    Dot3(FG[2], u);
    assert r[2] == T2 * u[2];
    Dot3(FG[3], u);
    assert r[3] == SampleTime * u[0];
    Dot3(FG[4], u);
    assert r[4] == SampleTime * u[1];
    Dot3(FG[5], u);
    assert r[5] == SampleTime * u[2];
  }

  /** H is the identity: the whole state is observed. */
  lemma ObservationIsIdentity(x: Vector)
    requires |x| == 6
    ensures MatVec(FH, x) == x
  {
    MatVecIdentity(x);
  }

  /** Row i of G holds T²/2 (position rows) or T (velocity rows) in column i mod 3. */
  function GEntry(i: int, k: int): real {
    if i % 3 != k then 0.0 else if i < 3 then T2 else SampleTime
  }

  lemma GEntries()
    ensures IsMatrix(FG, 6, 3)
    ensures forall i, k :: 0 <= i < 6 && 0 <= k < 3 ==> FG[i][k] == GEntry(i, k)
  {
  }

  /** The value of Q between state components i and j, before the w² factor. */
  function QEntry(i: int, j: int): real {
    if i % 3 != j % 3 then 0.0
    else if i < 3 && j < 3 then T2 * T2
    else if i >= 3 && j >= 3 then SampleTime * SampleTime
    else T2 * SampleTime
  }

  lemma GramEntry(i: nat, j: nat)
    requires i < 6 && j < 6
    ensures MatMul(FG, Transpose(FG))[i][j] == QEntry(i, j)
  {
    var Gt := Transpose(FG);
    GEntries();
    assert Col(Gt, j) == FG[j];
    GRowsDot(i, j);
  }

  lemma GRowsDot(i: nat, j: nat)
    requires i < 6 && j < 6
    ensures Dot(FG[i], FG[j]) == QEntry(i, j)
  {
    GEntries();
    var gi, gj := FG[i], FG[j];
    assert gi == [GEntry(i, 0), GEntry(i, 1), GEntry(i, 2)];
    assert gj == [GEntry(j, 0), GEntry(j, 1), GEntry(j, 2)];
    Dot3(gi, gj);
    GEntryGram(i, j);
  }

  /** Rows i and j of G meet in at most one column, column i mod 3. */
  lemma GEntryGram(i: nat, j: nat)
    requires i < 6 && j < 6
    ensures GEntry(i, 0) * GEntry(j, 0) + GEntry(i, 1) * GEntry(j, 1) + GEntry(i, 2) * GEntry(j, 2) == QEntry(i, j)
  {
    var a := if i < 3 then T2 else SampleTime;
    var b := if j < 3 then T2 else SampleTime;
    assert forall k :: 0 <= k < 3 ==> GEntry(i, k) * GEntry(j, k) == if k == i % 3 && k == j % 3 then a * b else 0.0;
  }

  /** Q entry by entry: w²·(T²/2)² between a position and itself, w²·(T²/2)·T
      between a position and its velocity, w²·T² between a velocity and itself,
      and zero between different axes. */
  lemma NoiseCovarianceValue()
    ensures IsMatrix(FQ, 6, 6)
    ensures forall i, j :: 0 <= i < 6 && 0 <= j < 6 ==> FQ[i][j] == WStd * WStd * QEntry(i, j)
  {
    forall i, j | 0 <= i < 6 && 0 <= j < 6
      ensures FQ[i][j] == WStd * WStd * QEntry(i, j)
    {
      GramEntry(i, j);
    }
  }

  /** Q is symmetric with a non-negative diagonal. */
  lemma NoiseCovarianceSymmetric()
    ensures IsSymmetric(FQ)
    ensures forall i :: 0 <= i < 6 ==> FQ[i][i] >= 0.0
  {
    NoiseCovarianceValue();
    forall i, j | 0 <= i < 6 && 0 <= j < 6
      ensures FQ[i][j] == FQ[j][i]
    {
      assert QEntry(i, j) == QEntry(j, i);
    }
    forall i | 0 <= i < 6
      ensures FQ[i][i] >= 0.0
    {
      assert QEntry(i, i) >= 0.0;
    }
  }

  /** The default R is diagonal: 1 on the position entries, 0.1 on the velocity entries. */
  lemma DefaultNoiseDiagonal()
    ensures IsDiagonal(FRDefault) && IsSymmetric(FRDefault)
    ensures forall i :: 0 <= i < 6 ==> FRDefault[i][i] == if i < 3 then 1.0 else 0.1
  {
  }
}
