/** The estimator's sensor handling: unit scaling of GPS fixes, the
    measurement vector and its noise covariance, the latitude scale factor,
    the IMU orientation mapping and the yaw-only rotation of the acceleration
    into the world frame. */
module SensorPrep {
  import opened LinAlg
  import opened Records

  const EarthCircumferenceMeters: real := 40075000.0

  function Square(x: real): (r: real)
    ensures r >= 0.0
  {
    x * x
  }

  /** Brings an angle above 180° down by one turn; every other angle is kept. */
  function AngleWrap180(a: real): (r: real)
    ensures r == a || r == a - 360.0
    ensures r != a <==> a > 180.0
    ensures a <= 540.0 ==> r <= 180.0
    ensures a > -180.0 ==> r > -180.0
  {
    if a > 180.0 then a - 360.0 else a
  }

  /** The acceleration input u = (ax, ay, az). */
  function Imu2Accel(imu: Imu): (u: Vector)
    ensures |u| == 3
  {
    [imu.linearAccelX, imu.linearAccelY, imu.linearAccelZ]
  }

  /** The measurement: position of curr relative to ref in metres (north,
      east scaled by the latitude factor, up), then velocity (north, east, up). */
  function Gps2Meas(curr: Gps, ref: Gps, latFactor: real): (z: Vector)
    ensures |z| == 6
  {
    [(curr.lat - ref.lat) * EarthCircumferenceMeters / 360.0,
     (curr.lon - ref.lon) * EarthCircumferenceMeters * latFactor / 360.0,
     curr.hMSL - ref.hMSL,
     curr.velN,
     curr.velE,
     -curr.velD]
  }

  /** A fix measured against itself has zero relative position, and its
      velocity part is (velN, velE, −velD) whatever the latitude factor. */
  lemma MeasOfReference(s: Gps, latFactor: real)
    ensures Gps2Meas(s, s, latFactor) == [0.0, 0.0, 0.0, s.velN, s.velE, -s.velD]
  {
  }

  /** The measurement moves with the fix, metre for metre: shifting curr by
      d degrees of latitude moves the first component by d·C/360. */
  lemma MeasLinearInLatitude(curr: Gps, ref: Gps, latFactor: real, d: real)
    ensures Gps2Meas(curr.(lat := curr.lat + d), ref, latFactor)[0]
         == Gps2Meas(curr, ref, latFactor)[0] + d * EarthCircumferenceMeters / 360.0
    ensures forall k :: 1 <= k < 6 ==>
      Gps2Meas(curr.(lat := curr.lat + d), ref, latFactor)[k] == Gps2Meas(curr, ref, latFactor)[k]
  {
  }

  /** The diagonal noise covariance: each accuracy is read as two standard
      deviations, so each variance is a quarter of the accuracy squared. */
  function Gps2R(g: Gps): (R: Matrix)
    ensures IsMatrix(R, 6, 6)
  {
    var d := [Square(g.hAcc), Square(g.hAcc), Square(g.vAcc), Square(g.sAcc), Square(g.sAcc), Square(g.sAcc)];
    MatScale(0.25, Diag(d))
  }

  /** The covariance is diagonal, hence symmetric, with non-negative variances:
      the horizontal one twice, the vertical one, the speed one three times. */
  lemma Gps2RIsDiagonal(g: Gps)
    ensures var R := Gps2R(g);
      IsDiagonal(R) && IsSymmetric(R) &&
      R[0][0] == R[1][1] == 0.25 * (g.hAcc * g.hAcc) &&
      R[2][2] == 0.25 * (g.vAcc * g.vAcc) &&
      R[3][3] == R[4][4] == R[5][5] == 0.25 * (g.sAcc * g.sAcc) &&
      forall i :: 0 <= i < 6 ==> R[i][i] >= 0.0
  {
  }

  /** cos of the mean of the two latitudes, in radians. */
  function Gps2LatFactor(trig: Trig, curr: Gps, ref: Gps): (f: real)
    ensures curr.lat + ref.lat == 0.0 ==> f == trig.cos(0.0)
  {
    assert curr.lat + ref.lat == 0.0 ==> 0.5 * (curr.lat + ref.lat) * Deg2Rad == 0.0;
    trig.cos(0.5 * (curr.lat + ref.lat) * Deg2Rad)
  }

  /** The factor does not depend on which of the two fixes is the
      reference. */
  lemma LatFactorSymmetric(trig: Trig, curr: Gps, ref: Gps)
    ensures Gps2LatFactor(trig, curr, ref) == Gps2LatFactor(trig, ref, curr)
  {
  }

  /** The world-to-body rotation about the vertical axis by the heading. */
  function Orientation2W2B(trig: Trig, o: Orientation): (W: Matrix)
    ensures IsMatrix(W, 3, 3)
    ensures W[2] == [0.0, 0.0, 1.0] && W[0][2] == W[1][2] == 0.0
    ensures W[0][0] == W[1][1] && W[0][1] == -W[1][0]
  {
    var angle := Deg2Rad * o.heading;
    [[trig.cos(angle), trig.sin(angle), 0.0],
     [-trig.sin(angle), trig.cos(angle), 0.0],
     [0.0, 0.0, 1.0]]
  }

  /** Where cos² + sin² = 1 at the heading angle, the matrix is a rotation: W·Wᵀ = I. */
  lemma W2BIsRotation(trig: Trig, o: Orientation)
    requires var a := Deg2Rad * o.heading; trig.cos(a) * trig.cos(a) + trig.sin(a) * trig.sin(a) == 1.0
    ensures MatMul(Orientation2W2B(trig, o), Transpose(Orientation2W2B(trig, o))) == Identity(3)
  {
    var W := Orientation2W2B(trig, o);
    var Wt := Transpose(W);
    var a := Deg2Rad * o.heading;
    var c, s := trig.cos(a), trig.sin(a);
    assert W == [[c, s, 0.0], [-s, c, 0.0], [0.0, 0.0, 1.0]];
    RotationRowsOrthonormal(c, s);
    forall i, j | 0 <= i < 3 && 0 <= j < 3
      ensures MatMul(W, Wt)[i][j] == Identity(3)[i][j]
    {
      assert Col(Wt, j) == W[j];
      assert MatMul(W, Wt)[i][j] == Dot(W[i], W[j]);
      assert Dot(W[i], W[j]) == if i == j then 1.0 else 0.0;
    }
    MatrixExt(MatMul(W, Wt), Identity(3), 3, 3);
  }

  /** The rows of a yaw rotation with c² + s² = 1 are orthonormal. */
  lemma RotationRowsOrthonormal(c: real, s: real)
    requires c * c + s * s == 1.0
    ensures Dot([c, s, 0.0], [c, s, 0.0]) == 1.0 && Dot([-s, c, 0.0], [-s, c, 0.0]) == 1.0
    ensures Dot([0.0, 0.0, 1.0], [0.0, 0.0, 1.0]) == 1.0
    ensures Dot([c, s, 0.0], [-s, c, 0.0]) == 0.0 && Dot([-s, c, 0.0], [c, s, 0.0]) == 0.0
    ensures Dot([c, s, 0.0], [0.0, 0.0, 1.0]) == 0.0 && Dot([0.0, 0.0, 1.0], [c, s, 0.0]) == 0.0
    ensures Dot([-s, c, 0.0], [0.0, 0.0, 1.0]) == 0.0 && Dot([0.0, 0.0, 1.0], [-s, c, 0.0]) == 0.0
  {
    var r0, r1, r2 := [c, s, 0.0], [-s, c, 0.0], [0.0, 0.0, 1.0];
    Dot3(r0, r0);
    Dot3(r1, r1);
    Dot3(r2, r2);
    Dot3(r0, r1);
    Dot3(r1, r0);
    Dot3(r0, r2);
    Dot3(r2, r0);
    Dot3(r1, r2);
    Dot3(r2, r1);
  }

  // ------------------------------------------------------------ preprocess

  /** A fix in receiver units converted to degrees, metres and m/s. */
  function ScaleGps(g: Gps): (s: Gps)
    ensures s.lat == g.lat * 0.0000001 && s.lon == g.lon * 0.0000001
    ensures s.hMSL == g.hMSL * 0.001
    ensures s.velN == g.velN * 0.001 && s.velE == g.velE * 0.001 && s.velD == g.velD * 0.001
    ensures s.hAcc == g.hAcc * 0.001 && s.vAcc == g.vAcc * 0.001 && s.sAcc == g.sAcc * 0.001
    ensures s.(lat := g.lat, lon := g.lon, hMSL := g.hMSL, velN := g.velN, velE := g.velE,
               velD := g.velD, hAcc := g.hAcc, vAcc := g.vAcc, sAcc := g.sAcc) == g
  {
    g.(lat := g.lat * 0.0000001, lon := g.lon * 0.0000001, hMSL := g.hMSL * 0.001,
       velN := g.velN * 0.001, velE := g.velE * 0.001, velD := g.velD * 0.001,
       hAcc := g.hAcc * 0.001, vAcc := g.vAcc * 0.001, sAcc := g.sAcc * 0.001)
  }

  /** Scales the fix in place (the record is passed by reference). */
  method GpsPreprocess(gps: Gps) returns (g: Gps)
    ensures g == ScaleGps(gps)
  {
    g := gps;
    g := g.(lat := g.lat * 0.0000001);
    g := g.(lon := g.lon * 0.0000001);
    g := g.(hMSL := g.hMSL * 0.001);
    g := g.(velN := g.velN * 0.001);
    g := g.(velE := g.velE * 0.001);
    g := g.(velD := g.velD * 0.001);
    g := g.(hAcc := g.hAcc * 0.001);
    g := g.(vAcc := g.vAcc * 0.001);
    g := g.(sAcc := g.sAcc * 0.001);
  }

  /** Heading is 360° minus the sensor's yaw, pitch its negated y angle,
      roll its x angle. */
  function OrientationOfImu(imu: Imu): (o: Orientation)
    ensures o.heading + imu.eulerZ == 360.0 && o.pitch + imu.eulerY == 0.0 && o.roll == imu.eulerX
  {
    Orientation(360.0 - imu.eulerZ, -imu.eulerY, imu.eulerX)
  }

  /** The IMU record after preprocessing: the acceleration rotated by the
      heading's yaw-only matrix, the angles untouched. */
  function RotateImu(trig: Trig, imu: Imu): (r: Imu)
    ensures r.(linearAccelX := imu.linearAccelX, linearAccelY := imu.linearAccelY) == imu
    ensures Imu2Accel(r) == MatVec(Orientation2W2B(trig, OrientationOfImu(imu)), Imu2Accel(imu))
  {
    var W := Orientation2W2B(trig, OrientationOfImu(imu));
    var a := MatVec(W, Imu2Accel(imu));
    Dot3(W[0], Imu2Accel(imu));
    Dot3(W[1], Imu2Accel(imu));
    Dot3(W[2], Imu2Accel(imu));
    imu.(linearAccelX := a[0], linearAccelY := a[1], linearAccelZ := a[2])
  }

  /** Derives the orientation and rotates the acceleration in place. */
  method ImuPreprocess(trig: Trig, imu: Imu, orient: Orientation) returns (imu': Imu, orient': Orientation)
    ensures orient' == OrientationOfImu(imu)
    ensures imu' == RotateImu(trig, imu)
  {
    orient' := orient;
    orient' := orient'.(heading := 360.0 - imu.eulerZ);
    orient' := orient'.(pitch := -imu.eulerY);
    orient' := orient'.(roll := imu.eulerX);
    var world2body := Orientation2W2B(trig, orient');
    var accelWrf := MatVec(world2body, Imu2Accel(imu));
    imu' := imu;
    imu' := imu'.(linearAccelX := accelWrf[0]);
    imu' := imu'.(linearAccelY := accelWrf[1]);
    imu' := imu'.(linearAccelZ := accelWrf[2]);
  }

  /** The rotation is yaw only: z passes through, x and y turn by the heading,
      and where cos² + sin² = 1 the horizontal magnitude is kept. */
  lemma RotateImuYawOnly(trig: Trig, imu: Imu)
    ensures var r := RotateImu(trig, imu);
      var a := Deg2Rad * (360.0 - imu.eulerZ);
      var c, s := trig.cos(a), trig.sin(a);
      r.linearAccelZ == imu.linearAccelZ &&
      r.linearAccelX == c * imu.linearAccelX + s * imu.linearAccelY &&
      r.linearAccelY == -s * imu.linearAccelX + c * imu.linearAccelY &&
      (c * c + s * s == 1.0 ==>
        r.linearAccelX * r.linearAccelX + r.linearAccelY * r.linearAccelY
        == imu.linearAccelX * imu.linearAccelX + imu.linearAccelY * imu.linearAccelY)
  {
    var r := RotateImu(trig, imu);
    var W := Orientation2W2B(trig, OrientationOfImu(imu));
    var u := Imu2Accel(imu);
    Dot3(W[0], u);
    Dot3(W[1], u);
    Dot3(W[2], u);
    assert Imu2Accel(r)[0] == r.linearAccelX;
    assert Imu2Accel(r)[1] == r.linearAccelY;
    assert Imu2Accel(r)[2] == r.linearAccelZ;
    var a := Deg2Rad * (360.0 - imu.eulerZ);
    var c, s := trig.cos(a), trig.sin(a);
    var x, y := imu.linearAccelX, imu.linearAccelY;
    if c * c + s * s == 1.0 {
      calc {
        (c * x + s * y) * (c * x + s * y) + (-s * x + c * y) * (-s * x + c * y);
        (c * c + s * s) * (x * x) + (c * c + s * s) * (y * y);
        x * x + y * y;
      }
    }
  }
}
