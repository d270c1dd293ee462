/** The offline preprocessing of a logged sensor file: every data row (the
    header row is skipped) yields one line of the acceleration input, one of
    the measurement noise diagonal and one of the measurement, with NaN
    placeholders where the row's IMU or GPS fields do not parse. Rows come
    already split into fields, each field parsed or not. */
module LoggedData {
  import opened Records
  import opened SensorPrep

  /** A value written to an output line. */
  datatype Cell = Num(v: real) | NaN

  /** A logged row: each field's parse, None where the text is not a number. */
  type Row = seq<Option<real>>

  const EarthCircumference: real := 40075.0 * 1000.0

  /** The placeholders written when a row's data is not available. */
  const NoAccInput: seq<Cell> := [NaN, NaN, NaN]
  const NoRNoMeasure: seq<Cell> := [NaN, NaN, NaN, NaN, NaN, NaN]

  function Nums(v: seq<real>): (line: seq<Cell>)
    ensures |line| == |v| && forall j :: 0 <= j < |v| ==> line[j] == Num(v[j])
  {
    seq(|v|, j requires 0 <= j < |v| => Num(v[j]))
  }

  function ToRadians(value: real): real {
    value * Pi / 180.0
  }

  /** The rows after the header. */
  function DataRows(data: seq<Row>): seq<Row> {
    if |data| == 0 then [] else data[1..]
  }

  // ------------------------------------------------------------ parsing

  /** All six IMU fields parse: Euler angles in columns 3-5, linear
      acceleration in columns 13-15. */
  predicate ImuParses(row: Row) {
    |row| >= 22 &&
    row[3].Some? && row[4].Some? && row[5].Some? && row[13].Some? && row[14].Some? && row[15].Some?
  }

  function ImuOfRow(row: Row): Imu
    requires ImuParses(row)
  {
    Imu(row[3].value, row[4].value, row[5].value, row[13].value, row[14].value, row[15].value)
  }

  /** All fourteen GPS fields parse. */
  predicate GpsParses(row: Row) {
    |row| >= 22 &&
    row[18].Some? && row[8].Some? && row[17].Some? && row[10].Some? && row[16].Some? &&
    row[12].Some? && row[9].Some? && row[21].Some? && row[20].Some? && row[19].Some? &&
    row[7].Some? && row[11].Some? && row[6].Some? && row[2].Some?
  }

  /** The fix a fully parsed row gives: accuracies, height and velocities in
      metres (×10⁻³), latitude and longitude in degrees (×10⁻⁷), the other
      fields as logged. The three wheel fields are never read from the file. */
  function GpsOfRow(row: Row, extras: Gps): (g: Gps)
    requires GpsParses(row)
    ensures g.fl == extras.fl && g.fr == extras.fr && g.rl == extras.rl
  {
    extras.(vAcc := row[18].value * 0.001, hAcc := row[8].value * 0.001, sAcc := row[17].value * 0.001,
            headAcc := row[10].value, lon := row[16].value * 0.0000001, lat := row[12].value * 0.0000001,
            hMSL := row[9].value * 0.001, velN := row[21].value * 0.001, velE := row[20].value * 0.001,
            velD := row[19].value * 0.001, gSpeed := row[7].value, headMot := row[11].value,
            fixType := row[6].value, epoch := row[2].value)
  }

  /** The IMU try block: the six fields are read in order into the record,
      and the orientation is derived only once all six have parsed. */
  method ReadImu(row: Row, imu: Imu, orientation: Orientation) returns (imu': Imu, orientation': Orientation, available: bool)
    requires |row| >= 22
    ensures available <==> ImuParses(row)
    ensures available ==> imu' == ImuOfRow(row) && orientation' == OrientationOfImu(imu')
    ensures !available ==> orientation' == orientation
  {
    imu', orientation', available := imu, orientation, false;
    if row[3].None? { return; }
    imu' := imu'.(eulerX := row[3].value);
    if row[4].None? { return; }
    imu' := imu'.(eulerY := row[4].value);
    if row[5].None? { return; }
    imu' := imu'.(eulerZ := row[5].value);
    if row[13].None? { return; }
    imu' := imu'.(linearAccelX := row[13].value);
    if row[14].None? { return; }
    imu' := imu'.(linearAccelY := row[14].value);
    if row[15].None? { return; }
    imu' := imu'.(linearAccelZ := row[15].value);
    orientation' := orientation'.(heading := 360.0 - imu'.eulerZ);
    orientation' := orientation'.(pitch := -imu'.eulerY);
    orientation' := orientation'.(roll := imu'.eulerX);
    available := true;
  }

  /** The GPS try block: the fourteen fields are read in order, scaled as
      they are read; the wheel fields are left alone. */
  method ReadGps(row: Row, gps: Gps) returns (gps': Gps, available: bool)
    requires |row| >= 22
    ensures available <==> GpsParses(row)
    ensures available ==> gps' == GpsOfRow(row, gps)
    ensures gps'.fl == gps.fl && gps'.fr == gps.fr && gps'.rl == gps.rl
  {
    gps', available := gps, false;
    if row[18].None? { return; }
    gps' := gps'.(vAcc := row[18].value * 0.001);
    if row[8].None? { return; }
    gps' := gps'.(hAcc := row[8].value * 0.001);
    if row[17].None? { return; }
    gps' := gps'.(sAcc := row[17].value * 0.001);
    if row[10].None? { return; }
    gps' := gps'.(headAcc := row[10].value);
    if row[16].None? { return; }
    gps' := gps'.(lon := row[16].value * 0.0000001);
    if row[12].None? { return; }
    gps' := gps'.(lat := row[12].value * 0.0000001);
    if row[9].None? { return; }
    gps' := gps'.(hMSL := row[9].value * 0.001);
    if row[21].None? { return; }
    gps' := gps'.(velN := row[21].value * 0.001);
    if row[20].None? { return; }
    gps' := gps'.(velE := row[20].value * 0.001);
    if row[19].None? { return; }
    gps' := gps'.(velD := row[19].value * 0.001);
    if row[7].None? { return; }
    gps' := gps'.(gSpeed := row[7].value);
    if row[11].None? { return; }
    gps' := gps'.(headMot := row[11].value);
    if row[6].None? { return; }
    gps' := gps'.(fixType := row[6].value);
    if row[2].None? { return; }
    gps' := gps'.(epoch := row[2].value);
    available := true;
  }

  // ------------------------------------------------------------ per-row values

  /** The acceleration turned into the world frame by the heading alone. */
  function AccelWrf(trig: Trig, heading: real, imu: Imu): (a: seq<real>)
    ensures |a| == 3 && a[2] == imu.linearAccelZ
  {
    var c, s := trig.cos(ToRadians(heading)), trig.sin(ToRadians(heading));
    [c * imu.linearAccelX + s * imu.linearAccelY, -s * imu.linearAccelX + c * imu.linearAccelY, imu.linearAccelZ]
  }

  /** The diagonal of R: each accuracy squared and quartered. */
  function LocalR(g: Gps): (r: seq<real>)
    ensures |r| == 6 && forall j :: 0 <= j < 6 ==> r[j] >= 0.0
  {
    [Square(g.hAcc) * 0.25, Square(g.hAcc) * 0.25, Square(g.vAcc) * 0.25,
     Square(g.sAcc) * 0.25, Square(g.sAcc) * 0.25, Square(g.sAcc) * 0.25]
  }

  function OfflineLatFactor(trig: Trig, g: Gps, ref: Gps): real {
    trig.cos(ToRadians(g.lat + ref.lat) / 2.0)
  }

  /** Position relative to the reference in metres, then the NED velocity
      with the vertical component turned upwards. */
  function Measure(trig: Trig, g: Gps, ref: Gps): (z: seq<real>)
    ensures |z| == 6
  {
    var latFactor := OfflineLatFactor(trig, g, ref);
    [(g.lat - ref.lat) * EarthCircumference / 360.0,
     (g.lon - ref.lon) * EarthCircumference * latFactor / 360.0,
     g.hMSL - ref.hMSL,
     g.velN, g.velE, -g.velD]
  }

  /** The index of the first of rows[..n] whose GPS fields parse. */
  function FirstFix(rows: seq<Row>, n: nat): (r: Option<nat>)
    requires n <= |rows|
    ensures r.Some? ==> r.value < n && GpsParses(rows[r.value])
    decreases n
  {
    if n == 0 then None
    else if FirstFix(rows, n - 1).Some? then FirstFix(rows, n - 1)
    else if GpsParses(rows[n - 1]) then Some(n - 1)
    else None
  }

  /** The reference row is the first parseable one: none before it parses,
      and there is none at all when no reference is found. */
  lemma {:induction false} FirstFixIsFirst(rows: seq<Row>, n: nat)
    requires n <= |rows|
    ensures FirstFix(rows, n).Some? ==> forall j :: 0 <= j < FirstFix(rows, n).value ==> !GpsParses(rows[j])
    ensures FirstFix(rows, n).None? <==> forall j :: 0 <= j < n ==> !GpsParses(rows[j])
    decreases n
  {
    if n > 0 {
      FirstFixIsFirst(rows, n - 1);
    }
  }

  /** Once a reference is found, later rows never change it. */
  lemma {:induction false} FirstFixStays(rows: seq<Row>, n: nat, m: nat)
    requires n <= m <= |rows| && FirstFix(rows, n).Some?
    ensures FirstFix(rows, m) == FirstFix(rows, n)
    decreases m
  {
    if m > n {
      FirstFixStays(rows, n, m - 1);
    }
  }

  // ------------------------------------------------------------ output lines

  /** The acceleration line of a row: the rotated acceleration, or three NaNs. */
  function AccLine(trig: Trig, row: Row): (line: seq<Cell>)
    ensures |line| == 3
  {
    if ImuParses(row) then
      var imu := ImuOfRow(row);
      Nums(AccelWrf(trig, OrientationOfImu(imu).heading, imu))
    else NoAccInput
  }

  /** The noise line of a row: the diagonal of R, or six NaNs. */
  function RLine(row: Row): (line: seq<Cell>)
    ensures |line| == 6
  {
    if GpsParses(row) then Nums(LocalR(GpsOfRow(row, ZeroGps))) else NoRNoMeasure
  }

  /** The measurement line of row k, against the first row up to k whose GPS
      fields parse, or six NaNs. */
  function MeasureLine(trig: Trig, rows: seq<Row>, k: nat): (line: seq<Cell>)
    requires k < |rows|
    ensures |line| == 6
  {
    if GpsParses(rows[k]) then
      var r := FirstFix(rows, k + 1).value;
      Nums(Measure(trig, GpsOfRow(rows[k], ZeroGps), GpsOfRow(rows[r], ZeroGps)))
    else NoRNoMeasure
  }

  /** A line is the NaN placeholder exactly when its row's fields do not all
      parse: a parsed line holds numbers only. */
  lemma PlaceholderExactlyWhenUnparsed(trig: Trig, rows: seq<Row>, k: nat)
    requires k < |rows|
    ensures AccLine(trig, rows[k]) == NoAccInput <==> !ImuParses(rows[k])
    ensures RLine(rows[k]) == NoRNoMeasure <==> !GpsParses(rows[k])
    ensures MeasureLine(trig, rows, k) == NoRNoMeasure <==> !GpsParses(rows[k])
  {
    if ImuParses(rows[k]) {
      assert AccLine(trig, rows[k])[0].Num?;
    }
    if GpsParses(rows[k]) {
      assert RLine(rows[k])[0].Num? && MeasureLine(trig, rows, k)[0].Num?;
    }
  }

  /** R reads only the three accuracies of the fix. */
  lemma LocalRReadsAccuracies(g: Gps, g': Gps)
    requires g.hAcc == g'.hAcc && g.vAcc == g'.vAcc && g.sAcc == g'.sAcc
    ensures LocalR(g) == LocalR(g')
  {
  }

  /** The measurement reads only the fix's position and velocity and the
      reference's position. */
  lemma MeasureReadsPositionAndVelocity(trig: Trig, g: Gps, g': Gps, ref: Gps, ref': Gps)
    requires g.lat == g'.lat && g.lon == g'.lon && g.hMSL == g'.hMSL
    requires g.velN == g'.velN && g.velE == g'.velE && g.velD == g'.velD
    requires ref.lat == ref'.lat && ref.lon == ref'.lon && ref.hMSL == ref'.hMSL
    ensures Measure(trig, g, ref) == Measure(trig, g', ref')
  {
    var z, z' := Measure(trig, g, ref), Measure(trig, g', ref');
    assert OfflineLatFactor(trig, g, ref) == OfflineLatFactor(trig, g', ref');
    assert z[0] == z'[0] && z[1] == z'[1] && z[2] == z'[2] && z[3] == z'[3] && z[4] == z'[4] && z[5] == z'[5];
  }

  /** The lines written for the first n rows, in row order. */
  function AccLines(trig: Trig, rows: seq<Row>, n: nat): (lines: seq<seq<Cell>>)
    requires n <= |rows|
    ensures |lines| == n
    decreases n
  {
    if n == 0 then [] else AccLines(trig, rows, n - 1) + [AccLine(trig, rows[n - 1])]
  }

  function RLines(rows: seq<Row>, n: nat): (lines: seq<seq<Cell>>)
    requires n <= |rows|
    ensures |lines| == n
    decreases n
  {
    if n == 0 then [] else RLines(rows, n - 1) + [RLine(rows[n - 1])]
  }

  function MeasureLines(trig: Trig, rows: seq<Row>, n: nat): (lines: seq<seq<Cell>>)
    requires n <= |rows|
    ensures |lines| == n
    decreases n
  {
    if n == 0 then [] else MeasureLines(trig, rows, n - 1) + [MeasureLine(trig, rows, n - 1)]
  }

  /** Line k of each output belongs to row k: one line per row, none dropped,
      none reordered. */
  lemma {:induction false} LinesAt(trig: Trig, rows: seq<Row>, n: nat, k: nat)
    requires k < n <= |rows|
    ensures AccLines(trig, rows, n)[k] == AccLine(trig, rows[k])
    ensures RLines(rows, n)[k] == RLine(rows[k])
    ensures MeasureLines(trig, rows, n)[k] == MeasureLine(trig, rows, k)
    decreases n
  {
    if k < n - 1 {
      LinesAt(trig, rows, n - 1, k);
    }
  }

  // ------------------------------------------------------------ against the live estimator

  /** The offline acceleration line is what the live estimator feeds the
      filter for the same IMU sample: the yaw-only rotation by the heading. */
  lemma AccLineMatchesLive(trig: Trig, row: Row)
    requires ImuParses(row)
    ensures AccLine(trig, row) == Nums(Imu2Accel(RotateImu(trig, ImuOfRow(row))))
  {
    var imu := ImuOfRow(row);
    RotateImuYawOnly(trig, imu);
    assert ToRadians(OrientationOfImu(imu).heading) == Deg2Rad * (360.0 - imu.eulerZ);
    var a, u := AccelWrf(trig, OrientationOfImu(imu).heading, imu), Imu2Accel(RotateImu(trig, imu));
    assert a[0] == u[0] && a[1] == u[1] && a[2] == u[2];
    assert a == u;
  }

  /** The offline noise line is the diagonal of the live estimator's R. */
  lemma RLineMatchesLive(row: Row)
    requires GpsParses(row)
    ensures forall j :: 0 <= j < 6 ==> RLine(row)[j] == Num(Gps2R(GpsOfRow(row, ZeroGps))[j][j])
  {
    Gps2RIsDiagonal(GpsOfRow(row, ZeroGps));
  }

  /** The offline measurement and latitude factor are the live estimator's,
      for the same scaled fix and reference. */
  lemma MeasureMatchesLive(trig: Trig, g: Gps, ref: Gps)
    ensures OfflineLatFactor(trig, g, ref) == Gps2LatFactor(trig, g, ref)
    ensures Measure(trig, g, ref) == Gps2Meas(g, ref, Gps2LatFactor(trig, g, ref))
  {
    var x, y := ToRadians(g.lat + ref.lat) / 2.0, (g.lat + ref.lat) / 2.0 * Deg2Rad;
    assert x == y;
    assert trig.cos(x) == trig.cos(y);
    assert EarthCircumference == EarthCircumferenceMeters;
    var z, z' := Measure(trig, g, ref), Gps2Meas(g, ref, Gps2LatFactor(trig, g, ref));
    assert z[0] == z'[0] && z[1] == z'[1] && z[2] == z'[2] && z[3] == z'[3] && z[4] == z'[4] && z[5] == z'[5];
  }

  /** The reference row measures zero position against itself, plus its own
      velocity with the vertical turned upwards. */
  lemma ReferenceRowMeasure(trig: Trig, rows: seq<Row>, k: nat)
    requires k < |rows| && FirstFix(rows, k + 1) == Some(k)
    ensures var g := GpsOfRow(rows[k], ZeroGps);
      MeasureLine(trig, rows, k) == Nums([0.0, 0.0, 0.0, g.velN, g.velE, -g.velD])
  {
    var g := GpsOfRow(rows[k], ZeroGps);
    MeasureMatchesLive(trig, g, g);
    MeasOfReference(g, Gps2LatFactor(trig, g, g));
  }

  /** Every later parsed row is measured against that same first row. */
  lemma LaterRowsShareReference(trig: Trig, rows: seq<Row>, r: nat, k: nat)
    requires r <= k < |rows| && FirstFix(rows, r + 1) == Some(r) && GpsParses(rows[k])
    ensures var g, ref := GpsOfRow(rows[k], ZeroGps), GpsOfRow(rows[r], ZeroGps);
      MeasureLine(trig, rows, k) == Nums(Gps2Meas(g, ref, Gps2LatFactor(trig, g, ref)))
  {
    FirstFixStays(rows, r + 1, k + 1);
    MeasureMatchesLive(trig, GpsOfRow(rows[k], ZeroGps), GpsOfRow(rows[r], ZeroGps));
  }

  // ------------------------------------------------------------ the loop

  /** The IMU branch: the rotated acceleration pushed onto the line being built. */
  method PushAccel(trig: Trig, orientation: Orientation, imu: Imu, accInput: seq<real>) returns (accInput': seq<real>)
    ensures accInput' == accInput + AccelWrf(trig, orientation.heading, imu)
  {
    var angle := ToRadians(orientation.heading);
    var w2b := [[trig.cos(angle), trig.sin(angle), 0.0],
                [-trig.sin(angle), trig.cos(angle), 0.0],
                [0.0, 0.0, 1.0]];
    var wrf := [w2b[0][0] * imu.linearAccelX + w2b[0][1] * imu.linearAccelY,
                w2b[1][0] * imu.linearAccelX + w2b[1][1] * imu.linearAccelY,
                imu.linearAccelZ];
    accInput' := accInput;
    for j := 0 to 3
      invariant accInput' == accInput + wrf[..j]
    {
      accInput' := accInput' + [wrf[j]];
    }
    ghost var a := AccelWrf(trig, orientation.heading, imu);
    assert wrf[0] == a[0] && wrf[1] == a[1] && wrf[2] == a[2];
    assert wrf[..3] == wrf == a;
  }

  /** The GPS branch: the lat factor, then R's diagonal and the measurement
      pushed onto the lines being built. */
  method PushFix(trig: Trig, g: Gps, ref: Gps, kalmanR: seq<real>, measure: seq<real>)
    returns (latFactor: real, kalmanR': seq<real>, measure': seq<real>)
    ensures latFactor == OfflineLatFactor(trig, g, ref)
    ensures kalmanR' == kalmanR + LocalR(g) && measure' == measure + Measure(trig, g, ref)
  {
    latFactor := trig.cos(ToRadians(g.lat + ref.lat) / 2.0);
    var relPos := [(g.lat - ref.lat) * EarthCircumference / 360.0,
                   (g.lon - ref.lon) * EarthCircumference * latFactor / 360.0,
                   g.hMSL - ref.hMSL];
    var nedVelocity := [g.velN, g.velE, -g.velD];
    var localR := [Square(g.hAcc) * 0.25, Square(g.hAcc) * 0.25, Square(g.vAcc) * 0.25,
                   Square(g.sAcc) * 0.25, Square(g.sAcc) * 0.25, Square(g.sAcc) * 0.25];
    kalmanR' := kalmanR;
    for j := 0 to 6
      invariant kalmanR' == kalmanR + localR[..j]
    {
      kalmanR' := kalmanR' + [localR[j]];
    }
    assert localR[..6] == LocalR(g);
    var m := [relPos[0], relPos[1], relPos[2], nedVelocity[0], nedVelocity[1], nedVelocity[2]];
    measure' := measure;
    for j := 0 to 6
      invariant measure' == measure + m[..j]
    {
      measure' := measure' + [m[j]];
    }
    ghost var z := Measure(trig, g, ref);
    assert m[0] == z[0] && m[1] == z[1] && m[2] == z[2] && m[3] == z[3] && m[4] == z[4] && m[5] == z[5];
    assert m[..6] == m == z;
  }

  /** The file-scope records the preprocessing reads into and keeps between rows. */
  datatype FileScope = FileScope(imuData: Imu, orientation: Orientation, gpsData: Gps, gpsRef: Gps)

  /** One row up to the writes: both try blocks, then the IMU branch and the
      GPS branch, the reference taken from the first row whose GPS fields
      parse. rows and k place the row in the file, for the reference. The
      lines being built are empty when a row starts. */
  method PreprocessRow(trig: Trig, row: Row, st: FileScope, gpsRefSet: bool, latFactor: real,
                       accInput: seq<real>, kalmanR: seq<real>, measureV: seq<real>,
                       ghost rows: seq<Row>, ghost k: nat)
    returns (st': FileScope, imuAvailable: bool, gpsAvailable: bool, gpsRefSet': bool, latFactor': real,
             accInput': seq<real>, kalmanR': seq<real>, measureV': seq<real>)
    requires k < |rows| && row == rows[k] && |row| >= 22
    requires accInput == [] && kalmanR == [] && measureV == []
    requires gpsRefSet <==> FirstFix(rows, k).Some?
    requires gpsRefSet ==> st.gpsRef == GpsOfRow(rows[FirstFix(rows, k).value], st.gpsData)
    ensures imuAvailable <==> ImuParses(row)
    ensures gpsAvailable <==> GpsParses(row)
    ensures imuAvailable ==> Nums(accInput') == AccLine(trig, row)
    ensures !imuAvailable ==> accInput' == [] && AccLine(trig, row) == NoAccInput
    ensures gpsAvailable ==> Nums(kalmanR') == RLine(row) && Nums(measureV') == MeasureLine(trig, rows, k)
    ensures !gpsAvailable ==> kalmanR' == [] && measureV' == [] &&
                              RLine(row) == NoRNoMeasure && MeasureLine(trig, rows, k) == NoRNoMeasure
    ensures imuAvailable ==> st'.imuData == ImuOfRow(row) && st'.orientation == OrientationOfImu(st'.imuData)
    ensures !imuAvailable ==> st'.orientation == st.orientation
    ensures gpsAvailable ==> st'.gpsData == GpsOfRow(row, st.gpsData) &&
                             latFactor' == OfflineLatFactor(trig, st'.gpsData, st'.gpsRef)
    ensures !gpsAvailable ==> latFactor' == latFactor && st'.gpsRef == st.gpsRef
    ensures st'.gpsData.fl == st.gpsData.fl && st'.gpsData.fr == st.gpsData.fr && st'.gpsData.rl == st.gpsData.rl
    ensures gpsRefSet' <==> FirstFix(rows, k + 1).Some?
    ensures gpsRefSet' ==> st'.gpsRef == GpsOfRow(rows[FirstFix(rows, k + 1).value], st'.gpsData)
  {
    var imuData, orientation, gpsData, gpsRef := st.imuData, st.orientation, st.gpsData, st.gpsRef;
    imuData, orientation, imuAvailable := ReadImu(row, imuData, orientation);
    gpsData, gpsAvailable := ReadGps(row, gpsData);
    assert FirstFix(rows, k + 1) == if FirstFix(rows, k).Some? then FirstFix(rows, k)
                                    else if GpsParses(row) then Some(k) else None;
    gpsRefSet', latFactor', accInput', kalmanR', measureV' := gpsRefSet, latFactor, accInput, kalmanR, measureV;

    if imuAvailable {
      accInput' := PushAccel(trig, orientation, imuData, accInput');
    }
    if gpsAvailable {
      if !gpsRefSet' {
        gpsRef := gpsData;
        gpsRefSet' := true;
      }
      latFactor', kalmanR', measureV' := PushFix(trig, gpsData, gpsRef, kalmanR', measureV');
      var r := FirstFix(rows, k + 1).value;
      LocalRReadsAccuracies(gpsData, GpsOfRow(row, ZeroGps));
      MeasureReadsPositionAndVelocity(trig, gpsData, GpsOfRow(row, ZeroGps), gpsRef, GpsOfRow(rows[r], ZeroGps));
    }
    st' := FileScope(imuData, orientation, gpsData, gpsRef);
  }

  /** The row loop. start holds the file-scope records as the call finds
      them; the three results are the lines written to the acceleration,
      noise and measurement files, which start empty. */
  method PreprocessLoggedData(trig: Trig, data: seq<Row>, start: FileScope)
    returns (accOut: seq<seq<Cell>>, rOut: seq<seq<Cell>>, measureOut: seq<seq<Cell>>)
    requires forall i :: 1 <= i < |data| ==> |data[i]| >= 22
    ensures var rows := DataRows(data);
      accOut == AccLines(trig, rows, |rows|) && rOut == RLines(rows, |rows|) &&
      measureOut == MeasureLines(trig, rows, |rows|)
    ensures var rows := DataRows(data);
      |accOut| == |rows| && |rOut| == |rows| && |measureOut| == |rows| &&
      (forall k :: 0 <= k < |rows| ==> accOut[k] == AccLine(trig, rows[k])) &&
      (forall k :: 0 <= k < |rows| ==> rOut[k] == RLine(rows[k])) &&
      (forall k :: 0 <= k < |rows| ==> measureOut[k] == MeasureLine(trig, rows, k))
  {
    var st := start;
    var latFactor := 1.0;
    var gpsAvailable, imuAvailable, gpsRefSet := true, true, false;
    var accInput: seq<real>, kalmanR: seq<real>, measureV: seq<real> := [], [], [];
    accOut, rOut, measureOut := [], [], [];
    ghost var rows := DataRows(data);
    var i := 1;
    while i < |data|
      invariant 1 <= i && i - 1 <= |rows|
      invariant accInput == [] && kalmanR == [] && measureV == []
      invariant accOut == AccLines(trig, rows, i - 1) && rOut == RLines(rows, i - 1)
      invariant measureOut == MeasureLines(trig, rows, i - 1)
      invariant gpsRefSet <==> FirstFix(rows, i - 1).Some?
      invariant gpsRefSet ==> st.gpsRef == GpsOfRow(rows[FirstFix(rows, i - 1).value], st.gpsData)
    {
      assert data[i] == rows[i - 1];
      st, imuAvailable, gpsAvailable, gpsRefSet, latFactor, accInput, kalmanR, measureV :=
        PreprocessRow(trig, data[i], st, gpsRefSet, latFactor, accInput, kalmanR, measureV, rows, i - 1);

      if imuAvailable {
        accOut := accOut + [Nums(accInput)];
        accInput := [];
      } else {
        accOut := accOut + [NoAccInput];
      }
      if gpsAvailable {
        rOut := rOut + [Nums(kalmanR)];
        measureOut := measureOut + [Nums(measureV)];
        kalmanR := [];
        measureV := [];
      } else {
        rOut := rOut + [NoRNoMeasure];
        measureOut := measureOut + [NoRNoMeasure];
      }
      i := i + 1;
    }
    forall k | 0 <= k < |rows| {
      LinesAt(trig, rows, |rows|, k);
    }
  }
}
