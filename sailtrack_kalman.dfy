/** The Rust estimator built on an external error-state Kalman filter (ESKF):
    the measurement it builds from a raw GPS message, the reference-fix rule,
    the two message handlers, the filter thread's three-way tick and the
    publish arithmetic. The ESKF itself is opaque: the model records the
    calls made on it, in order. */
module RustKalman {
  import opened LinAlg
  import Records

  const MpsToKnots: real := 1.94384
  const EarthCircumference: real := 40075.0 * 1000.0
  const SampleTimeMs: int := 200
  /** The latitude factor is the constant 1 here. */
  const LatFactor: real := 1.0
  /** The fix type of a 3D fix. */
  const Fix3D: int := 3

  datatype Vec2 = Vec2(x: real, y: real)
  datatype Vec3 = Vec3(x: real, y: real, z: real)

  datatype Euler = Euler(x: real, y: real, z: real)
  datatype Imu = Imu(euler: Euler, linearAccel: Vec3)

  /** A GPS message as received: degrees·1e7, millimetres and mm/s. */
  datatype Gps = Gps(
    fixType: int, epoch: int, lon: real, lat: real, hMsl: real, hAcc: real, vAcc: real,
    velN: real, velE: real, velD: real, gSpeed: real, headMot: real, sAcc: real, headAcc: real)

  const ZeroGps: Gps := Gps(0, 0, 0.0, 0.0, 0.0, 0.0, 0.0, 0.0, 0.0, 0.0, 0.0, 0.0, 0.0, 0.0)

  /** A filter measurement and its variances, with its "new" flag. */
  datatype Measure = Measure(
    position: Vec3, velocityXy: Vec2, velocityZ: real,
    posVariance: Matrix, velVariance: Matrix, velZVariance: real, newMeasure: bool)

  /** A filter input: body acceleration and rotation angles, with its "new" flag. */
  datatype Input = Input(acceleration: Vec3, rotation: Vec3, newInput: bool)

  datatype Boat = Boat(
    lon: real, lat: real, cog: real, sog: real, altitude: real,
    ascensionSpeed: real, heading: real, pitch: real, roll: real, drift: real)

  /** A call made on the opaque ESKF. */
  datatype EskfCall =
    | EskfPredict(acceleration: Vec3, rotation: Vec3, sampleTimeMs: int)
    | ObservePositionVelocity2d(position: Vec3, posVariance: Matrix, velocityXy: Vec2, velVariance: Matrix)
    | ObserveHeight(height: real, variance: real)

  function Square(x: real): real {
    x * x
  }

  // ------------------------------------------------------------ the measurement

  /** The measurement of message m against reference ref: position in
      metres north, east and up of the reference, velocity north and east,
      vertical velocity upwards; each accuracy read as two standard
      deviations. */
  function MeasureFromGps(m: Gps, ref: Gps): (r: Measure)
    ensures IsMatrix(r.posVariance, 3, 3) && IsMatrix(r.velVariance, 2, 2)
  {
    var h := 0.25 * Square(m.hAcc * 0.001);
    var v := 0.25 * Square(m.vAcc * 0.001);
    var s := 0.25 * Square(m.sAcc * 0.001);
    Measure(
      Vec3((m.lat * 0.0000001 - ref.lat * 0.0000001) * EarthCircumference / 360.0,
           (m.lon * 0.0000001 - ref.lon * 0.0000001) * EarthCircumference * LatFactor / 360.0,
           m.hMsl * 0.001 - ref.hMsl * 0.001),
      Vec2(m.velN * 0.001, m.velE * 0.001),
      -m.velD * 0.001,
      [[h, 0.0, 0.0], [0.0, h, 0.0], [0.0, 0.0, v]],
      MatScale(s, Identity(2)),
      s,
      true)
  }

  /** A message measured against itself is at the origin; the vertical
      velocity is the downward one negated, in m/s; the measurement is new. */
  lemma MeasureOfReference(m: Gps)
    ensures MeasureFromGps(m, m).position == Vec3(0.0, 0.0, 0.0)
    ensures MeasureFromGps(m, m).velocityZ == -m.velD * 0.001
    ensures MeasureFromGps(m, m).newMeasure
  {
  }

  /** The variances: the position one diagonal with the horizontal accuracy
      twice and the vertical once, zero elsewhere; the horizontal velocity
      one the speed accuracy times the 2×2 identity; the vertical velocity
      variance the same scalar. All are non-negative. */
  lemma MeasureVariances(m: Gps, ref: Gps)
    ensures var r := MeasureFromGps(m, ref);
      var h, v, s := 0.25 * Square(m.hAcc * 0.001), 0.25 * Square(m.vAcc * 0.001), 0.25 * Square(m.sAcc * 0.001);
      IsDiagonal(r.posVariance) &&
      r.posVariance[0][0] == h && r.posVariance[1][1] == h && r.posVariance[2][2] == v &&
      r.velVariance == [[s, 0.0], [0.0, s]] && r.velZVariance == s &&
      h >= 0.0 && v >= 0.0 && s >= 0.0
  {
    var r := MeasureFromGps(m, ref);
    var s := 0.25 * Square(m.sAcc * 0.001);
    assert r.velVariance[0] == [s, 0.0] && r.velVariance[1] == [0.0, s];
  }

  // ------------------------------------------------------------ the reference rule

  /** A GPS message replaces the reference until the reference is a 3D fix. */
  function NextRef(ref: Gps, m: Gps): (r: Gps)
    ensures ref.fixType == Fix3D ==> r == ref
    ensures ref.fixType != Fix3D ==> r == m
  {
    if ref.fixType != Fix3D then m else ref
  }

  /** The reference after a sequence of messages. */
  function RefAfter(ref: Gps, msgs: seq<Gps>): Gps
    decreases |msgs|
  {
    if |msgs| == 0 then ref else RefAfter(NextRef(ref, msgs[0]), msgs[1..])
  }

  /** The index of the first 3D fix among msgs, if any. */
  function FirstFix3D(msgs: seq<Gps>): (r: Records.Option<nat>)
    ensures r.Some? ==> r.value < |msgs| && msgs[r.value].fixType == Fix3D &&
                        forall j :: 0 <= j < r.value ==> msgs[j].fixType != Fix3D
    ensures r.None? ==> forall j :: 0 <= j < |msgs| ==> msgs[j].fixType != Fix3D
    decreases |msgs|
  {
    if |msgs| == 0 then Records.None
    else if msgs[0].fixType == Fix3D then Records.Some(0)
    else match FirstFix3D(msgs[1..]) case None => Records.None case Some(i) => Records.Some(i + 1)
  }

  /** Once the reference is a 3D fix it is frozen. Until then every message
      overwrites it: it ends as the first 3D fix received, or as the last
      message when none was a 3D fix. */
  lemma {:induction false} RefRule(ref: Gps, msgs: seq<Gps>)
    ensures ref.fixType == Fix3D ==> RefAfter(ref, msgs) == ref
    ensures ref.fixType != Fix3D && FirstFix3D(msgs).Some? ==> RefAfter(ref, msgs) == msgs[FirstFix3D(msgs).value]
    ensures ref.fixType != Fix3D && FirstFix3D(msgs).None? && |msgs| > 0 ==> RefAfter(ref, msgs) == msgs[|msgs| - 1]
    decreases |msgs|
  {
    if |msgs| > 0 {
      RefRule(NextRef(ref, msgs[0]), msgs[1..]);
      if ref.fixType != Fix3D && FirstFix3D(msgs).Some? && FirstFix3D(msgs).value > 0 {
        assert FirstFix3D(msgs).value == FirstFix3D(msgs[1..]).value + 1;
      }
    }
  }

  /** The message that sets the reference is measured at the origin. */
  lemma ReferenceMessageAtOrigin(ref: Gps, m: Gps)
    requires ref.fixType != Fix3D
    ensures MeasureFromGps(m, NextRef(ref, m)).position == Vec3(0.0, 0.0, 0.0)
  {
    MeasureOfReference(m);
  }

  // ------------------------------------------------------------ the tick

  /** The calls one filter tick makes: predict with the stored input unless
      only the measurement is new, then both observations if the measurement
      is new. */
  function TickCalls(input: Input, measure: Measure): seq<EskfCall> {
    (if measure.newMeasure && !input.newInput then []
     else [EskfPredict(input.acceleration, input.rotation, SampleTimeMs)]) +
    (if measure.newMeasure then
       [ObservePositionVelocity2d(measure.position, measure.posVariance, measure.velocityXy, measure.velVariance),
        ObserveHeight(measure.velocityZ, measure.velZVariance)]
     else [])
  }

  /** The filter is updated exactly when the measurement is new, and then
      after any predict; it predicts exactly when the input is new or the
      measurement is not; and the height it observes is the vertical
      velocity of the measurement. */
  lemma TickCallsOrder(input: Input, measure: Measure)
    ensures var calls := TickCalls(input, measure);
      ((exists c :: c in calls && c.ObserveHeight?) <==> measure.newMeasure) &&
      ((exists c :: c in calls && c.EskfPredict?) <==> (input.newInput || !measure.newMeasure)) &&
      (measure.newMeasure ==> calls[|calls| - 1] == ObserveHeight(measure.velocityZ, measure.velZVariance)) &&
      (input.newInput || !measure.newMeasure ==> calls[0].EskfPredict?) &&
      1 <= |calls| <= 3
  {
    var calls := TickCalls(input, measure);
    if measure.newMeasure {
      assert calls[|calls| - 1].ObserveHeight?;
    } else {
      assert calls == [EskfPredict(input.acceleration, input.rotation, SampleTimeMs)];
    }
    if input.newInput || !measure.newMeasure {
      assert calls[0].EskfPredict?;
    } else {
      assert calls[0].ObservePositionVelocity2d? && calls[1].ObserveHeight?;
    }
  }

  /** The shared state of the estimator: the reference, the measurement and
      input mailboxes and the opaque filter, seen as the calls made on it. */
  class KalmanNode {
    var gpsRef: Gps
    var measure: Measure
    var input: Input
    var filterCalls: seq<EskfCall>

    constructor ()
      ensures gpsRef == ZeroGps && input == Input(Vec3(0.0, 0.0, 0.0), Vec3(0.0, 0.0, 0.0), false)
      ensures measure == Measure(Vec3(0.0, 0.0, 0.0), Vec2(0.0, 0.0), 0.0, Zero(3, 3), Zero(2, 2), 0.0, false)
      ensures filterCalls == []
    {
      gpsRef := ZeroGps;
      measure := Measure(Vec3(0.0, 0.0, 0.0), Vec2(0.0, 0.0), 0.0, Zero(3, 3), Zero(2, 2), 0.0, false);
      input := Input(Vec3(0.0, 0.0, 0.0), Vec3(0.0, 0.0, 0.0), false);
      filterCalls := [];
    }

    /** Stores the acceleration and the rotation (x, −y, 360 − z) as new. */
    method OnMessageImu(message: Imu)
      modifies this`input
      ensures input.newInput && input.acceleration == message.linearAccel
      ensures input.rotation == Vec3(message.euler.x, -message.euler.y, 360.0 - message.euler.z)
    {
      var accel := Vec3(message.linearAccel.x, message.linearAccel.y, message.linearAccel.z);
      var orientation := Vec3(message.euler.x, -message.euler.y, 360.0 - message.euler.z);
      input := input.(newInput := true);
      input := input.(acceleration := accel);
      input := input.(rotation := orientation);
    }

    /** Replaces the reference unless it is already a 3D fix, then stores the
        message's measurement against the (possibly new) reference. */
    method OnMessageGps(message: Gps)
      modifies this`gpsRef, this`measure
      ensures gpsRef == NextRef(old(gpsRef), message)
      ensures measure == MeasureFromGps(message, gpsRef) && measure.newMeasure
    {
      if gpsRef.fixType != Fix3D {
        gpsRef := message;
      }
      var m := MeasureFromGps(message, gpsRef);
      measure := m;
    }

    method FilterPredict()
      modifies this`filterCalls, this`input
      ensures filterCalls == old(filterCalls) + [EskfPredict(old(input).acceleration, old(input).rotation, SampleTimeMs)]
      ensures input == old(input).(newInput := false)
    {
      filterCalls := filterCalls + [EskfPredict(input.acceleration, input.rotation, SampleTimeMs)];
      input := input.(newInput := false);
    }

    method FilterUpdate()
      modifies this`filterCalls, this`measure
      ensures filterCalls == old(filterCalls) +
        [ObservePositionVelocity2d(old(measure).position, old(measure).posVariance, old(measure).velocityXy, old(measure).velVariance),
         ObserveHeight(old(measure).velocityZ, old(measure).velZVariance)]
      ensures measure == old(measure).(newMeasure := false)
    {
      filterCalls := filterCalls + [ObservePositionVelocity2d(measure.position, measure.posVariance, measure.velocityXy, measure.velVariance)];
      filterCalls := filterCalls + [ObserveHeight(measure.velocityZ, measure.velZVariance)];
      measure := measure.(newMeasure := false);
    }

    /** One filter tick: predict and update, update only, or predict only.
        Afterwards neither mailbox is new. */
    method FilterTick()
      modifies this`filterCalls, this`input, this`measure
      ensures filterCalls == old(filterCalls) + TickCalls(old(input), old(measure))
      ensures input == old(input).(newInput := false) && measure == old(measure).(newMeasure := false)
      ensures !input.newInput && !measure.newMeasure
    {
      if measure.newMeasure && input.newInput {
        FilterPredict();
        FilterUpdate();
      } else if !input.newInput && measure.newMeasure {
        FilterUpdate();
      } else {
        FilterPredict();
      }
    }
  }

  // ------------------------------------------------------------ angles

  /** Truncation toward zero. */
  function Trunc(q: real): (k: int)
    ensures q >= 0.0 ==> k as real <= q < k as real + 1.0
    ensures q < 0.0 ==> k as real - 1.0 < q <= k as real
  {
    if q >= 0.0 then q.Floor else -((-q).Floor)
  }

  /** The angle a moved by k whole turns. */
  function Turned(a: real, k: int): real {
    a + 360.0 * k as real
  }

  /** The floating-point remainder by 360: its sign is the dividend's. */
  function Rem360(a: real): (r: real)
    ensures a >= 0.0 ==> 0.0 <= r < 360.0
    ensures a < 0.0 ==> -360.0 < r <= 0.0
    ensures exists k: int :: r == Turned(a, k)
  {
    var k := Trunc(a / 360.0);
    assert a - 360.0 * k as real == Turned(a, -k);
    a - 360.0 * k as real
  }

  function AngleWrap180(angle: real): real {
    Rem360(angle + 180.0) - 180.0
  }

  function AngleUnwrap(angle: real): real {
    var unwrapped := Rem360(angle);
    if unwrapped < 0.0 then unwrapped + 360.0 else unwrapped
  }

  /** Unwrapping lands in [0, 360) and moves the angle by whole turns only. */
  lemma AngleUnwrapRange(angle: real)
    ensures 0.0 <= AngleUnwrap(angle) < 360.0
    ensures exists k: int :: AngleUnwrap(angle) == Turned(angle, k)
  {
    var r := Rem360(angle);
    var k: int :| r == Turned(angle, k);
    if r < 0.0 {
      assert AngleUnwrap(angle) == Turned(angle, k + 1);
    } else {
      assert AngleUnwrap(angle) == Turned(angle, k);
    }
  }

  /** Wrapping takes [−180, 360) into [−180, 180), and keeps [−180, 180) as it is. */
  lemma AngleWrap180Range(angle: real)
    requires -180.0 <= angle < 360.0
    ensures -180.0 <= AngleWrap180(angle) < 180.0
    ensures angle < 180.0 ==> AngleWrap180(angle) == angle
  {
    var a := angle + 180.0;
    assert 0.0 <= a / 360.0 < 1.5;
    if angle < 180.0 {
      assert Trunc(a / 360.0) == 0;
    } else {
      assert Trunc(a / 360.0) == 1;
    }
  }

  /** Below −180 the wrap does not bring the angle back into range. */
  lemma AngleWrap180BelowRange()
    ensures AngleWrap180(-270.0) == -270.0
  {
    assert Trunc(-90.0 / 360.0) == 0;
  }

  // ------------------------------------------------------------ publish

  /** The drift for a moving boat, with the wrap condition as written: one
      turn minus the gap whenever the two angles' magnitudes add up to more
      than 180, negated when the heading is the larger. */
  function MovingDrift(heading: real, cog: real): real {
    var cog180 := AngleWrap180(cog);
    var head180 := AngleWrap180(heading);
    var d := if head180 - cog180 < 0.0 then cog180 - head180 else head180 - cog180;
    var d' := if Abs(head180) + Abs(cog180) > 180.0 then 360.0 - d else d;
    if head180 > cog180 then -d' else d'
  }

  function Abs(x: real): real {
    if x < 0.0 then -x else x
  }

  function ToDegrees(radians: real): real {
    radians * 180.0 / Records.Pi
  }

  /** The published record for the filter's position, velocity and Euler
      angles, against the reference message. */
  function PublishBoat(trig: Records.Trig, position: Vec3, velocity: Vec3, roll: real, pitch: real, heading: real, ref: Gps): (b: Boat)
    ensures b.sog <= 1.0 ==> b.drift == 0.0 && b.cog == heading
    ensures b.sog > 1.0 ==> b.cog == AngleUnwrap(ToDegrees(trig.atan2(velocity.y, velocity.x))) &&
                            b.drift == MovingDrift(heading, b.cog)
  {
    var sog := trig.sqrt(Square(velocity.x) + Square(velocity.y) + Square(velocity.z)) * MpsToKnots;
    var cog := if sog > 1.0 then AngleUnwrap(ToDegrees(trig.atan2(velocity.y, velocity.x))) else heading;
    var drift := if sog > 1.0 then MovingDrift(heading, cog) else 0.0;
    var lat := position.x * 360.0 / EarthCircumference / LatFactor + ref.lat * 0.0000001;
    var lon := position.y * 360.0 / EarthCircumference + ref.lon * 0.0000001;
    var altitude := position.z + ref.hMsl * 0.001;
    Boat(lon, lat, cog, sog, altitude, velocity.z, heading, pitch, roll, drift)
  }

  /** For a moving boat the course is in [0, 360), and the drift is negative
      exactly when the wrapped heading is the larger, as long as the heading
      lies in [−180, 360). */
  lemma MovingDriftSign(trig: Records.Trig, position: Vec3, velocity: Vec3, roll: real, pitch: real, heading: real, ref: Gps)
    requires -180.0 <= heading < 360.0
    ensures var b := PublishBoat(trig, position, velocity, roll, pitch, heading, ref);
      b.sog > 1.0 ==>
        0.0 <= b.cog < 360.0 &&
        (AngleWrap180(heading) > AngleWrap180(b.cog) ==> b.drift < 0.0) &&
        (AngleWrap180(heading) <= AngleWrap180(b.cog) ==> b.drift >= 0.0)
  {
    var b := PublishBoat(trig, position, velocity, roll, pitch, heading, ref);
    if b.sog > 1.0 {
      AngleUnwrapRange(ToDegrees(trig.atan2(velocity.y, velocity.x)));
      AngleWrap180Range(b.cog);
      AngleWrap180Range(heading);
    }
  }

  /** The wrap condition tests the magnitudes' sum, not the gap: a heading of
      100 and a course of 90 give a drift of −350 rather than −10. */
  lemma MovingDriftWrapAsWritten()
    ensures MovingDrift(100.0, 90.0) == -350.0
  {
    AngleWrap180Range(100.0);
    AngleWrap180Range(90.0);
  }

  /** The translation inverts the measurement exactly (the latitude factor
      is 1): publishing a measured position gives back the message's
      latitude and longitude in degrees and its height in metres. */
  lemma PositionRoundTrip(trig: Records.Trig, m: Gps, ref: Gps, velocity: Vec3, roll: real, pitch: real, heading: real)
    ensures var b := PublishBoat(trig, MeasureFromGps(m, ref).position, velocity, roll, pitch, heading, ref);
      b.lat == m.lat * 0.0000001 && b.lon == m.lon * 0.0000001 && b.altitude == m.hMsl * 0.001
  {
    var p := MeasureFromGps(m, ref).position;
    var C := EarthCircumference;
    assert p.x * 360.0 / C == m.lat * 0.0000001 - ref.lat * 0.0000001;
    assert p.y * 360.0 / C == m.lon * 0.0000001 - ref.lon * 0.0000001;
  }
}
