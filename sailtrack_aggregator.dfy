/** The Rust aggregator: a variant of the estimator that scales each GPS
    message into a stored record in place, copies that record into the
    reference once it is a 3D fix, and builds the filter observations from
    the stored pair. The ESKF is opaque, seen as the calls made on it. */
module RustAggregator {
  import opened LinAlg
  import opened RustKalman
  import Records

  /** The GPS mailbox: the latest scaled message, the reference and the
      "new" flag. */
  datatype GpsBox = GpsBox(data: Gps, gpsRef: Gps, newMeasure: bool)

  /** The observations one update hands to the filter. */
  datatype Observation = Observation(
    position: Vec3, velocityXy: Vec2, velocityZ: real,
    posVariance: Matrix, velVariance: Matrix, velZVariance: real)

  /** The stored record after a message: latitude and longitude in degrees,
      height, velocities and the three accuracies in metres; fix type,
      epoch, ground speed, heading and heading accuracy kept from before. */
  function ScaleInto(data: Gps, message: Gps): (d: Gps)
    ensures d.fixType == data.fixType && d.epoch == data.epoch && d.gSpeed == data.gSpeed
    ensures d.headMot == data.headMot && d.headAcc == data.headAcc
    ensures d.lat == message.lat * 0.0000001 && d.lon == message.lon * 0.0000001
  {
    data.(lat := message.lat * 0.0000001, lon := message.lon * 0.0000001,
          hMsl := message.hMsl * 0.001, velN := message.velN * 0.001,
          velE := message.velE * 0.001, velD := message.velD * 0.001,
          hAcc := message.hAcc * 0.001, vAcc := message.vAcc * 0.001,
          sAcc := message.sAcc * 0.001)
  }

  /** The stored record after a sequence of messages. */
  function DataAfter(data: Gps, msgs: seq<Gps>): Gps
    decreases |msgs|
  {
    if |msgs| == 0 then data else DataAfter(ScaleInto(data, msgs[0]), msgs[1..])
  }

  /** No message writes the stored fix type: it stays what it was, so from
      the all-zero start the record is never a 3D fix. */
  lemma {:induction false} FixTypeNeverWritten(data: Gps, msgs: seq<Gps>)
    ensures DataAfter(data, msgs).fixType == data.fixType
    ensures data == ZeroGps ==> DataAfter(data, msgs).fixType != Fix3D
    decreases |msgs|
  {
    if |msgs| > 0 {
      FixTypeNeverWritten(ScaleInto(data, msgs[0]), msgs[1..]);
    }
  }

  /** The observations from the stored pair: position relative to the
      reference, velocities, and variances in which all three position
      entries use the horizontal accuracy. */
  function ObservationOf(box: GpsBox): (o: Observation)
    ensures IsMatrix(o.posVariance, 3, 3) && IsMatrix(o.velVariance, 2, 2)
  {
    var d, r := box.data, box.gpsRef;
    var h := 0.25 * Square(d.hAcc);
    var s := 0.25 * Square(d.sAcc);
    Observation(
      Vec3((d.lat - r.lat) * EarthCircumference / 360.0,
           (d.lon - r.lon) * EarthCircumference * LatFactor / 360.0,
           d.hMsl - r.hMsl),
      Vec2(d.velN, d.velE),
      -d.velD,
      [[h, 0.0, 0.0], [0.0, h, 0.0], [0.0, 0.0, h]],
      MatScale(s, Identity(2)),
      s)
  }

  /** With the record equal to the reference the position is the origin;
      the vertical velocity is the downward one negated. */
  lemma ObservationOfReference(box: GpsBox)
    requires box.data == box.gpsRef
    ensures ObservationOf(box).position == Vec3(0.0, 0.0, 0.0)
    ensures ObservationOf(box).velocityZ == -box.data.velD
  {
  }

  /** The position variance is diagonal with the horizontal accuracy in all
      three entries; the velocity variance is the speed accuracy times the
      2×2 identity, and the vertical one the same scalar. */
  lemma ObservationVariances(box: GpsBox)
    ensures var o := ObservationOf(box);
      var h, s := 0.25 * Square(box.data.hAcc), 0.25 * Square(box.data.sAcc);
      IsDiagonal(o.posVariance) &&
      o.posVariance[0][0] == h && o.posVariance[1][1] == h && o.posVariance[2][2] == h &&
      o.velVariance == [[s, 0.0], [0.0, s]] && o.velZVariance == s
  {
    var o := ObservationOf(box);
    var s := 0.25 * Square(box.data.sAcc);
    assert o.velVariance[0] == [s, 0.0] && o.velVariance[1] == [0.0, s];
  }

  /** Against the estimator: for a record and reference scaled from
      messages m and ref, the observations are those of the estimator's
      measurement of m against ref, except the vertical position variance,
      which takes the horizontal accuracy instead of the vertical one. */
  lemma ObservationMatchesEstimator(before: Gps, beforeRef: Gps, m: Gps, ref: Gps, flag: bool)
    ensures var o := ObservationOf(GpsBox(ScaleInto(before, m), ScaleInto(beforeRef, ref), flag));
      var e := MeasureFromGps(m, ref);
      o.position == e.position && o.velocityXy == e.velocityXy && o.velocityZ == e.velocityZ &&
      o.velVariance == e.velVariance && o.velZVariance == e.velZVariance &&
      o.posVariance[0] == e.posVariance[0] && o.posVariance[1] == e.posVariance[1] &&
      o.posVariance[2][2] == 0.25 * Square(m.hAcc * 0.001)
  {
  }

  /** The calls one aggregator tick makes: always a predict with the stored
      input, then both observations when the measurement is new. */
  function AggregatorTickCalls(input: Input, box: GpsBox): seq<EskfCall> {
    var o := ObservationOf(box);
    [EskfPredict(input.acceleration, input.rotation, SampleTimeMs)] +
    (if box.newMeasure then
       [ObservePositionVelocity2d(o.position, o.posVariance, o.velocityXy, o.velVariance),
        ObserveHeight(o.velocityZ, o.velZVariance)]
     else [])
  }

  /** The tick always predicts first, so it never updates without
      predicting; it observes exactly when the measurement is new. Where
      only the measurement is new the estimator's tick skips the predict,
      and this one does not. */
  lemma AggregatorAlwaysPredicts(input: Input, box: GpsBox, measure: Measure)
    ensures var calls := AggregatorTickCalls(input, box);
      calls[0].EskfPredict? &&
      ((exists c :: c in calls && c.ObserveHeight?) <==> box.newMeasure) &&
      |calls| == if box.newMeasure then 3 else 1
    ensures measure.newMeasure && !input.newInput ==> !TickCalls(input, measure)[0].EskfPredict?
  {
    var calls := AggregatorTickCalls(input, box);
    if box.newMeasure {
      assert calls[2].ObserveHeight?;
    } else {
      assert calls == [EskfPredict(input.acceleration, input.rotation, SampleTimeMs)];
    }
  }

  /** The record the aggregator publishes: the speed is the norm of the
      filter's 3-D velocity in metres per second, the course the atan2 of its
      horizontal part in degrees, heading, pitch and roll are the filter's
      Euler angles, and every other field is zero. The position the thread
      rotates by the heading is not published. */
  function AggregatorBoat(trig: Records.Trig, velocity: Vec3, roll: real, pitch: real, heading: real): (b: Boat)
    ensures b.lon == 0.0 && b.lat == 0.0 && b.altitude == 0.0 && b.ascensionSpeed == 0.0 && b.drift == 0.0
    ensures b.heading == heading && b.pitch == pitch && b.roll == roll
  {
    var sog := trig.sqrt(Square(velocity.x) + Square(velocity.y) + Square(velocity.z));
    var cog := ToDegrees(trig.atan2(velocity.y, velocity.x));
    Boat(0.0, 0.0, cog, sog, 0.0, 0.0, heading, pitch, roll, 0.0)
  }

  /** Against the estimator's record for the same filter state: the same
      angles, a speed in metres per second where the estimator's is in
      knots, and, for a boat the estimator sees moving, a course the
      estimator's equals once unwrapped into [0, 360). */
  lemma AggregatorBoatAgainstEstimator(trig: Records.Trig, position: Vec3, velocity: Vec3,
                                       roll: real, pitch: real, heading: real, ref: Gps)
    ensures var b := AggregatorBoat(trig, velocity, roll, pitch, heading);
      var e := PublishBoat(trig, position, velocity, roll, pitch, heading, ref);
      b.heading == e.heading && b.pitch == e.pitch && b.roll == e.roll &&
      b.sog * MpsToKnots == e.sog &&
      (e.sog > 1.0 ==> AngleUnwrap(b.cog) == e.cog)
  {
  }

  /** The shared state of the aggregator: the GPS and input mailboxes and
      the opaque filter, seen as the calls made on it. */
  class Aggregator {
    var box: GpsBox
    var input: Input
    var filterCalls: seq<EskfCall>

    constructor ()
      ensures box == GpsBox(ZeroGps, ZeroGps, false)
      ensures input == Input(Vec3(0.0, 0.0, 0.0), Vec3(0.0, 0.0, 0.0), false)
      ensures filterCalls == []
    {
      box := GpsBox(ZeroGps, ZeroGps, false);
      input := Input(Vec3(0.0, 0.0, 0.0), Vec3(0.0, 0.0, 0.0), false);
      filterCalls := [];
    }

    /** Scales the message into the stored record field by field and marks
        it new; the reference is untouched. */
    method OnMessageGps(message: Gps)
      modifies this`box
      ensures box == old(box).(data := ScaleInto(old(box).data, message), newMeasure := true)
    {
      box := box.(data := box.data.(lat := message.lat * 0.0000001));
      box := box.(data := box.data.(lon := message.lon * 0.0000001));
      box := box.(data := box.data.(hMsl := message.hMsl * 0.001));
      box := box.(data := box.data.(velN := message.velN * 0.001));
      box := box.(data := box.data.(velE := message.velE * 0.001));
      box := box.(data := box.data.(velD := message.velD * 0.001));
      box := box.(data := box.data.(hAcc := message.hAcc * 0.001));
      box := box.(data := box.data.(vAcc := message.vAcc * 0.001));
      box := box.(data := box.data.(sAcc := message.sAcc * 0.001));
      box := box.(newMeasure := true);
    }

    /** One pass of the fix check: copies the record into the reference
        exactly when the record is a 3D fix. */
    method FixCheck() returns (fixed: bool)
      modifies this`box
      ensures fixed <==> old(box).data.fixType == Fix3D
      ensures box == if fixed then old(box).(gpsRef := old(box).data) else old(box)
    {
      fixed := box.data.fixType == Fix3D;
      if fixed {
        box := box.(gpsRef := box.data);
      }
    }

    /** One filter tick: predict, observe and clear both flags when the
        measurement is new; otherwise predict and clear the input flag. The
        middle "update only" branch needs a new measurement, which the first
        branch has already taken, so it is never reached. */
    method FilterTick()
      modifies this`box, this`input, this`filterCalls
      ensures filterCalls == old(filterCalls) + AggregatorTickCalls(old(input), old(box))
      ensures box == old(box).(newMeasure := false) && input == old(input).(newInput := false)
    {
      if box.newMeasure {
        filterCalls := filterCalls + [EskfPredict(input.acceleration, input.rotation, SampleTimeMs)];
        var o := ObservationOf(box);
        filterCalls := filterCalls + [ObservePositionVelocity2d(o.position, o.posVariance, o.velocityXy, o.velVariance)];
        filterCalls := filterCalls + [ObserveHeight(o.velocityZ, o.velZVariance)];
        box := box.(newMeasure := false);
        input := input.(newInput := false);
      } else if !input.newInput && box.newMeasure {
        assert false;
      } else {
        filterCalls := filterCalls + [EskfPredict(input.acceleration, input.rotation, SampleTimeMs)];
        input := input.(newInput := false);
      }
    }
  }
}
