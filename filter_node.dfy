/** The C++ estimator process: the GPS and IMU callbacks, one iteration of the
    filter loop and one iteration of the publishing loop, over the state they
    share. The callbacks and each loop step run here one at a time, and each
    mailbox operation is atomic; transport, JSON and the threads are left out. */
module FilterNode {
  import opened LinAlg
  import opened Kalman
  import opened Model
  import opened FixedFilter
  import opened Records
  import opened SensorPrep
  import opened Publish
  import opened Mailbox

  const PublishIntervalMs: nat := 200

  /** The reference is captured from the first GPS message and kept. */
  function CaptureRef(ref: Option<Gps>, g: Gps): (r: Option<Gps>)
    ensures r.Some?
    ensures ref.Some? ==> r == ref
    ensures ref.None? ==> r == Some(g)
  {
    if ref.None? then Some(g) else ref
  }

  /** The reference after a sequence of GPS messages. */
  function RefAfter(ref: Option<Gps>, msgs: seq<GpsMessage>): Option<Gps>
    decreases |msgs|
  {
    if |msgs| == 0 then ref else RefAfter(CaptureRef(ref, GpsOfMessage(msgs[0])), msgs[1..])
  }

  /** The reference is the raw first message, whatever follows it; once
      captured it never changes. */
  lemma {:induction false} ReferenceIsFirstMessage(ref: Option<Gps>, msgs: seq<GpsMessage>)
    ensures ref.Some? ==> RefAfter(ref, msgs) == ref
    ensures ref.None? && |msgs| > 0 ==> RefAfter(ref, msgs) == Some(GpsOfMessage(msgs[0]))
    decreases |msgs|
  {
    if |msgs| > 0 {
      ReferenceIsFirstMessage(CaptureRef(ref, GpsOfMessage(msgs[0])), msgs[1..]);
    }
  }

  /** How many of the calls are time updates. */
  function CountPredicts(calls: seq<Call>): nat
    decreases |calls|
  {
    if |calls| == 0 then 0
    else (if calls[0].PredictCall? || calls[0].PredictInputCall? || calls[0].PredictInputMeasurementCall? then 1 else 0)
         + CountPredicts(calls[1..])
  }

  /** The calls a new GPS fix causes: the noise update, then the correction. */
  function FixCalls(R: Matrix, z: Vector): (calls: seq<Call>)
    ensures |calls| == 2 && calls[0].UpdateNoiseCall? && calls[1].CorrectCall?
    ensures CountPredicts(calls) == 0
  {
    var calls := [UpdateNoiseCall(R), CorrectCall(z)];
    assert calls[1..][1..] == [];
    assert calls[1..] == [CorrectCall(z)];
    assert CountPredicts(calls[1..]) == 0;
    calls
  }

  /** The filter calls of one loop iteration, given the preprocessed
      acceleration, the two "new" flags and the fix's R and measurement: one
      time update, with the acceleration if the IMU sample is new and with
      zero otherwise; then, if and only if the GPS sample is new, the noise
      update and the correction, in that order. */
  function LoopCalls(accel: Vector, imuNew: bool, gpsNew: bool, R: Matrix, z: Vector): seq<Call>
  {
    [PredictInputCall(if imuNew then accel else Zeros(3))] + (if gpsNew then FixCalls(R, z) else [])
  }

  /** One time update, first, with the acceleration if the IMU sample is new
      and with zero otherwise; then a noise update and a correction if and
      only if the GPS sample is new, in that order. */
  lemma LoopCallsOrder(accel: Vector, imuNew: bool, gpsNew: bool, R: Matrix, z: Vector)
    ensures var calls := LoopCalls(accel, imuNew, gpsNew, R, z);
      |calls| >= 1 && CountPredicts(calls) == 1 &&
      calls[0] == PredictInputCall(if imuNew then accel else Zeros(3)) &&
      ((exists i :: 0 <= i < |calls| && calls[i].CorrectCall?) <==> gpsNew) &&
      ((exists i :: 0 <= i < |calls| && calls[i].UpdateNoiseCall?) <==> gpsNew) &&
      calls[1..] == if gpsNew then FixCalls(R, z) else []
  {
    var fix := if gpsNew then FixCalls(R, z) else [];
    var calls := LoopCalls(accel, imuNew, gpsNew, R, z);
    assert calls[1..] == fix;
    assert gpsNew ==> calls[2].CorrectCall? && calls[1].UpdateNoiseCall?;
  }

  /** The calls of one loop iteration from what the two drains return and the
      reference: the acceleration is the rotated one and the fix is scaled. */
  function TickCalls(trig: Trig, gps: Box<Gps>, imu: Box<Imu>, ref: Gps): seq<Call>
  {
    var s := ScaleGps(gps.value);
    LoopCalls(Imu2Accel(RotateImu(trig, imu.value)), imu.isNew, gps.isNew, Gps2R(s), Gps2Meas(s, ref, Gps2LatFactor(trig, s, ref)))
  }

  /** What the drained boxes decide: a stale fix adds no call, a fresh one
      adds the noise update and correction from the scaled fix and the lat
      factor of its latitude and the reference's. */
  lemma TickCallsOfBoxes(trig: Trig, gps: Box<Gps>, imu: Box<Imu>, ref: Gps)
    ensures var calls := TickCalls(trig, gps, imu, ref);
      |calls| >= 1 && (!gps.isNew ==> |calls| == 1) &&
      calls[0] == PredictInputCall(if imu.isNew then Imu2Accel(RotateImu(trig, imu.value)) else Zeros(3)) &&
      (gps.isNew ==>
        var s := ScaleGps(gps.value);
        calls[1..] == FixCalls(Gps2R(s), Gps2Meas(s, ref, Gps2LatFactor(trig, s, ref))))
  {
    var s := ScaleGps(gps.value);
    LoopCallsOrder(Imu2Accel(RotateImu(trig, imu.value)), imu.isNew, gps.isNew, Gps2R(s), Gps2Meas(s, ref, Gps2LatFactor(trig, s, ref)));
  }

  lemma TickCallsUnfold(trig: Trig, gps: Box<Gps>, imu: Box<Imu>, ref: Gps, gpsData: Gps, imuData: Imu, lf: real)
    requires gpsData == ScaleGps(gps.value) && imuData == RotateImu(trig, imu.value) && lf == Gps2LatFactor(trig, gpsData, ref)
    ensures TickCalls(trig, gps, imu, ref) == LoopCalls(Imu2Accel(imuData), imu.isNew, gps.isNew, Gps2R(gpsData), Gps2Meas(gpsData, ref, lf))
  {
  }

  /** A tick with a stale IMU sample predicts exactly as predict() does. */
  lemma StaleImuTickIsPlainPredict(trig: Trig, gps: Box<Gps>, imu: Box<Imu>, ref: Gps, e: Estimate)
    requires !imu.isNew && |e.x| == 6 && IsMatrix(e.P, 6, 6)
    ensures CallOk(FF, FG, FH, FQ, e, TickCalls(trig, gps, imu, ref)[0])
    ensures Step(FF, FG, FH, FQ, e, TickCalls(trig, gps, imu, ref)[0]) == Step(FF, FG, FH, FQ, e, PredictCall)
  {
    Shapes();
    PredictZeroInput(FF, FG, e.x, 3);
  }

  /** The reference is stored raw, in receiver units, while the sample it is
      subtracted from is scaled: the first fix measured against itself is not
      at the origin, its height offset being hMSL·(10⁻³ − 1). */
  lemma RawReferenceOffset(g: Gps, latFactor: real)
    ensures var z := Gps2Meas(ScaleGps(g), g, latFactor);
      z[0] == (g.lat * 0.0000001 - g.lat) * EarthCircumferenceMeters / 360.0 &&
      z[2] == g.hMSL * 0.001 - g.hMSL &&
      (g.hMSL != 0.0 ==> z[2] != 0.0)
  {
  }

  class Estimator {
    var gpsRef: Gps
    var gpsRefSet: bool
    const gpsShared: SharedSample<Gps>
    const imuShared: SharedSample<Imu>
    // the filter loop's own state
    const filter: FixedKalmanFilter
    const filterWake: WakeTimer
    var latFactor: real
    var orient: Orientation
    // what the filter loop hands to the publishing loop
    var xHatShared: Vector
    var orientationShared: Orientation
    var latFactorShared: real
    // the publishing loop's own state
    const publishWake: WakeTimer

    ghost predicate Valid()
      reads this, filter, filterWake, publishWake
    {
      filter.Valid() && filter.n == 6 && filter.m == 3 && filter.p == 6 &&
      |xHatShared| == 6 && filterWake.Valid() && publishWake.Valid() && filterWake != publishWake &&
      publishWake.period == PublishIntervalMs
    }

    /** The filter runs the boat model. Its matrices are constant, so this
        holds from construction on. */
    ghost predicate BoatModel() {
      filter.F == FF && filter.G == FG && filter.H == FH && filter.Q == FQ
    }

    /** The globals value-initialised, the filter built from the boat model
        with x̂₀ = 0 and P₀ = Q, and the filter loop's lat factor 1. */
    constructor (now: int, filterPeriodMs: nat)
      ensures Valid() && BoatModel() && fresh(filter) && fresh(gpsShared) && fresh(imuShared) && fresh(filterWake) && fresh(publishWake)
      ensures !gpsRefSet && gpsRef == ZeroGps
      ensures gpsShared.Contents() == Box(ZeroGps, false) && imuShared.Contents() == Box(ZeroImu, false)
      ensures filter.Snapshot() == Estimate(XInit, PInit, Zero(6, 6))
      ensures latFactor == 1.0 && orient == ZeroOrientation
      ensures xHatShared == Zeros(6) && orientationShared == ZeroOrientation && latFactorShared == 0.0
      ensures filterWake.target == now && filterWake.period == filterPeriodMs
      ensures publishWake.target == now && publishWake.period == PublishIntervalMs
    {
      Shapes();
      NoiseCovarianceValue();
      gpsRef := ZeroGps;
      gpsRefSet := false;
      gpsShared := new SharedSample(ZeroGps);
      imuShared := new SharedSample(ZeroImu);
      filter := new FixedKalmanFilter.WithInit(6, 3, 6, FF, FG, FH, FQ, XInit, PInit);
      filterWake := new WakeTimer(now, filterPeriodMs);
      latFactor := 1.0;
      orient := ZeroOrientation;
      xHatShared := Zeros(6);
      orientationShared := ZeroOrientation;
      latFactorShared := 0.0;
      publishWake := new WakeTimer(now, PublishIntervalMs);
    }

    function Reference(): (r: Option<Gps>)
      reads this
      ensures r.Some? <==> gpsRefSet
      ensures r.Some? ==> r.value == gpsRef
    {
      if gpsRefSet then Some(gpsRef) else None
    }

    /** The GPS callback: the message's nine fields over a zero record,
        captured as the reference if none is set yet, then written to the
        mailbox. */
    method OnGps(msg: GpsMessage)
      modifies this`gpsRef, this`gpsRefSet, gpsShared
      ensures Reference() == CaptureRef(old(Reference()), GpsOfMessage(msg))
      ensures gpsShared.Contents() == WriteBox(old(gpsShared.Contents()), GpsOfMessage(msg))
    {
      var gpsData := GpsOfMessage(msg);
      if !gpsRefSet {
        gpsRef := gpsData;
        gpsRefSet := true;
      }
      gpsShared.Write(gpsData);
    }

    /** The IMU callback: the six fields, written to the mailbox. */
    method OnImu(imu: Imu)
      modifies imuShared
      ensures imuShared.Contents() == WriteBox(old(imuShared.Contents()), imu)
    {
      imuShared.Write(imu);
    }

    /** One iteration of the filter loop: advance the deadline, drain both
        mailboxes, preprocess both samples (stale or not), run the calls of
        TickCalls on the filter and hand the estimate to the publishing loop. */
    method FilterTick(trig: Trig)
      requires Valid()
      requires RunOk(filter.F, filter.G, filter.H, filter.Q, filter.Snapshot(),
                     TickCalls(trig, gpsShared.Contents(), imuShared.Contents(), gpsRef))
      modifies this`latFactor, this`orient, this`xHatShared, this`latFactorShared, this`orientationShared
      modifies gpsShared, imuShared, filter, filterWake
      ensures Valid()
      ensures filter.Snapshot() == Run(filter.F, filter.G, filter.H, filter.Q, old(filter.Snapshot()),
                                       TickCalls(trig, old(gpsShared.Contents()), old(imuShared.Contents()), gpsRef))
      ensures gpsShared.Contents() == DrainBox(old(gpsShared.Contents())).2
      ensures imuShared.Contents() == DrainBox(old(imuShared.Contents())).2
      ensures latFactor == latFactorShared == Gps2LatFactor(trig, ScaleGps(old(gpsShared.value)), gpsRef)
      ensures orient == orientationShared == OrientationOfImu(old(imuShared.value))
      ensures xHatShared == filter.xHat
      ensures filterWake.target == old(filterWake.target) + filterWake.period
    {
      ghost var gps0, imu0 := gpsShared.Contents(), imuShared.Contents();
      filterWake.Advance();
      var gpsData, gpsAvailable, imuData, imuAvailable := ReadAndPreprocess(trig);
      TickCallsUnfold(trig, gps0, imu0, gpsRef, gpsData, imuData, latFactor);
      FilterAndHandOver(Imu2Accel(imuData), imuAvailable, gpsAvailable, Gps2R(gpsData), Gps2Meas(gpsData, gpsRef, latFactor));
    }

    /** The first half of a loop iteration: drain both mailboxes and
        preprocess both samples, fresh or stale. */
    method ReadAndPreprocess(trig: Trig) returns (gpsData: Gps, gpsAvailable: bool, imuData: Imu, imuAvailable: bool)
      requires Valid()
      modifies this`latFactor, this`orient, gpsShared, imuShared
      ensures Valid() && filter.Snapshot() == old(filter.Snapshot())
      ensures gpsShared.Contents() == DrainBox(old(gpsShared.Contents())).2
      ensures imuShared.Contents() == DrainBox(old(imuShared.Contents())).2
      ensures gpsAvailable == old(gpsShared.isNew) && gpsData == ScaleGps(old(gpsShared.value))
      ensures imuAvailable == old(imuShared.isNew) && imuData == RotateImu(trig, old(imuShared.value))
      ensures latFactor == Gps2LatFactor(trig, gpsData, gpsRef)
      ensures orient == OrientationOfImu(old(imuShared.value))
    {
      gpsData, gpsAvailable := gpsShared.Drain();
      imuData, imuAvailable := imuShared.Drain();

      gpsData := GpsPreprocess(gpsData);
      latFactor := Gps2LatFactor(trig, gpsData, gpsRef);
      imuData, orient := ImuPreprocess(trig, imuData, orient);
    }

    /** The second half of a loop iteration: run the filter calls, then hand
        the estimate, the lat factor and the orientation to the publishing loop. */
    method FilterAndHandOver(accel: Vector, imuAvailable: bool, gpsAvailable: bool, R: Matrix, z: Vector)
      requires Valid()
      requires RunOk(filter.F, filter.G, filter.H, filter.Q, filter.Snapshot(), LoopCalls(accel, imuAvailable, gpsAvailable, R, z))
      modifies this`xHatShared, this`latFactorShared, this`orientationShared, filter
      ensures Valid()
      ensures filter.Snapshot()
           == Run(filter.F, filter.G, filter.H, filter.Q, old(filter.Snapshot()), LoopCalls(accel, imuAvailable, gpsAvailable, R, z))
      ensures xHatShared == filter.xHat && latFactorShared == latFactor && orientationShared == orient
    {
      RunFilter(accel, imuAvailable, gpsAvailable, R, z);
      xHatShared := filter.StateEstimate();
      latFactorShared := latFactor;
      orientationShared := orient;
    }

    /** The filter calls of one loop iteration. */
    method RunFilter(accel: Vector, imuAvailable: bool, gpsAvailable: bool, R: Matrix, z: Vector)
      requires filter.Valid()
      requires RunOk(filter.F, filter.G, filter.H, filter.Q, filter.Snapshot(), LoopCalls(accel, imuAvailable, gpsAvailable, R, z))
      modifies filter
      ensures filter.Valid()
      ensures filter.Snapshot()
           == Run(filter.F, filter.G, filter.H, filter.Q, old(filter.Snapshot()), LoopCalls(accel, imuAvailable, gpsAvailable, R, z))
    {
      ghost var F, G, H, Q := filter.F, filter.G, filter.H, filter.Q;
      ghost var e0 := filter.Snapshot();
      ghost var calls := LoopCalls(accel, imuAvailable, gpsAvailable, R, z);
      LoopCallsOrder(accel, imuAvailable, gpsAvailable, R, z);
      assert [calls[0]] + calls[1..] == calls;
      RunSplit(F, G, H, Q, e0, [calls[0]], calls[1..]);
      if imuAvailable {
        PredictStep(accel);
      } else {
        PredictStep(Zeros(3));
      }
      if gpsAvailable {
        UpdateAndCorrect(R, z);
      } else {
        assert Run(F, G, H, Q, filter.Snapshot(), []) == filter.Snapshot();
      }
    }

    /** The time update of the filter loop. */
    method PredictStep(u: Vector)
      requires filter.Valid()
      requires RunOk(filter.F, filter.G, filter.H, filter.Q, filter.Snapshot(), [PredictInputCall(u)])
      modifies filter
      ensures filter.Valid()
      ensures filter.Snapshot() == Run(filter.F, filter.G, filter.H, filter.Q, old(filter.Snapshot()), [PredictInputCall(u)])
    {
      ghost var e0 := filter.Snapshot();
      assert |filter.G[0]| == |u|;
      filter.PredictWithInput(u);
      assert [PredictInputCall(u)][1..] == [];
      assert Run(filter.F, filter.G, filter.H, filter.Q, e0, [PredictInputCall(u)])
          == Step(filter.F, filter.G, filter.H, filter.Q, e0, PredictInputCall(u));
    }

    /** The GPS branch of the filter loop: install the fix's R, then correct. */
    method UpdateAndCorrect(R: Matrix, z: Vector)
      requires filter.Valid()
      requires RunOk(filter.F, filter.G, filter.H, filter.Q, filter.Snapshot(), FixCalls(R, z))
      modifies filter
      ensures filter.Valid()
      ensures filter.Snapshot() == Run(filter.F, filter.G, filter.H, filter.Q, old(filter.Snapshot()), FixCalls(R, z))
    {
      ghost var F, G, H, Q := filter.F, filter.G, filter.H, filter.Q;
      ghost var calls := FixCalls(R, z);
      ghost var e0 := filter.Snapshot();
      assert CallOk(F, G, H, Q, e0, calls[0]);
      filter.UpdateNoiseCovariance(R);
      ghost var e1 := Step(F, G, H, Q, e0, calls[0]);
      assert filter.Snapshot() == e1;
      assert calls[1..] == [calls[1]];
      assert CallOk(F, G, H, Q, e1, calls[1]);
      filter.Correct(z);
      ghost var e2 := Step(F, G, H, Q, e1, calls[1]);
      assert filter.Snapshot() == e2;
      assert calls[1..][1..] == [];
      assert Run(F, G, H, Q, e2, []) == e2;
      assert Run(F, G, H, Q, e1, calls[1..]) == e2;
      assert Run(F, G, H, Q, e0, calls) == e2;
    }

    /** One publication: nothing while the reference is unset, else the
        estimate handed over by the filter loop, translated. */
    method PublishTick(trig: Trig) returns (out: Option<Boat>)
      requires |xHatShared| == 6
      ensures out.None? <==> !gpsRefSet
      ensures out.Some? ==> out.value == Translate(trig, xHatShared, latFactorShared, orientationShared, gpsRef)
    {
      if !gpsRefSet {
        return None;
      }
      var xHat := xHatShared;
      var lf := latFactorShared;
      var orientation := orientationShared;
      var boat := Translate(trig, xHat, lf, orientation, gpsRef);
      out := Some(boat);
    }

    /** One iteration of the publishing loop: advance its deadline, publish. */
    method PublishIteration(trig: Trig) returns (out: Option<Boat>)
      requires Valid()
      modifies publishWake
      ensures Valid()
      ensures publishWake.target == old(publishWake.target) + PublishIntervalMs
      ensures out.None? <==> !gpsRefSet
      ensures out.Some? ==> out.value == Translate(trig, xHatShared, latFactorShared, orientationShared, gpsRef)
    {
      publishWake.Advance();
      out := PublishTick(trig);
    }
  }
}
