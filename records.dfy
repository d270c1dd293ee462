/** The sensor records the C++ estimator passes around, the mathematical
    functions it calls, and an option type. */
module Records {
  datatype Option<T> = None | Some(value: T)

  /** A GNSS fix in receiver units (degrees·1e7, millimetres, mm/s) until
      it is scaled, in degrees, metres and m/s after. */
  datatype Gps = Gps(
    vAcc: real, hAcc: real, sAcc: real, headAcc: real,
    lon: real, lat: real, hMSL: real,
    velN: real, velE: real, velD: real,
    gSpeed: real, headMot: real,
    fl: real, fr: real, rl: real,
    fixType: real, epoch: real)

  /** Euler angles in degrees and linear acceleration in the body frame. */
  datatype Imu = Imu(
    eulerX: real, eulerY: real, eulerZ: real,
    linearAccelX: real, linearAccelY: real, linearAccelZ: real)

  /** Heading, pitch and roll in degrees. */
  datatype Orientation = Orientation(heading: real, pitch: real, roll: real)

  /** The value-initialised records (every field zero). */
  const ZeroGps: Gps := Gps(0.0, 0.0, 0.0, 0.0, 0.0, 0.0, 0.0, 0.0, 0.0, 0.0, 0.0, 0.0, 0.0, 0.0, 0.0, 0.0, 0.0)
  const ZeroImu: Imu := Imu(0.0, 0.0, 0.0, 0.0, 0.0, 0.0)
  const ZeroOrientation: Orientation := Orientation(0.0, 0.0, 0.0)

  /** The nine fields a GPS message carries. */
  datatype GpsMessage = GpsMessage(
    lat: real, lon: real, hMSL: real,
    velN: real, velE: real, velD: real,
    hAcc: real, vAcc: real, sAcc: real)

  /** The record the GPS callback builds: the message's fields over a zero record. */
  function GpsOfMessage(msg: GpsMessage): (g: Gps)
    ensures g.lat == msg.lat && g.lon == msg.lon && g.hMSL == msg.hMSL
    ensures g.velN == msg.velN && g.velE == msg.velE && g.velD == msg.velD
    ensures g.hAcc == msg.hAcc && g.vAcc == msg.vAcc && g.sAcc == msg.sAcc
    ensures g.headAcc == g.gSpeed == g.headMot == g.fl == g.fr == g.rl == g.fixType == g.epoch == 0.0
  {
    ZeroGps.(lat := msg.lat, lon := msg.lon, hMSL := msg.hMSL,
             velN := msg.velN, velE := msg.velE, velD := msg.velD,
             hAcc := msg.hAcc, vAcc := msg.vAcc, sAcc := msg.sAcc)
  }

  /** The C library's cos, sin, atan2 and sqrt, known only by the laws a
      lemma assumes of them. */
  datatype Trig = Trig(cos: real -> real, sin: real -> real, atan2: (real, real) -> real, sqrt: real -> real)

  /** The platform's double value of pi, written out. */
  const Pi: real := 3.141592653589793
  const Deg2Rad: real := Pi / 180.0
}
