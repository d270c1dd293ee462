/** The estimator's output: the state estimate translated back to a position
    fix, speed and course over ground, and the drift between heading and course. */
module Publish {
  import opened LinAlg
  import opened Records
  import opened SensorPrep

  /** One published boat record. lat is None where the latitude factor is
      zero, since the division then has no finite value. */
  datatype Boat = Boat(
    lon: real, lat: Option<real>, cog: real, sog: real, altitude: real,
    ascensionSpeed: real, heading: real, pitch: real, roll: real, drift: real)

  /** Zero below 0.5 m/s of speed; otherwise the gap between the wrapped
      heading and the wrapped course, negative when the heading is the larger. */
  function Drift(sog: real, cog: real, heading: real): (d: real)
    ensures sog <= 0.5 ==> d == 0.0
    ensures sog > 0.5 ==> (d == AngleWrap180(heading) - AngleWrap180(cog) || d == AngleWrap180(cog) - AngleWrap180(heading))
    ensures sog > 0.5 ==> (d < 0.0 <==> AngleWrap180(heading) > AngleWrap180(cog))
  {
    if sog > 0.5 then
      var cog180 := AngleWrap180(cog);
      var head180 := AngleWrap180(heading);
      var drift := Abs(head180 - cog180);
      if head180 > cog180 then -drift else drift
    else 0.0
  }

  function Abs(x: real): (r: real)
    ensures r >= 0.0 && (r == x || r == -x)
  {
    if x < 0.0 then -x else x
  }

  /** The record published for estimate xHat, against the reference fix. */
  function Translate(trig: Trig, xHat: Vector, latFactor: real, o: Orientation, ref: Gps): (b: Boat)
    requires |xHat| == 6
    ensures b.altitude - ref.hMSL == xHat[2] && b.ascensionSpeed == xHat[5]
    ensures b.lon == xHat[1] * 360.0 / EarthCircumferenceMeters + ref.lon
    ensures b.lat.Some? <==> latFactor != 0.0
    ensures b.lat.Some? ==> b.lat.value == xHat[0] * 360.0 / EarthCircumferenceMeters / latFactor + ref.lat
    ensures b.sog == trig.sqrt(xHat[3] * xHat[3] + xHat[4] * xHat[4]) && b.cog == trig.atan2(xHat[4], xHat[3])
    ensures b.heading == o.heading && b.pitch == AngleWrap180(o.pitch) && b.roll == AngleWrap180(o.roll)
    ensures b.drift == Drift(b.sog, b.cog, o.heading)
  {
    var sog := trig.sqrt(Square(xHat[3]) + Square(xHat[4]));
    var cog := trig.atan2(xHat[4], xHat[3]);
    var lat := if latFactor == 0.0 then None else Some(xHat[0] * 360.0 / EarthCircumferenceMeters / latFactor + ref.lat);
    var lon := xHat[1] * 360.0 / EarthCircumferenceMeters + ref.lon;
    var altitude := xHat[2] + ref.hMSL;
    Boat(lon, lat, cog, sog, altitude, xHat[5], o.heading, AngleWrap180(o.pitch), AngleWrap180(o.roll),
         Drift(sog, cog, o.heading))
  }

  /** Feeding a measurement back as the estimate recovers the fix's altitude. */
  lemma AltitudeRoundTrip(trig: Trig, curr: Gps, ref: Gps, latFactor: real, o: Orientation)
    ensures Translate(trig, Gps2Meas(curr, ref, latFactor), latFactor, o, ref).altitude == curr.hMSL
  {
  }

  /** Feeding a measurement back as the estimate: the latitude offset comes back
      divided by the latitude factor and the longitude offset multiplied by it,
      because the measurement scales longitude and the translation latitude. */
  lemma LatLonRoundTrip(trig: Trig, curr: Gps, ref: Gps, latFactor: real, o: Orientation)
    requires latFactor != 0.0
    ensures var b := Translate(trig, Gps2Meas(curr, ref, latFactor), latFactor, o, ref);
      b.lat == Some((curr.lat - ref.lat) / latFactor + ref.lat) &&
      b.lon == (curr.lon - ref.lon) * latFactor + ref.lon
  {
    var z := Gps2Meas(curr, ref, latFactor);
    var C := EarthCircumferenceMeters;
    assert z[0] * 360.0 / C == curr.lat - ref.lat;
    assert z[1] * 360.0 / C == (curr.lon - ref.lon) * latFactor;
  }

  /** The round trip is exact with a unit latitude factor... */
  lemma LatLonRoundTripUnitFactor(trig: Trig, curr: Gps, ref: Gps, o: Orientation)
    ensures var b := Translate(trig, Gps2Meas(curr, ref, 1.0), 1.0, o, ref);
      b.lat == Some(curr.lat) && b.lon == curr.lon
  {
    LatLonRoundTrip(trig, curr, ref, 1.0, o);
  }

  /** ...and misses both coordinates otherwise, whenever the fix is off the reference. */
  lemma LatLonRoundTripMisses(trig: Trig, curr: Gps, ref: Gps, latFactor: real, o: Orientation)
    requires latFactor != 0.0 && latFactor != 1.0
    ensures var b := Translate(trig, Gps2Meas(curr, ref, latFactor), latFactor, o, ref);
      (curr.lat != ref.lat ==> b.lat != Some(curr.lat)) &&
      (curr.lon != ref.lon ==> b.lon != curr.lon)
  {
    LatLonRoundTrip(trig, curr, ref, latFactor, o);
    var dLat, dLon := curr.lat - ref.lat, curr.lon - ref.lon;
    if dLat != 0.0 {
      ScaleMovesNonzero(dLat, latFactor);
    }
    if dLon != 0.0 {
      ScaleMovesNonzero(dLon, latFactor);
    }
  }

  /** Multiplying or dividing a non-zero number by a factor other than 0 and 1 changes it. */
  lemma ScaleMovesNonzero(a: real, f: real)
    requires a != 0.0 && f != 0.0 && f != 1.0
    ensures a * f != a && a / f != a
  {
    MulNonzero(a, 1.0 - f);
    assert a - a * f == a * (1.0 - f);
    DivNonzero(a - a * f, f);
    assert a / f - a == (a - a * f) / f;
  }

  lemma MulNonzero(a: real, b: real)
    requires a != 0.0 && b != 0.0
    ensures a * b != 0.0
  {
  }

  lemma DivNonzero(a: real, b: real)
    requires a != 0.0 && b != 0.0
    ensures a / b != 0.0
  {
    assert (a / b) * b == a;
  }

  /** The course comes from atan2 in radians but is wrapped and compared with
      the heading as if in degrees: while atan2 stays within [-pi, pi] the wrap
      never changes it, so drift compares degrees with radians. */
  lemma DriftComparesRadians(trig: Trig, xHat: Vector, latFactor: real, o: Orientation, ref: Gps)
    requires |xHat| == 6
    requires -Pi <= trig.atan2(xHat[4], xHat[3]) <= Pi
    ensures var b := Translate(trig, xHat, latFactor, o, ref);
      AngleWrap180(b.cog) == b.cog &&
      (b.sog > 0.5 ==> Abs(b.drift) == Abs(AngleWrap180(o.heading) - b.cog))
  {
  }
}
