/** Unit conversions of the movement controller: inches to meters, degrees to
    radians, and a speed percentage to the drive's speed factor. The source
    computes these with IEEE doubles; here they are exact reals. */
module Units {

  /** Meters in one inch. */
  const MetersPerInch: real := 0.0254

  /** The value of pi the controller writes out. */
  const Pi: real := 3.141592653589793

  /** Radians in one degree. */
  const RadiansPerDegree: real := Pi / 180.0

  /** Distance in inches to distance in meters. */
  function InchesToMeters(inches: real): (meters: real)
    ensures meters > 0.0 <==> inches > 0.0
    ensures meters == 0.0 <==> inches == 0.0
  {
    inches * MetersPerInch
  }

  /** Angle in degrees to angle in radians. */
  function DegreesToRadians(degrees: real): (radians: real)
    ensures radians > 0.0 <==> degrees > 0.0
    ensures radians == 0.0 <==> degrees == 0.0
  {
    degrees * RadiansPerDegree
  }

  /** Speed percentage to speed factor: clamp into [0, 100], then divide by 100. */
  function PercentToSpeedFactor(percent: real): (factor: real)
    ensures 0.0 <= factor <= 1.0
    ensures percent < 0.0 ==> factor == 0.0
    ensures percent > 100.0 ==> factor == 1.0
    ensures 0.0 <= percent <= 100.0 ==> factor * 100.0 == percent
  {
    var clamped := Max(0.0, Min(100.0, percent));
    clamped / 100.0
  }

  function Min(a: real, b: real): real { if b < a then b else a }

  function Max(a: real, b: real): real { if b > a then b else a }

  /** Both conversions are linear maps. */
  lemma ConversionsAreLinear(a: real, b: real, k: real)
    ensures InchesToMeters(a + b) == InchesToMeters(a) + InchesToMeters(b)
    ensures InchesToMeters(k * a) == k * InchesToMeters(a)
    ensures DegreesToRadians(a + b) == DegreesToRadians(a) + DegreesToRadians(b)
    ensures DegreesToRadians(k * a) == k * DegreesToRadians(a)
  {
  }

  /** Both conversions are strictly increasing. */
  lemma ConversionsStrictlyIncrease(a: real, b: real)
    requires a < b
    ensures InchesToMeters(a) < InchesToMeters(b)
    ensures DegreesToRadians(a) < DegreesToRadians(b)
  {
  }

  /** A foot is 0.3048 m; a right angle is a quarter turn. */
  lemma ConversionExamples()
    ensures InchesToMeters(12.0) == 0.3048
    ensures InchesToMeters(0.0) == 0.0
    ensures DegreesToRadians(180.0) == Pi
    ensures DegreesToRadians(90.0) == Pi / 2.0
  {
  }

  /** The speed factor never decreases as the percentage grows. */
  lemma SpeedFactorMonotone(p: real, q: real)
    requires p <= q
    ensures PercentToSpeedFactor(p) <= PercentToSpeedFactor(q)
  {
  }
}
