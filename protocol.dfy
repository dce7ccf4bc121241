/** The pure decisions of the driver: which motion samples are trusted, and the
    bytes it computes before writing them to the sensor. */
module Protocol {

  /** Surface quality below this value makes a motion sample untrustworthy. */
  const MinSqual: bv8 := 0x19
  /** A shutter reading of this value makes a motion sample untrustworthy. */
  const SaturatedShutter: bv8 := 0x1F

  /** The quality gate shared by both motion-read strategies: a sample is kept
      unless the surface quality is too low or the shutter reading is saturated. */
  predicate QualityAccepted(squal: bv8, shutter: bv8): (ok: bool)
    ensures ok <==> 25 <= squal as int && shutter as int != 31
  {
    !(squal < MinSqual || shutter == SaturatedShutter)
  }

  /** The gate's thresholds, at and around their boundaries, for every value of the other byte. */
  lemma QualityGateBoundaries(squal: bv8, shutter: bv8)
    ensures !QualityAccepted(0x18, shutter) && !QualityAccepted(squal, 0x1F)
    ensures shutter != 0x1F ==> QualityAccepted(0x19, shutter)
    ensures squal >= 0x19 ==> QualityAccepted(squal, 0x1E)
    ensures QualityAccepted(squal, shutter) ==> squal as int >= 25
  {
  }

  /** The orientation register value: bits 5, 6 and 7 carry invert-X,
      invert-Y and swap-X/Y, every other bit is zero. */
  function OrientationByte(invertX: bool, invertY: bool, swapXY: bool): (b: bv8)
    ensures b & 0x1F == 0
    ensures (b & 0x20 == 0x20) == invertX
    ensures (b & 0x40 == 0x40) == invertY
    ensures (b & 0x80 == 0x80) == swapXY
  {
    var b0: bv8 := 0;
    var b1 := if invertX then b0 | 0x20 else b0;
    var b2 := if invertY then b1 | 0x40 else b1;
    if swapXY then b2 | 0x80 else b2
  }

  /** The three orientation flags a register value encodes. */
  function OrientationFlags(b: bv8): (bool, bool, bool) {
    (b & 0x20 != 0, b & 0x40 != 0, b & 0x80 != 0)
  }

  /** The orientation byte and its flags determine each other. */
  lemma OrientationRoundTrip(invertX: bool, invertY: bool, swapXY: bool, b: bv8)
    ensures OrientationFlags(OrientationByte(invertX, invertY, swapXY)) == (invertX, invertY, swapXY)
    ensures b & 0x1F == 0 ==> OrientationByte(OrientationFlags(b).0, OrientationFlags(b).1, OrientationFlags(b).2) == b
  {
  }

  /** Largest value the resolution register accepts. */
  const MaxResolution: bv8 := 0xA8

  /** The resolution actually written: the requested value, saturated at 0xA8. */
  function ClampResolution(resolution: bv8): (r: bv8)
    ensures r <= MaxResolution
    ensures r == resolution <==> resolution <= MaxResolution
    ensures resolution > MaxResolution ==> r == MaxResolution
  {
    if resolution >= MaxResolution then MaxResolution else resolution
  }

  /** Clamping is idempotent and preserves order. */
  lemma ClampResolutionMonotone(a: bv8, b: bv8)
    ensures ClampResolution(ClampResolution(a)) == ClampResolution(a)
    ensures a <= b ==> ClampResolution(a) <= ClampResolution(b)
  {
  }

  /** First calibration byte derived from register 0x70: raised by 14 when at
      most 28, otherwise by 11, then capped at 63. */
  function CalibrationC1(reg70: bv8): (c: int)
    ensures 14 <= c <= 63
    ensures c >= reg70 as int || c == 63
    ensures reg70 as int <= 28 ==> c == reg70 as int + 14
    ensures 28 < reg70 as int <= 52 ==> c == reg70 as int + 11
    ensures reg70 as int > 52 ==> c == 63
  {
    var raised := if reg70 as int <= 28 then reg70 as int + 14 else reg70 as int + 11;
    if raised > 63 then 63 else raised
  }

  /** Second calibration byte: 45 percent of register 0x71, rounded down. */
  function CalibrationC2(reg71: bv8): (c: int)
    ensures 0 <= c <= 114
    ensures c * 100 <= reg71 as int * 45 < c * 100 + 100
  {
    reg71 as int * 45 / 100
  }

  /** The surface-quality figure reported for a raw SQUAL register value. */
  function SqualFigure(squal: bv8): (q: int)
    ensures 0 <= q <= 1020
    ensures q % 4 == 0 && q / 4 == squal as int
  {
    squal as int * 4
  }
}
