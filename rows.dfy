/** The three per-row functions of the pipeline: ion-intensity classification,
    background subtraction, and conversion of a subtracted intensity to an
    elemental mass. Each looks at one reading only. */
module Rows {
  import opened Series

  /** Classifies one sample reading against the ion threshold and the blank
      mean. A missing reading or one above the threshold is missing; one above
      the blank mean is kept; any other reading is background (0). An absent
      blank mean behaves like NaN: no reading compares above it. */
  function CalcIonIntensity(intensity: Option<real>, ionThreshold: real, baseline: Option<real>): (r: Option<real>)
    ensures r.None? <==> intensity.None? || intensity.value > ionThreshold
    ensures r.Some? ==> r.value == 0.0 || (r == intensity && baseline.Some? && baseline.value < r.value <= ionThreshold)
    ensures intensity.Some? && baseline.Some? && baseline.value < intensity.value <= ionThreshold ==> r == intensity
  {
    match intensity
    case None => None
    case Some(v) =>
      if v > ionThreshold then None
      else if baseline.Some? && v > baseline.value then Some(v)
      else Some(0.0)
  }

  /** With a non-negative threshold, every present classified value (0 or a kept
      reading) is at most the threshold. */
  lemma IonIntensityAtMost(intensity: Option<real>, ionThreshold: real, baseline: Option<real>)
    requires ionThreshold >= 0.0
    requires CalcIonIntensity(intensity, ionThreshold, baseline).Some?
    ensures CalcIonIntensity(intensity, ionThreshold, baseline).value <= ionThreshold
  {
  }

  /** Subtracts the mean ion intensity from a reading above the ion threshold;
      any other reading is missing. An absent mean behaves like NaN and makes
      the difference missing. */
  function CalcBlankSubtracted(intensity: Option<real>, ionThreshold: real, avg: Option<real>): (r: Option<real>)
    ensures r.Some? <==> intensity.Some? && intensity.value > ionThreshold && avg.Some?
    ensures r.Some? ==> r.value + avg.value == intensity.value
    ensures r.Some? && avg.value <= ionThreshold ==> r.value > 0.0
  {
    if intensity.Some? && intensity.value > ionThreshold && avg.Some? then
      Some(intensity.value - avg.value)
    else
      None
  }

  /** The subtractor keeps exactly the present readings that the classifier
      turned into missing: the two comparisons use the same threshold. */
  lemma SubtractedRowsAreSaturatedRows(v: real, ionThreshold: real, baseline: Option<real>, avg: real)
    ensures CalcBlankSubtracted(Some(v), ionThreshold, Some(avg)).Some?
        <==> CalcIonIntensity(Some(v), ionThreshold, baseline).None?
  {
  }

  /** The calibration factor that turns cps into mass: the formula
      v*dt/1000/ds*sf*ne/60*10000 with the constants collected. */
  function MassFactor(dt: real, ds: real, sf: real, ne: real): (k: real)
    requires ds != 0.0
  {
    dt * sf * ne / (6.0 * ds)
  }

  /** Positive calibration constants give a positive factor. */
  lemma MassFactorPositive(dt: real, ds: real, sf: real, ne: real)
    requires dt > 0.0 && ds > 0.0 && sf > 0.0 && ne > 0.0
    ensures MassFactor(dt, ds, sf, ne) > 0.0
  {
    assert dt * sf > 0.0;
    assert dt * sf * ne > 0.0;
  }

  /** Converts a subtracted intensity to an elemental mass. The guard in
      `calcElementMass` (`!=` against NaN) is always true, so a missing value
      is carried through as missing and a present one is scaled. */
  function CalcElementMass(intensity: Option<real>, dt: real, ds: real, sf: real, ne: real): (r: Option<real>)
    requires ds != 0.0
    ensures r.Some? <==> intensity.Some?
    ensures r.Some? ==> r.value == intensity.value * MassFactor(dt, ds, sf, ne)
  {
    match intensity
    case None => None
    case Some(v) => Some(v * dt / 1000.0 / ds * sf * ne / 60.0 * 10000.0)
  }

  /** The instrument defaults (dwell time 0.10 ms, sensitivity 2100, flow
      0.02 mL/min, efficiency 11 %) map 1000 cps to 11/6300 (about 0.001746). */
  lemma DefaultCalibrationExample()
    ensures CalcElementMass(Some(1000.0), 0.10, 2100.0, 0.02, 11.0) == Some(11.0 / 6300.0)
  {
  }

  /** Boundaries of the classifier with threshold 100 and blank mean 10: the
      upper comparison is strict, so 100 itself is kept. */
  lemma ClassifierBoundaries()
    ensures CalcIonIntensity(Some(100.0), 100.0, Some(10.0)) == Some(100.0)
    ensures CalcIonIntensity(Some(100.5), 100.0, Some(10.0)) == None
    ensures CalcIonIntensity(Some(50.0), 100.0, Some(10.0)) == Some(50.0)
    ensures CalcIonIntensity(Some(10.0), 100.0, Some(10.0)) == Some(0.0)
    ensures CalcIonIntensity(Some(5.0), 100.0, Some(10.0)) == Some(0.0)
    ensures CalcIonIntensity(None, 100.0, Some(10.0)) == None
  {
  }
}
