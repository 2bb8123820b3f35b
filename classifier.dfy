/**
 * The three classifiers of the monitor (main.c++:93-111). Each maps a raw
 * measurement to a severity level: 0 (ideal), 1 (alert) or 2 (critical).
 * Levels stay plain integers, as in the sketch.
 */
module Classifier {

  // Light thresholds (main.c++:17-18).
  const LowLightThreshold: int := 400
  const MediumLightThreshold: int := 600

  // Temperature thresholds in degrees Celsius (main.c++:21-24).
  const TempMinIdeal: real := 10.0
  const TempMaxIdeal: real := 15.0
  const TempMinCritical: real := 5.0
  const TempMaxCritical: real := 20.0

  // Relative-humidity thresholds in percent (main.c++:27-30).
  const HumidMinCritical: int := 45
  const HumidMinAlert: int := 50
  const HumidMaxAlert: int := 70
  const HumidMaxCritical: int := 75

  /** A level the signaler and the display know how to show. */
  predicate IsLevel(level: int) {
    0 <= level <= 2
  }

  /** Light: purely ordinal by magnitude, below 400, below 600, the rest. */
  function ClassifyLight(value: int): (level: int)
    ensures IsLevel(level)
    ensures level == 0 <==> value < 400
    ensures level == 1 <==> 400 <= value < 600
    ensures level == 2 <==> 600 <= value
  {
    if value < LowLightThreshold then 0
    else if value < MediumLightThreshold then 1
    else 2
  }

  /** Temperature: ideal on [10, 15], alert on [5, 10) and (15, 20], critical outside [5, 20]. */
  function ClassifyTemperature(t: real): (level: int)
    ensures IsLevel(level)
    ensures level == 0 <==> 10.0 <= t <= 15.0
    ensures level == 1 <==> (5.0 <= t < 10.0 || 15.0 < t <= 20.0)
    ensures level == 2 <==> (t < 5.0 || 20.0 < t)
  {
    if TempMinIdeal <= t <= TempMaxIdeal then 0
    else if (TempMinCritical <= t && t < TempMinIdeal) || (TempMaxIdeal < t && t <= TempMaxCritical) then 1
    else 2
  }

  /** Humidity, on the whole percentage the sketch passes in: ideal on [50, 70], alert on [45, 50) and (70, 75]. */
  function ClassifyHumidity(u: int): (level: int)
    ensures IsLevel(level)
    ensures level == 0 <==> 50 <= u <= 70
    ensures level == 1 <==> (45 <= u < 50 || 70 < u <= 75)
    ensures level == 2 <==> (u < 45 || 75 < u)
  {
    if HumidMinAlert <= u <= HumidMaxAlert then 0
    else if (HumidMinCritical <= u && u < HumidMinAlert) || (HumidMaxAlert < u && u <= HumidMaxCritical) then 1
    else 2
  }

  /**
   * The C++ conversion of a floating-point value to `int`: the fractional
   * part is dropped, rounding toward zero.
   */
  function TruncToInt(x: real): (n: int)
    ensures 0.0 <= x ==> n as real <= x < n as real + 1.0
    ensures x < 0.0 ==> n as real - 1.0 < x <= n as real
  {
    if 0.0 <= x then x.Floor else -((-x).Floor)
  }

  /**
   * The level the sketch gives a humidity reading, which is truncated on the
   * way in: the ideal band of a real reading reaches up to, but not
   * including, 71 %, and the upper alert band up to 76 %.
   */
  function ClassifyHumidityReading(h: real): (level: int)
    ensures level == 0 <==> 50.0 <= h < 71.0
    ensures level == 1 <==> (45.0 <= h < 50.0 || 71.0 <= h < 76.0)
    ensures level == 2 <==> (h < 45.0 || 76.0 <= h)
  {
    ClassifyHumidity(TruncToInt(h))
  }

  /** Light classification never decreases as the light value grows. */
  lemma LightMonotone(v: int, w: int)
    requires v <= w
    ensures ClassifyLight(v) <= ClassifyLight(w)
  {
  }

  /** The closed ends of the temperature bands belong to the milder level. */
  lemma TemperatureBoundaries()
    ensures ClassifyTemperature(10.0) == 0 && ClassifyTemperature(15.0) == 0
    ensures ClassifyTemperature(5.0) == 1 && ClassifyTemperature(20.0) == 1
  {
  }

  /** Readings are truncated before classification: 70.5 % is ideal, 75.9 % and 49.9 % alert, 44.9 % critical. */
  lemma HumidityTruncationExamples()
    ensures ClassifyHumidityReading(70.5) == 0
    ensures ClassifyHumidityReading(75.9) == 1
    ensures ClassifyHumidityReading(49.9) == 1
    ensures ClassifyHumidityReading(44.9) == 2
  {
  }
}
