/**
 * What `loop` does with the raw sensor values before it classifies them
 * (main.c++:69-82): a missing temperature or humidity is replaced by a fixed
 * default and a diagnostic line is logged; the humidity is then truncated to
 * a whole percentage for its classifier.
 */
module Readings {
  import opened Wrappers
  import opened Classifier

  const DefaultTemperature: real := 25.0
  const DefaultHumidity: real := 60.0
  const TemperatureError: string := "Erro ao ler temperatura!"
  const HumidityError: string := "Erro ao ler umidade!"

  /** The readings one pass of the loop works with, and the lines it logged. */
  datatype Reading = Reading(light: int, temperature: real, humidity: real, log: seq<string>)

  /** The three levels one pass of the loop computes. */
  datatype Levels = Levels(light: int, temperature: int, humidity: int)

  /** Substitutes the defaults for missing readings; present readings pass through. */
  function Acquire(light: int, temperature: Option<real>, humidity: Option<real>): (r: Reading)
    ensures r.light == light
    ensures temperature.Some? ==> r.temperature == temperature.value
    ensures temperature.None? ==> r.temperature == DefaultTemperature
    ensures humidity.Some? ==> r.humidity == humidity.value
    ensures humidity.None? ==> r.humidity == DefaultHumidity
    ensures TemperatureError in r.log <==> temperature.None?
    ensures HumidityError in r.log <==> humidity.None?
    ensures |r.log| == (if temperature.None? then 1 else 0) + (if humidity.None? then 1 else 0)
    ensures |r.log| == 2 ==> r.log == [TemperatureError, HumidityError]
  {
    Reading(light,
            temperature.GetOr(DefaultTemperature),
            humidity.GetOr(DefaultHumidity),
            (if temperature.None? then [TemperatureError] else [])
              + (if humidity.None? then [HumidityError] else []))
  }

  /** Classifies one pass's readings; the humidity goes through the `int` parameter. */
  function Classify(r: Reading): (levels: Levels)
    ensures IsLevel(levels.light) && IsLevel(levels.temperature) && IsLevel(levels.humidity)
    ensures levels.light == 0 <==> r.light < 400
    ensures levels.light == 2 <==> 600 <= r.light
    ensures levels.temperature == 0 <==> 10.0 <= r.temperature <= 15.0
    ensures levels.temperature == 2 <==> (r.temperature < 5.0 || 20.0 < r.temperature)
    ensures levels.humidity == 0 <==> 50.0 <= r.humidity < 71.0
    ensures levels.humidity == 2 <==> (r.humidity < 45.0 || 76.0 <= r.humidity)
  {
    Levels(ClassifyLight(r.light), ClassifyTemperature(r.temperature), ClassifyHumidityReading(r.humidity))
  }

  /** The default temperature lies above the critical maximum, so a failed read is critical. */
  lemma MissingTemperatureIsCritical(light: int, humidity: Option<real>)
    ensures Classify(Acquire(light, None, humidity)).temperature == 2
  {
  }

  /** The default humidity lies inside the ideal band. */
  lemma MissingHumidityIsIdeal(light: int, temperature: Option<real>)
    ensures Classify(Acquire(light, temperature, None)).humidity == 0
  {
  }
}
