/**
 * `controlarSinalizadores` (main.c++:113-141): the worst of the three levels
 * selects one of the green, yellow and red LEDs, and the buzzer sounds only
 * when that worst level is critical.
 */
module Signaler {
  import opened Wrappers
  import opened Classifier
  import opened Readings

  /** Arduino's `max` macro, `((a) > (b) ? (a) : (b))`. */
  function Max(a: int, b: int): int {
    if a > b then a else b
  }

  /** The worst state of the three, `max(max(light, temperature), humidity)`. */
  function Worst(light: int, temperature: int, humidity: int): (w: int)
    ensures light <= w && temperature <= w && humidity <= w
    ensures w == light || w == temperature || w == humidity
  {
    Max(Max(light, temperature), humidity)
  }

  function WorstOf(levels: Levels): int {
    Worst(levels.light, levels.temperature, levels.humidity)
  }

  /** The level of each actuator pin: true is HIGH (or the tone playing). */
  datatype Actuators = Actuators(green: bool, yellow: bool, red: bool, buzzer: bool)

  function Count(b: bool): nat {
    if b then 1 else 0
  }

  predicate ExactlyOneLit(a: Actuators) {
    Count(a.green) + Count(a.yellow) + Count(a.red) == 1
  }

  /** Reads back the level that a single lit LED stands for. */
  function LitLevel(a: Actuators): int {
    if a.green then 0 else if a.yellow then 1 else 2
  }

  /** The actuator levels the signaler leaves behind for a given worst state. */
  function Drive(worst: int): (a: Actuators)
    ensures ExactlyOneLit(a) <==> IsLevel(worst)
    ensures IsLevel(worst) ==> LitLevel(a) == worst
    ensures a.buzzer <==> worst == 2
    ensures a.buzzer <==> a.red
    ensures !IsLevel(worst) ==> a == Actuators(false, false, false, false)
  {
    Actuators(worst == 0, worst == 1, worst == 2, worst == 2)
  }

  /** With valid levels, the buzzer sounds exactly when some reading is critical. */
  lemma BuzzerIffSomeCritical(light: int, temperature: int, humidity: int)
    requires IsLevel(light) && IsLevel(temperature) && IsLevel(humidity)
    ensures Drive(Worst(light, temperature, humidity)).buzzer
        <==> (light == 2 || temperature == 2 || humidity == 2)
    ensures Drive(Worst(light, temperature, humidity)).green
        <==> (light == 0 && temperature == 0 && humidity == 0)
  {
  }

  /** A failed temperature read always ends in the red LED and the buzzer. */
  lemma MissingTemperatureRaisesAlarm(light: int, humidity: Option<real>)
    ensures Drive(WorstOf(Classify(Acquire(light, None, humidity)))) == Actuators(false, false, true, true)
  {
    MissingTemperatureIsCritical(light, humidity);
  }

  /** Light 300, 12.0 °C and 55.0 %: everything ideal, green only. */
  lemma AllIdealScenario()
    ensures Drive(WorstOf(Classify(Acquire(300, Some(12.0), Some(55.0))))) == Actuators(true, false, false, false)
  {
  }

  /** Light 650, 3.0 °C and 80.0 %: everything critical, red and buzzer. */
  lemma AllCriticalScenario()
    ensures Drive(WorstOf(Classify(Acquire(650, Some(3.0), Some(80.0))))) == Actuators(false, false, true, true)
  {
  }

  /** The LED and buzzer pins (main.c++:7-10). */
  class SignalPanel {
    var green: bool
    var yellow: bool
    var red: bool
    var buzzer: bool

    function Outputs(): Actuators
      reads this
    {
      Actuators(green, yellow, red, buzzer)
    }

    /** Output pins start LOW. */
    constructor ()
      ensures Outputs() == Actuators(false, false, false, false)
    {
      green, yellow, red, buzzer := false, false, false, false;
    }

    /**
     * Switches every LED off, lights the one the worst state selects and
     * sets the buzzer. The result depends on the three levels only, never on
     * what the pins held before.
     */
    method Control(lightLevel: int, tempLevel: int, humidLevel: int)
      modifies this
      ensures Outputs() == Drive(Worst(lightLevel, tempLevel, humidLevel))
      ensures IsLevel(lightLevel) && IsLevel(tempLevel) && IsLevel(humidLevel) ==>
        ExactlyOneLit(Outputs()) && LitLevel(Outputs()) == Worst(lightLevel, tempLevel, humidLevel)
    {
      var worst := Max(Max(lightLevel, tempLevel), humidLevel);
      green := false;
      yellow := false;
      red := false;
      if worst == 0 {
        green := true;
      } else if worst == 1 {
        yellow := true;
      } else if worst == 2 {
        red := true;
      }
      if worst == 2 {
        buzzer := true;
      } else {
        buzzer := false;
      }
    }
  }
}
