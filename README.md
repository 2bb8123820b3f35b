# Vineyard environment monitor — decision layer

A Dafny model of the decision logic of an Arduino sketch that watches a
vineyard. The sketch reads a light sensor (LDR), a DHT11 temperature/humidity
sensor, classifies each reading as ideal (0), alert (1) or critical (2),
lights a green, yellow or red LED for the worst of the three, sounds a buzzer
when that worst level is critical, and rotates a 16x2 LCD through a light, a
temperature and a humidity screen every 2000 ms.

Modules, one per component:

- `Classifier` (`classifier.dfy`): the thresholds and the three classifiers,
  plus the C++ float-to-`int` truncation that the humidity goes through.
- `Readings` (`readings.dfy`): substitution of the defaults 25.0 °C and 60.0 %
  for missing sensor reads, with the logged diagnostic lines, and
  classification of one pass's readings. A missing reading (NaN in the sketch)
  is `None`.
- `Signaler` (`signaler.dfy`): the worst-state `max`, the pure actuator
  function `Drive`, and the class `SignalPanel` whose `Control` method updates
  the four pin states step by step as the sketch does.
- `Display` (`display.dfy`): the wrapping 32-bit elapsed-time test, the pure
  transition `Step` with its iterates `Run`/`Visited`, the rendered LCD
  command sequence `Render`, and the class `DisplayScheduler` holding
  `tempoAnterior` (`lastSwitch`), `telaAtual` (`screen`) and the LCD command
  log (`output`), whose `Tick` method is proved against `Step` and `Render`.
- `Wrappers` (`wrappers.dfy`): the `Option` type.

Behaviour of the sketch worth knowing:

- A missing temperature becomes 25.0 °C. That is above the 20.0 °C critical
  limit, so it classifies as critical (2), not ideal. A failed temperature
  read therefore always lights the red LED and sounds the buzzer
  (`Signaler.MissingTemperatureRaisesAlarm`).
- Humidity is classified after truncation to a whole percentage. The ideal
  band on the real reading is therefore [50, 71), and the upper alert band is
  [71, 76) (`Classifier.ClassifyHumidityReading`).
- The humidity screen prints "Umidade: OK" for level 0, not "Ideal".
- The first switch shows the temperature screen, not the light screen. The
  counter is advanced before drawing.
- Line 70 of the sketch is missing a closing parenthesis. The model takes the
  evident intent: the same substitution as for humidity.

## Model

| member | source | states |
|---|---|---|
| `Classifier.ClassifyLight` | main.c++:100-104 | level in 0..2; 0 iff v < 400, 1 iff 400 <= v < 600, 2 iff v >= 600 |
| `Classifier.LightMonotone` | main.c++:100-104 | light level never decreases as the value grows |
| `Classifier.ClassifyTemperature` | main.c++:93-98 | level in 0..2; 0 exactly on [10, 15], 1 exactly on [5, 10) and (15, 20], 2 exactly below 5 or above 20 |
| `Classifier.TemperatureBoundaries` | main.c++:21-24 | 10.0 and 15.0 are ideal, 5.0 and 20.0 are alert |
| `Classifier.ClassifyHumidity` | main.c++:106-111 | level in 0..2; 0 exactly on [50, 70], 1 exactly on [45, 50) and (70, 75], 2 otherwise |
| `Classifier.TruncToInt` | main.c++:82 | the float-to-int conversion rounds toward zero: the result is within one of x, on x's side of zero |
| `Classifier.ClassifyHumidityReading` | main.c++:82 | the level of a real reading, which is truncated to `int` on the way in: 0 iff 50 <= h < 71, 1 iff 45 <= h < 50 or 71 <= h < 76, 2 iff h < 45 or h >= 76 |
| `Classifier.HumidityTruncationExamples` | main.c++:106-111 | 70.5 % is ideal, 75.9 % and 49.9 % are alert, 44.9 % is critical |
| `Readings.Acquire` | main.c++:70-77 | a present reading passes through unchanged; a missing temperature becomes 25.0 and a missing humidity 60.0; an error line is logged exactly for each missing reading, the temperature's first |
| `Readings.Classify` | main.c++:80-82 | each level is in 0..2 and is its own reading's band: light 0 iff below 400 and 2 iff at least 600; temperature 0 iff on [10, 15] and 2 iff outside [5, 20]; humidity, truncated, 0 iff on [50, 71) and 2 iff below 45 or at least 76 |
| `Readings.MissingTemperatureIsCritical` | main.c++:70-73 | the substituted temperature classifies as critical (2) |
| `Readings.MissingHumidityIsIdeal` | main.c++:74-77 | the substituted humidity classifies as ideal (0) |
| `Signaler.Worst` | main.c++:115 | the worst state is at least each of the three levels and equal to one of them |
| `Signaler.Drive` | main.c++:117-140 | exactly one LED is lit iff the worst state is 0..2, and the lit LED reads back as that state; the buzzer sounds iff the state is 2, i.e. iff red is lit; a state outside 0..2 leaves every pin LOW |
| `Signaler.BuzzerIffSomeCritical` | main.c++:113-141 | for valid levels the buzzer sounds iff some level is critical, and green is lit iff all are ideal |
| `Signaler.MissingTemperatureRaisesAlarm` | main.c++:70-85 | a failed temperature read always ends with only red lit and the buzzer on, whatever the other readings |
| `Signaler.AllIdealScenario` | main.c++:80-85 | light 300, 12.0 °C, 55.0 %: green only, buzzer off |
| `Signaler.AllCriticalScenario` | main.c++:80-85 | light 650, 3.0 °C, 80.0 %: red only, buzzer on |
| `Signaler.SignalPanel.constructor` | main.c++:7-10 | the four actuator pins start in their power-on LOW state, which the sketch itself never writes |
| `Signaler.SignalPanel.Control` | main.c++:113-141 | the pins afterwards are `Drive` of the worst state, whatever they held before; for valid levels exactly one LED is lit, the one for the worst state |
| `Display.Elapsed` | main.c++:144 | the unsigned 32-bit difference: now - last when the clock has not wrapped, 2^32 - last + now when it has |
| `Display.Label` | main.c++:151-197 | a first line exists iff screen and level are both in 0..2, and it starts with that screen's "Luz: ", "Temp: " or "Umidade: " |
| `Display.LabelTellsLevelsApart` | main.c++:151-197 | on each screen the three levels give three different labels |
| `Display.HumidityIdealLabel` | main.c++:188-189 | humidity level 0 is shown as "Umidade: OK" |
| `Display.Render` | main.c++:148-201 | a redraw starts with clear and cursor (0,0); for a valid screen and level it is six commands, with the label third and cursor (0,1) fourth; for a level outside 0..2 the label is missing and it is five commands; for a screen outside 0..2 it is clear and cursor (0,0) only; line 2 is "Valor: " and the light value, the temperature then "C", or the humidity then "%" |
| `Display.Step` | main.c++:144-146 | a poll before the interval has passed changes nothing; a poll after it records `now` as the last switch and advances the screen by one modulo 3; the screen stays in 0..2 |
| `Display.NoSwitchWithinInterval` | main.c++:144-146 | after a switch at `now`, a poll less than 2000 ms (wrapping) later changes nothing |
| `Display.RotationNeverSkips` | main.c++:144-146 | over any sequence of polls the screens switched to are start+1, start+2, ... modulo 3, and the final screen is the start advanced once per switch |
| `Display.SpacedPollsAlwaysSwitch` | main.c++:144-146 | when each poll comes at least 2000 ms (wrapping) after the previous one, every poll switches |
| `Display.StartupRotation` | main.c++:36-38 | from tempoAnterior = 0, telaAtual = 0, polls one interval apart show the screens 1, 2, 0, 1, ... |
| `Display.DisplayScheduler.constructor` | main.c++:36-38 | the scheduler starts on screen 0 at time 0 with nothing drawn |
| `Display.DisplayScheduler.Tick` | main.c++:143-204 | the new state is `Step` of the old one; the LCD receives `Render` of the new screen exactly when the interval has passed, and nothing otherwise |

## Left out

- `setup` (main.c++:40-59): pin modes, sensor and LCD initialisation, the splash text and the serial port. This is hardware start-up only.
- Sensor acquisition (`analogRead`, `dht.readTemperature`, `dht.readHumidity`): the values come in as parameters, with a missing DHT11 value as `None`.
- IEEE-754 floats and NaN: temperatures and humidities are exact reals. All thresholds are exactly representable in a float.
- `Classifier.TruncToInt`: does not model the undefined behaviour of the C++ conversion for values outside the `int` range; the DHT11 reports humidity in 0-100 %.
- Pin I/O, `tone`/`noTone` and the LCD driver: the pins are booleans, and the LCD is a log of abstract commands. The buzzer's 1000 Hz frequency is not modelled, only on/off.
- One-decimal formatting of `lcd.print(x, 1)`: kept as the abstract command `PrintReal1(x)`.
- `Serial.println` diagnostics: recorded only as the logged lines in `Readings.Reading.log`.
- The orchestration in `loop` (main.c++:61-91) and its `delay(2000)`. The polling cadence appears only as the spacing assumption of `Display.SpacedPollsAlwaysSwitch`.
- `Display.DisplayScheduler.Tick`: the sketch reads `millis()` twice (lines 144 and 145). The model uses one clock reading `now` for both, so it does not capture a tick between the two calls.
- `Display.Step`: uses Dafny's `%`, which agrees with C's only for a non-negative screen counter. The counter never leaves 0..2.
