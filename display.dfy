/**
 * `mostrarNoLCD` (main.c++:143-204): a polled state machine over the
 * time of the last screen switch and the current screen. Whenever at least
 * `DisplayInterval` milliseconds (counted on the wrapping 32-bit clock) have
 * passed, it moves to the next of the three screens and redraws the LCD.
 */
module Display {
  import opened Wrappers
  import opened Classifier

  const DisplayInterval: int := 2000
  const ClockModulus: int := 0x1_0000_0000

  /** A reading of Arduino's `millis()`, an `unsigned long` of 32 bits. */
  type Millis = x: int | 0 <= x < 0x1_0000_0000

  const LightScreen: int := 0
  const TemperatureScreen: int := 1
  const HumidityScreen: int := 2

  /** The commands the sketch sends to the LCD driver. */
  datatype LcdCommand =
    | Clear
    | SetCursor(col: nat, row: nat)
    | PrintText(text: string)
    | PrintInt(n: int)
    | PrintReal1(x: real)  // a number printed with one decimal place

  /** `millis() - tempoAnterior` in unsigned arithmetic: wraps when the clock has rolled over. */
  function Elapsed(last: Millis, now: Millis): (d: int)
    ensures 0 <= d < ClockModulus
    ensures last <= now ==> d == now - last
    ensures now < last ==> d == ClockModulus - last + now
  {
    (now - last) % ClockModulus
  }

  predicate Due(last: Millis, now: Millis) {
    Elapsed(last, now) >= DisplayInterval
  }

  /** The start every first-line label of a screen has. */
  function ScreenPrefix(screen: int): string {
    if screen == LightScreen then "Luz: "
    else if screen == TemperatureScreen then "Temp: "
    else "Umidade: "
  }

  /** The first line a screen shows for a level; no line for a level outside 0..2. */
  function Label(screen: int, level: int): (r: Option<string>)
    ensures r.Some? <==> IsLevel(screen) && IsLevel(level)
    ensures r.Some? ==> ScreenPrefix(screen) <= r.value
  {
    if screen == LightScreen then
      if level == 0 then Some("Luz: Ideal")
      else if level == 1 then Some("Luz: Alerta")
      else if level == 2 then Some("Luz: Critica")
      else None
    else if screen == TemperatureScreen then
      if level == 0 then Some("Temp: Ideal")
      else if level == 1 then Some("Temp: Alerta")
      else if level == 2 then Some("Temp: Critica")
      else None
    else if screen == HumidityScreen then
      if level == 0 then Some("Umidade: OK")
      else if level == 1 then Some("Umidade: Alerta")
      else if level == 2 then Some("Umidade: Critica")
      else None
    else None
  }

  /** On every screen, different levels give different labels. */
  lemma LabelTellsLevelsApart(screen: int, level1: int, level2: int)
    requires IsLevel(screen) && IsLevel(level1) && IsLevel(level2)
    requires Label(screen, level1) == Label(screen, level2)
    ensures level1 == level2
  {
  }

  /** The humidity screen says "OK", not "Ideal", for level 0. */
  lemma HumidityIdealLabel()
    ensures Label(HumidityScreen, 0) == Some("Umidade: OK")
  {
  }

  /** The level a screen reports. */
  function LevelFor(screen: int, lightLevel: int, tempLevel: int, humidLevel: int): int {
    if screen == LightScreen then lightLevel
    else if screen == TemperatureScreen then tempLevel
    else humidLevel
  }

  /** The second line of a screen: the raw value with its unit. */
  function ValueLine(screen: int, light: int, temp: real, humid: real): seq<LcdCommand> {
    if screen == LightScreen then [PrintText("Valor: "), PrintInt(light)]
    else if screen == TemperatureScreen then [PrintReal1(temp), PrintText("C")]
    else if screen == HumidityScreen then [PrintReal1(humid), PrintText("%")]
    else []
  }

  function LabelLine(first: Option<string>): seq<LcdCommand> {
    if first.Some? then [PrintText(first.value)] else []
  }

  /** Everything the LCD receives when `screen` is drawn. */
  function Render(screen: int, light: int, temp: real, humid: real,
                  lightLevel: int, tempLevel: int, humidLevel: int): (r: seq<LcdCommand>)
    ensures |r| >= 2 && r[0] == Clear && r[1] == SetCursor(0, 0)
    ensures IsLevel(screen) && IsLevel(LevelFor(screen, lightLevel, tempLevel, humidLevel)) ==>
      |r| == 6 && r[2] == PrintText(Label(screen, LevelFor(screen, lightLevel, tempLevel, humidLevel)).value)
      && r[3] == SetCursor(0, 1)
    ensures IsLevel(screen) && !IsLevel(LevelFor(screen, lightLevel, tempLevel, humidLevel)) ==>
      |r| == 5 && r[2] == SetCursor(0, 1)
    ensures !IsLevel(screen) ==> r == [Clear, SetCursor(0, 0)]
    ensures screen == LightScreen ==> r[|r| - 2..] == [PrintText("Valor: "), PrintInt(light)]
    ensures screen == TemperatureScreen ==> r[|r| - 2..] == [PrintReal1(temp), PrintText("C")]
    ensures screen == HumidityScreen ==> r[|r| - 2..] == [PrintReal1(humid), PrintText("%")]
  {
    if IsLevel(screen) then
      [Clear, SetCursor(0, 0)]
        + LabelLine(Label(screen, LevelFor(screen, lightLevel, tempLevel, humidLevel)))
        + [SetCursor(0, 1)]
        + ValueLine(screen, light, temp, humid)
    else
      [Clear, SetCursor(0, 0)]
  }

  /** The scheduler's persistent state, `telaAtual` and `tempoAnterior`. */
  datatype DisplayState = DisplayState(screen: int, lastSwitch: Millis)

  const Initial: DisplayState := DisplayState(LightScreen, 0)

  /** One poll of the scheduler at clock reading `now`. */
  function Step(s: DisplayState, now: Millis): (t: DisplayState)
    ensures !Due(s.lastSwitch, now) ==> t == s
    ensures Due(s.lastSwitch, now) ==> t.lastSwitch == now && t.screen == (s.screen + 1) % 3
    ensures IsLevel(s.screen) ==> IsLevel(t.screen)
  {
    if Due(s.lastSwitch, now) then DisplayState((s.screen + 1) % 3, now) else s
  }

  /** After a switch at `now`, a poll less than an interval later changes nothing. */
  lemma NoSwitchWithinInterval(s: DisplayState, now: Millis, later: Millis)
    requires Due(s.lastSwitch, now)
    requires Elapsed(now, later) < DisplayInterval
    ensures Step(Step(s, now), later) == Step(s, now)
  {
  }

  /** The state after polling at each of `nows` in turn. */
  function Run(s: DisplayState, nows: seq<Millis>): DisplayState
    decreases |nows|
  {
    if nows == [] then s else Run(Step(s, nows[0]), nows[1..])
  }

  /** The screens switched to, in order, while polling at each of `nows`. */
  function Visited(s: DisplayState, nows: seq<Millis>): seq<int>
    decreases |nows|
  {
    if nows == [] then []
    else
      var t := Step(s, nows[0]);
      (if Due(s.lastSwitch, nows[0]) then [t.screen] else []) + Visited(t, nows[1..])
  }

  lemma ModThree(a: int, b: nat)
    ensures ((a % 3) + b) % 3 == (a + b) % 3
  {
  }

  /**
   * The screens are visited in strict rotation, never skipping or repeating
   * one, and the final screen is the start advanced once per switch.
   */
  lemma {:induction false} RotationNeverSkips(s: DisplayState, nows: seq<Millis>)
    requires IsLevel(s.screen)
    ensures |Visited(s, nows)| <= |nows|
    ensures forall i :: 0 <= i < |Visited(s, nows)| ==> Visited(s, nows)[i] == (s.screen + i + 1) % 3
    ensures Run(s, nows).screen == (s.screen + |Visited(s, nows)|) % 3
    decreases |nows|
  {
    if nows != [] {
      var t := Step(s, nows[0]);
      RotationNeverSkips(t, nows[1..]);
      if Due(s.lastSwitch, nows[0]) {
        var v := Visited(t, nows[1..]);
        assert Visited(s, nows) == [t.screen] + v;
        forall i | 0 <= i < |v|
          ensures v[i] == (s.screen + (i + 1) + 1) % 3
        {
          ModThree(s.screen + 1, i + 1);
        }
        ModThree(s.screen + 1, |v|);
      }
    }
  }

  /** Every poll comes at least one interval after the one before it (`start` before the first). */
  predicate Spaced(start: Millis, nows: seq<Millis>) {
    (|nows| > 0 ==> Due(start, nows[0]))
    && forall i :: 0 < i < |nows| ==> Due(nows[i - 1], nows[i])
  }

  /** Polls spaced by at least the interval, as the loop's own delay gives, switch every time. */
  lemma {:induction false} SpacedPollsAlwaysSwitch(s: DisplayState, nows: seq<Millis>)
    requires Spaced(s.lastSwitch, nows)
    ensures |Visited(s, nows)| == |nows|
    decreases |nows|
  {
    if nows != [] {
      var t := Step(s, nows[0]);
      assert t.lastSwitch == nows[0];
      if |nows| > 1 {
        assert Due(nows[0], nows[1]);
      }
      SpacedPollsAlwaysSwitch(t, nows[1..]);
    }
  }

  /** From power-up, polls one interval apart show the screens 1, 2, 0, 1, ... */
  lemma StartupRotation(nows: seq<Millis>)
    requires Spaced(Initial.lastSwitch, nows)
    ensures |Visited(Initial, nows)| == |nows|
    ensures forall i :: 0 <= i < |nows| ==> Visited(Initial, nows)[i] == (i + 1) % 3
  {
    SpacedPollsAlwaysSwitch(Initial, nows);
    RotationNeverSkips(Initial, nows);
  }

  /** The globals `tempoAnterior` and `telaAtual` (main.c++:36-38) and the LCD's command log. */
  class DisplayScheduler {
    var lastSwitch: Millis
    var screen: int
    var output: seq<LcdCommand>

    predicate Valid()
      reads this
    {
      IsLevel(screen)
    }

    function State(): DisplayState
      reads this
    {
      DisplayState(screen, lastSwitch)
    }

    constructor ()
      ensures Valid() && State() == Initial && output == []
    {
      lastSwitch, screen, output := 0, LightScreen, [];
    }

    /**
     * One call of the display routine at clock reading `now`. When an
     * interval has passed it records `now`, advances the screen and draws it;
     * otherwise nothing changes and the LCD keeps what it shows.
     */
    method Tick(now: Millis, light: int, temp: real, humid: real,
                lightLevel: int, tempLevel: int, humidLevel: int)
      requires Valid()
      modifies this
      ensures Valid()
      ensures State() == Step(old(State()), now)
      ensures output == old(output) +
        (if Due(old(lastSwitch), now)
         then Render(screen, light, temp, humid, lightLevel, tempLevel, humidLevel)
         else [])
    {
      if Elapsed(lastSwitch, now) >= DisplayInterval {
        lastSwitch := now;
        screen := (screen + 1) % 3;
        // the commands of this redraw, in the order the driver receives them
        var cmds := [Clear, SetCursor(0, 0)];
        if screen == LightScreen {
          var first := Label(LightScreen, lightLevel);
          if first.Some? { cmds := cmds + [PrintText(first.value)]; }
          cmds := cmds + [SetCursor(0, 1)];
          cmds := cmds + [PrintText("Valor: "), PrintInt(light)];
          assert cmds == [Clear, SetCursor(0, 0)] + LabelLine(first) + [SetCursor(0, 1)] + ValueLine(LightScreen, light, temp, humid);
        } else if screen == TemperatureScreen {
          var first := Label(TemperatureScreen, tempLevel);
          if first.Some? { cmds := cmds + [PrintText(first.value)]; }
          cmds := cmds + [SetCursor(0, 1)];
          cmds := cmds + [PrintReal1(temp), PrintText("C")];
          assert cmds == [Clear, SetCursor(0, 0)] + LabelLine(first) + [SetCursor(0, 1)] + ValueLine(TemperatureScreen, light, temp, humid);
        } else {
          var first := Label(HumidityScreen, humidLevel);
          if first.Some? { cmds := cmds + [PrintText(first.value)]; }
          cmds := cmds + [SetCursor(0, 1)];
          cmds := cmds + [PrintReal1(humid), PrintText("%")];
          assert cmds == [Clear, SetCursor(0, 0)] + LabelLine(first) + [SetCursor(0, 1)] + ValueLine(HumidityScreen, light, temp, humid);
        }
        assert cmds == Render(screen, light, temp, humid, lightLevel, tempLevel, humidLevel);
        output := output + cmds;
      }
    }
  }
}
