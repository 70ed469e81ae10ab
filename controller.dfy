/**
 * The polled controller (`WaterFilter` in main.py) as a value and its
 * transitions as functions.  Every handler, every timer callback and every
 * firing is a function from the controller before to the controller after;
 * the class in ControllerImpl performs the same steps in place and is proved
 * to end where these functions say.  Times are plain integers and
 * `ticks_diff(end, start)` is `end - start`.  The blocking sleeps take no
 * time here: only the pin levels and pixel values they leave behind are kept.
 */
module Controller {
  import opened Wrappers
  import opened Timers
  import opened Led
  import Settings

  const BLINK_PERIOD_MS := 500
  const CONFIG_BLINK_PERIOD_MS := 200
  const BUTTON_LONG_PRESS_MS := 2000
  const IDLE_TIMEOUT_MS := 5000
  const BUTTON_POLL_MS := 100
  const LONG_PRESS_CHECK_MS := 100
  /** rounds of the success or failure flash after a training release */
  const FEEDBACK_FLASHES := 3

  /** The state string; any other string that ends up in the field is `Unrecognised`. */
  datatype State = Idle | Blinking | Training | Sleeping | Unrecognised(name: string)

  /** The callback the blink timer was armed with. */
  datatype BlinkCallback = GreenBlink | RapidBlink

  datatype Machine = Machine(
    state: State,
    canceling: bool,
    lastButtonState: bool,
    buttonPressStart: int,
    /** the run length, `TOTAL_BLINK_TIME_MS` */
    totalBlinkTimeMs: int,
    /** the settings file's content, `None` when it cannot be read */
    settingsFile: Option<string>,
    blinkTimer: Timer,
    blinkCallback: BlinkCallback,
    /** the completion timer */
    startTimer: Timer,
    longPressTimer: Timer,
    buttonPollTimer: Timer,
    idleTimer: Timer,
    /** every level driven onto the control pin, oldest first */
    pin5: seq<int>,
    led: Indicator)

  /** The level the control pin is driven at; an undriven pin reads 0. */
  function Pin5Level(m: Machine): int {
    if m.pin5 == [] then 0 else m.pin5[|m.pin5| - 1]
  }

  function TicksDiff(end: int, start: int): int {
    end - start
  }

  /** Loading the module and constructing the controller. */
  function Initial(file: Option<string>): Machine {
    var m := Machine(Idle, false, false, 0, Settings.ReadFromFile(file), file,
                     Unset, GreenBlink, Unset, Unset, Unset, Unset, [1], Fresh);
    StartIdleTimer(StartButtonPolling(m.(led := m.led.SetColor(GREEN_LOW))))
  }

  function StartButtonPolling(m: Machine): Machine {
    m.(buttonPollTimer := Periodic(BUTTON_POLL_MS))
  }

  /** `_start_idle_timer` */
  function StartIdleTimer(m: Machine): Machine {
    m.(idleTimer := OneShot(IDLE_TIMEOUT_MS))
  }

  /** `_execute_stop_to_idle_action`: stop the running timers, pulse the control
      pin low and back high, show red, then go to IDLE with green. */
  function StopToIdle(m: Machine): Machine {
    var stopped := m.(blinkTimer := Deinit(m.blinkTimer),
                      startTimer := Deinit(m.startTimer),
                      longPressTimer := Deinit(m.longPressTimer));
    var pulsed := stopped.(pin5 := stopped.pin5 + [0] + [1]);
    var red := pulsed.(led := pulsed.led.SetColor(RED_LOW));
    StartIdleTimer(red.(state := Idle, led := red.led.SetColor(GREEN_LOW)))
  }

  /** `_start_sequence` */
  function StartSequence(m: Machine): Machine {
    m.(blinkTimer := Periodic(BLINK_PERIOD_MS),
       blinkCallback := GreenBlink,
       startTimer := OneShot(m.totalBlinkTimeMs),
       longPressTimer := Deinit(m.longPressTimer),
       idleTimer := Deinit(m.idleTimer),
       state := Blinking)
  }

  /** `_start_training_blink` */
  function StartTrainingBlink(m: Machine): Machine {
    var stopped := m.(blinkTimer := Deinit(m.blinkTimer), idleTimer := Deinit(m.idleTimer));
    stopped.(led := stopped.led.SetColor(BLUE_LOW),
             blinkTimer := Periodic(CONFIG_BLINK_PERIOD_MS),
             blinkCallback := RapidBlink)
  }

  /** `_handle_button_press` */
  function Press(m: Machine, currentTime: int): Machine {
    var m1 := m.(buttonPressStart := currentTime);
    if m1.state == Idle && !m1.canceling then
      m1.(led := m1.led.SetColor(BLUE_LOW), longPressTimer := Periodic(LONG_PRESS_CHECK_MS))
    else if m1.state == Sleeping && !m1.canceling then
      m1
    else if m1.state == Training then
      m1
    else if m1.state == Blinking then
      StopToIdle(m1.(canceling := true,
                     blinkTimer := Deinit(m1.blinkTimer),
                     startTimer := Deinit(m1.startTimer)))
    else
      m1
  }

  /** The training branch of a release: save the captured time, update the run
      length only when the save succeeded, flash orange or red, stop to IDLE. */
  function TrainingRelease(m: Machine, configTime: int, saveSucceeds: bool): Machine {
    var saved := Settings.SaveToFile(m.settingsFile, configTime, saveSucceeds);
    var m1 := m.(settingsFile := saved.file);
    var m2 :=
      if saved.ok then m1.(totalBlinkTimeMs := configTime, led := m1.led.Flash(ORANGE_LOW, FEEDBACK_FLASHES))
      else m1.(led := m1.led.Flash(RED_LOW, FEEDBACK_FLASHES));
    StopToIdle(m2)
  }

  /** `_handle_button_release`; `saveSucceeds` is what `save_to_file` would report. */
  function Release(m: Machine, currentTime: int, saveSucceeds: bool): Machine {
    var pressDuration := TicksDiff(currentTime, m.buttonPressStart);
    var m1 := m.(longPressTimer := Deinit(m.longPressTimer));
    var m2 :=
      if m1.state == Idle && pressDuration < BUTTON_LONG_PRESS_MS && !m1.canceling then
        StartSequence(m1)
      else if m1.state == Sleeping && pressDuration < BUTTON_LONG_PRESS_MS && !m1.canceling then
        StopToIdle(m1)
      else if m1.state == Training then
        TrainingRelease(m1, TicksDiff(currentTime, m1.buttonPressStart), saveSucceeds)
      else
        m1;
    m2.(canceling := false)
  }

  /** `poll_button`: `level` is the button as sampled, `now` the time of the sample. */
  function Poll(m: Machine, level: bool, now: int, saveSucceeds: bool): Machine {
    if level != m.lastButtonState then
      var handled := if level then Press(m, now) else Release(m, now, saveSucceeds);
      handled.(lastButtonState := level)
    else
      m
  }

  /** `check_long_press`: `held` is the button as read, `now` the time of the check. */
  function CheckLongPress(m: Machine, held: bool, now: int): Machine {
    if held && TicksDiff(now, m.buttonPressStart) >= BUTTON_LONG_PRESS_MS then
      StartTrainingBlink(m.(longPressTimer := Deinit(m.longPressTimer), state := Training))
    else
      m
  }

  /** `idle_timeout` */
  function IdleTimeout(m: Machine): Machine {
    if m.state == Idle then m.(led := m.led.TurnOff(), state := Sleeping) else m
  }

  /** `blink`: toggle, and when the pixel went dark remember green for the next tick. */
  function Blink(m: Machine): Machine {
    var toggled := m.led.Toggle();
    m.(led := if !toggled.isOn then toggled.(currentColor := GREEN_LOW) else toggled)
  }

  /** `rapid_blink`: as `blink` with blue, and only while training. */
  function RapidBlinkTick(m: Machine): Machine {
    if m.state == Training then
      var toggled := m.led.Toggle();
      m.(led := if !toggled.isOn then toggled.(currentColor := BLUE_LOW) else toggled)
    else
      m
  }

  // Timer firings: the callback runs only while its timer is armed.

  function PollTimerFires(m: Machine, level: bool, now: int, saveSucceeds: bool): Machine {
    if m.buttonPollTimer.armed then
      Poll(m.(buttonPollTimer := Fired(m.buttonPollTimer)), level, now, saveSucceeds)
    else
      m
  }

  function LongPressTimerFires(m: Machine, held: bool, now: int): Machine {
    if m.longPressTimer.armed then
      CheckLongPress(m.(longPressTimer := Fired(m.longPressTimer)), held, now)
    else
      m
  }

  function IdleTimerFires(m: Machine): Machine {
    if m.idleTimer.armed then IdleTimeout(m.(idleTimer := Fired(m.idleTimer))) else m
  }

  function CompletionTimerFires(m: Machine): Machine {
    if m.startTimer.armed then StopToIdle(m.(startTimer := Fired(m.startTimer))) else m
  }

  function BlinkTimerFires(m: Machine): Machine {
    if m.blinkTimer.armed then
      var m1 := m.(blinkTimer := Fired(m.blinkTimer));
      match m1.blinkCallback
      case GreenBlink => Blink(m1)
      case RapidBlink => RapidBlinkTick(m1)
    else
      m
  }

  /** Everything that can happen to the controller, one callback at a time. */
  datatype Event =
    | PollTick(level: bool, now: int, saveSucceeds: bool)
    | LongPressTick(held: bool, now: int)
    | IdleTick
    | CompletionTick
    | BlinkTick

  function Step(m: Machine, e: Event): Machine {
    match e
    case PollTick(level, now, ok) => PollTimerFires(m, level, now, ok)
    case LongPressTick(held, now) => LongPressTimerFires(m, held, now)
    case IdleTick => IdleTimerFires(m)
    case CompletionTick => CompletionTimerFires(m)
    case BlinkTick => BlinkTimerFires(m)
  }

  function Run(m: Machine, events: seq<Event>): Machine
    decreases |events|
  {
    if events == [] then m else Run(Step(m, events[0]), events[1..])
  }
}
