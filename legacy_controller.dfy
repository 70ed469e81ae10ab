/**
 * The older, interrupt-driven controller (backup/main_2025-02-23_112821.py):
 * a rising edge on the button runs a debounced handler, five states, four
 * named timers, and a control pin that is driven HIGH on completion and LOW
 * again 3000 ms later.  As for the polled controller, every handler and
 * firing is a function on a value of the controller.
 */
module LegacyController {
  import opened Timers
  import opened Led

  const BLINK_PERIOD_MS := 500
  const TOTAL_BLINK_TIME_MS := 50000
  const RED_SHOW_TIME_MS := 1000
  const START_LOCKOUT_MS := 1000
  const COMPLETE_BLUE_TIME_MS := 1000
  const DEBOUNCE_MS := 100
  /** how long after completion the control pin is driven low again */
  const PIN5_HOLD_MS := 3000

  datatype State = Idle | Starting | Blinking | Stopping | Completing

  /** The callback the stop timer was armed with. */
  datatype StopCallback = OnTimeout | OnCompletion

  datatype Machine = Machine(
    state: State,
    /** time of the last accepted edge, for debouncing */
    lastPress: int,
    blinkTimer: Timer,
    stopTimer: Timer,
    stopCallback: StopCallback,
    startTimer: Timer,
    completeTimer: Timer,
    /** the anonymous `Timer()`s still armed, oldest first; each drives the pin low
        when it fires and is then spent and dropped */
    pinOffTimers: seq<Timer>,
    /** every level driven onto the control pin, oldest first */
    pin5: seq<int>,
    led: Indicator)

  /** The level the control pin is driven at; an undriven pin reads 0. */
  function Pin5Level(m: Machine): int {
    if m.pin5 == [] then 0 else m.pin5[|m.pin5| - 1]
  }

  /** `WaterFilter()`: the control pin is configured but not driven. */
  function Initial(): Machine {
    Machine(Idle, 0, Unset, Unset, OnTimeout, Unset, Unset, [], [], Fresh.SetColor(GREEN_LOW))
  }

  /** `_start_sequence` */
  function StartSequence(m: Machine): Machine {
    m.(state := Starting,
       blinkTimer := Periodic(BLINK_PERIOD_MS),
       startTimer := OneShot(START_LOCKOUT_MS),
       stopTimer := OneShot(TOTAL_BLINK_TIME_MS),
       stopCallback := OnTimeout)
  }

  /** `_enter_blinking_state` */
  function EnterBlinkingState(m: Machine): Machine {
    m.(state := Blinking)
  }

  /** `_completion_sequence`: stop the other timers, drive the pin high, show
      pink, return to IDLE in 1000 ms and drive the pin low in 3000 ms. */
  function CompletionSequence(m: Machine): Machine {
    var stopped := m.(state := Completing,
                      blinkTimer := Deinit(m.blinkTimer),
                      startTimer := Deinit(m.startTimer),
                      stopTimer := Deinit(m.stopTimer));
    var driven := stopped.(pin5 := stopped.pin5 + [1]);
    driven.(led := driven.led.SetColor(PINK_LOW),
            completeTimer := OneShot(COMPLETE_BLUE_TIME_MS),
            pinOffTimers := driven.pinOffTimers + [OneShot(PIN5_HOLD_MS)])
  }

  /** `_timeout_sequence` */
  function TimeoutSequence(m: Machine): Machine {
    if m.state == Blinking || m.state == Starting then CompletionSequence(m) else m
  }

  /** `_stop_sequence(show_red)` */
  function StopSequence(m: Machine, showRed: bool): Machine {
    var stopped := m.(state := Stopping,
                      blinkTimer := Deinit(m.blinkTimer),
                      startTimer := Deinit(m.startTimer));
    if showRed then
      stopped.(led := stopped.led.SetColor(RED_LOW),
               stopTimer := OneShot(RED_SHOW_TIME_MS),
               stopCallback := OnCompletion)
    else
      CompletionSequence(stopped)
  }

  /** `_return_to_idle` */
  function ReturnToIdle(m: Machine): Machine {
    var stopped := m.(blinkTimer := Deinit(m.blinkTimer),
                      startTimer := Deinit(m.startTimer),
                      stopTimer := Deinit(m.stopTimer),
                      completeTimer := Deinit(m.completeTimer));
    stopped.(state := Idle, led := stopped.led.SetColor(GREEN_LOW))
  }

  /** `_button_handler`, run on a rising edge at time `now`. */
  function ButtonHandler(m: Machine, now: int): Machine {
    if now - m.lastPress < DEBOUNCE_MS then
      m
    else
      var m1 := m.(lastPress := now);
      if m1.state == Idle then StartSequence(m1)
      else if m1.state == Blinking then StopSequence(m1, true)
      else m1
  }

  /** `_blink_handler` */
  function BlinkHandler(m: Machine): Machine {
    m.(led := m.led.Toggle())
  }

  // Timer firings: the callback runs only while its timer is armed.

  function BlinkTimerFires(m: Machine): Machine {
    if m.blinkTimer.armed then BlinkHandler(m.(blinkTimer := Fired(m.blinkTimer))) else m
  }

  function StartTimerFires(m: Machine): Machine {
    if m.startTimer.armed then EnterBlinkingState(m.(startTimer := Fired(m.startTimer))) else m
  }

  function StopTimerFires(m: Machine): Machine {
    if m.stopTimer.armed then
      var m1 := m.(stopTimer := Fired(m.stopTimer));
      match m1.stopCallback
      case OnTimeout => TimeoutSequence(m1)
      case OnCompletion => CompletionSequence(m1)
    else
      m
  }

  function CompleteTimerFires(m: Machine): Machine {
    if m.completeTimer.armed then ReturnToIdle(m.(completeTimer := Fired(m.completeTimer))) else m
  }

  /** The oldest anonymous pin timer fires, drives the pin low and is spent.
      All of them share one period, so the oldest is the first due. */
  function PinOffTimerFires(m: Machine): Machine {
    if |m.pinOffTimers| > 0 then m.(pinOffTimers := m.pinOffTimers[1..], pin5 := m.pin5 + [0]) else m
  }

  datatype Event = RisingEdge(now: int) | BlinkTick | StartTick | StopTick | CompleteTick | PinOffTick

  function Step(m: Machine, e: Event): Machine {
    match e
    case RisingEdge(now) => ButtonHandler(m, now)
    case BlinkTick => BlinkTimerFires(m)
    case StartTick => StartTimerFires(m)
    case StopTick => StopTimerFires(m)
    case CompleteTick => CompleteTimerFires(m)
    case PinOffTick => PinOffTimerFires(m)
  }

  function Run(m: Machine, events: seq<Event>): Machine
    decreases |events|
  {
    if events == [] then m else Run(Step(m, events[0]), events[1..])
  }
}
