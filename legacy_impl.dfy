/**
 * The interrupt-driven controller as an object whose handlers update its
 * fields in place; each method is proved to end where the matching function
 * of module LegacyController says.
 */
module LegacyImpl {
  import opened Timers
  import opened Led
  import opened LegacyController

  class WaterFilter {
    const led: LEDController
    /** every level driven onto the control pin, oldest first */
    var pin5: seq<int>
    var blinkTimer: Timer
    var stopTimer: Timer
    var stopCallback: StopCallback
    var startTimer: Timer
    var completeTimer: Timer
    /** the anonymous pin timers still armed, oldest first */
    var pinOffTimers: seq<Timer>
    var state: State
    var lastPress: int

    function View(): Machine
      reads this, led
    {
      Machine(state, lastPress, blinkTimer, stopTimer, stopCallback, startTimer, completeTimer,
              pinOffTimers, pin5, led.View())
    }

    constructor ()
      ensures View() == Initial()
      ensures fresh(led)
    {
      led := new LEDController();
      pin5 := [];
      blinkTimer, stopTimer, startTimer, completeTimer := Unset, Unset, Unset, Unset;
      stopCallback := OnTimeout;
      pinOffTimers := [];
      state := Idle;
      lastPress := 0;
      new;
      led.SetColor(GREEN_LOW);
    }

    /** `_button_handler`, run on a rising edge at time `currentTime`. */
    method ButtonHandler(currentTime: int)
      modifies this, led
      ensures View() == LegacyController.ButtonHandler(old(View()), currentTime)
    {
      if currentTime - lastPress < DEBOUNCE_MS {
        return;
      }
      lastPress := currentTime;
      if state == Idle {
        StartSequence();
      } else if state == Blinking {
        StopSequence(true);
      }
    }

    method BlinkHandler()
      modifies led
      ensures View() == LegacyController.BlinkHandler(old(View()))
    {
      led.Toggle();
    }

    method CompletionSequence()
      modifies this, led
      ensures View() == LegacyController.CompletionSequence(old(View()))
    {
      state := Completing;
      blinkTimer := Deinit(blinkTimer);
      startTimer := Deinit(startTimer);
      stopTimer := Deinit(stopTimer);
      pin5 := pin5 + [1];
      led.SetColor(PINK_LOW);
      completeTimer := OneShot(COMPLETE_BLUE_TIME_MS);
      pinOffTimers := pinOffTimers + [OneShot(PIN5_HOLD_MS)];
    }

    method ReturnToIdle()
      modifies this, led
      ensures View() == LegacyController.ReturnToIdle(old(View()))
    {
      blinkTimer := Deinit(blinkTimer);
      startTimer := Deinit(startTimer);
      stopTimer := Deinit(stopTimer);
      completeTimer := Deinit(completeTimer);
      state := Idle;
      led.SetColor(GREEN_LOW);
    }

    method StartSequence()
      modifies this
      ensures View() == LegacyController.StartSequence(old(View()))
    {
      state := Starting;
      blinkTimer := Periodic(BLINK_PERIOD_MS);
      startTimer := OneShot(START_LOCKOUT_MS);
      stopTimer := OneShot(TOTAL_BLINK_TIME_MS);
      stopCallback := OnTimeout;
    }

    method EnterBlinkingState()
      modifies this
      ensures View() == LegacyController.EnterBlinkingState(old(View()))
    {
      state := Blinking;
    }

    method TimeoutSequence()
      modifies this, led
      ensures View() == LegacyController.TimeoutSequence(old(View()))
    {
      if state == Blinking || state == Starting {
        CompletionSequence();
      }
    }

    method StopSequence(showRed: bool)
      modifies this, led
      ensures View() == LegacyController.StopSequence(old(View()), showRed)
    {
      state := Stopping;
      blinkTimer := Deinit(blinkTimer);
      startTimer := Deinit(startTimer);
      if showRed {
        led.SetColor(RED_LOW);
        stopTimer := OneShot(RED_SHOW_TIME_MS);
        stopCallback := OnCompletion;
      } else {
        CompletionSequence();
      }
    }

    // Firings, as the timer scheduler delivers them.

    method BlinkTimerFires()
      modifies this, led
      ensures View() == LegacyController.BlinkTimerFires(old(View()))
    {
      if blinkTimer.armed {
        blinkTimer := Fired(blinkTimer);
        BlinkHandler();
      }
    }

    method StartTimerFires()
      modifies this
      ensures View() == LegacyController.StartTimerFires(old(View()))
    {
      if startTimer.armed {
        startTimer := Fired(startTimer);
        EnterBlinkingState();
      }
    }

    method StopTimerFires()
      modifies this, led
      ensures View() == LegacyController.StopTimerFires(old(View()))
    {
      if stopTimer.armed {
        stopTimer := Fired(stopTimer);
        match stopCallback
        case OnTimeout => TimeoutSequence();
        case OnCompletion => CompletionSequence();
      }
    }

    method CompleteTimerFires()
      modifies this, led
      ensures View() == LegacyController.CompleteTimerFires(old(View()))
    {
      if completeTimer.armed {
        completeTimer := Fired(completeTimer);
        ReturnToIdle();
      }
    }

    method PinOffTimerFires()
      modifies this
      ensures View() == LegacyController.PinOffTimerFires(old(View()))
    {
      if |pinOffTimers| > 0 {
        pinOffTimers := pinOffTimers[1..];
        pin5 := pin5 + [0];
      }
    }
  }
}
