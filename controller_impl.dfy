/**
 * The polled controller as the object main.py builds: fields updated in
 * place, the indicator a separate `LEDController`, the run length a field
 * instead of a module global.  Every method is proved to leave the object
 * where the matching function of module Controller says.
 */
module ControllerImpl {
  import opened Wrappers
  import opened Timers
  import opened Led
  import Settings
  import opened Controller

  class WaterFilter {
    const led: LEDController
    /** every level driven onto the control pin, oldest first */
    var pin5: seq<int>
    var blinkTimer: Timer
    var blinkCallback: BlinkCallback
    /** the completion timer */
    var startTimer: Timer
    var longPressTimer: Timer
    var buttonPollTimer: Timer
    var idleTimer: Timer
    var state: State
    var lastButtonState: bool
    var buttonPressStart: int
    var canceling: bool
    /** `TOTAL_BLINK_TIME_MS` */
    var totalBlinkTimeMs: int
    /** the settings file's content, `None` when it cannot be read */
    var settingsFile: Option<string>

    function View(): Machine
      reads this, led
    {
      Machine(state, canceling, lastButtonState, buttonPressStart, totalBlinkTimeMs, settingsFile,
              blinkTimer, blinkCallback, startTimer, longPressTimer, buttonPollTimer, idleTimer,
              pin5, led.View())
    }

    /** Loading the run length from the settings file, then `WaterFilter()`. */
    constructor (file: Option<string>)
      ensures View() == Initial(file)
      ensures fresh(led)
    {
      totalBlinkTimeMs := Settings.ReadFromFile(file);
      settingsFile := file;
      led := new LEDController();
      pin5 := [1];
      blinkTimer, startTimer, longPressTimer, buttonPollTimer, idleTimer := Unset, Unset, Unset, Unset, Unset;
      blinkCallback := GreenBlink;
      state := Idle;
      lastButtonState := false;
      buttonPressStart := 0;
      canceling := false;
      new;
      led.SetColor(GREEN_LOW);
      StartButtonPolling();
      StartIdleTimer();
    }

    method StartButtonPolling()
      modifies this
      ensures View() == Controller.StartButtonPolling(old(View()))
    {
      ghost var before := View();
      buttonPollTimer := Periodic(BUTTON_POLL_MS);
      assert led.View() == before.led && pin5 == before.pin5;
    }

    /** `poll_button`, run by the poll timer with the sampled level and the time. */
    method PollButton(level: bool, now: int, saveSucceeds: bool)
      modifies this, led
      ensures View() == Poll(old(View()), level, now, saveSucceeds)
    {
      if level != lastButtonState {
        if level {
          HandleButtonPress(now);
        } else {
          HandleButtonRelease(now, saveSucceeds);
        }
        ghost var handled := View();
        lastButtonState := level;
        assert led.View() == handled.led && pin5 == handled.pin5;
      }
    }

    method HandleButtonPress(currentTime: int)
      modifies this, led
      ensures View() == Press(old(View()), currentTime)
    {
      ghost var before := View();
      buttonPressStart := currentTime;
      if state == Idle && !canceling {
        led.SetColor(BLUE_LOW);
        longPressTimer := Periodic(LONG_PRESS_CHECK_MS);
        assert pin5 == before.pin5;
      } else if state == Sleeping && !canceling {
        // nothing to do until the release
      } else if state == Training {
        // nothing to do until the release
      } else if state == Blinking {
        canceling := true;
        blinkTimer := Deinit(blinkTimer);
        startTimer := Deinit(startTimer);
        assert led.View() == before.led && pin5 == before.pin5;
        ExecuteStopToIdleAction();
      }
    }

    method HandleButtonRelease(currentTime: int, saveSucceeds: bool)
      modifies this, led
      ensures View() == Release(old(View()), currentTime, saveSucceeds)
    {
      ghost var before := View();
      var pressDuration := TicksDiff(currentTime, buttonPressStart);
      longPressTimer := Deinit(longPressTimer);
      assert led.View() == before.led && pin5 == before.pin5;
      if state == Idle && pressDuration < BUTTON_LONG_PRESS_MS && !canceling {
        StartSequence();
      } else if state == Sleeping && pressDuration < BUTTON_LONG_PRESS_MS && !canceling {
        ExecuteStopToIdleAction();
      } else if state == Training {
        var configTime := TicksDiff(currentTime, buttonPressStart);
        SaveTrainedTime(configTime, saveSucceeds);
      }
      ghost var handled := View();
      if canceling {
        canceling := false;
      }
      assert led.View() == handled.led && pin5 == handled.pin5;
    }

    /** The training branch of a release: save, flash the outcome, stop to IDLE. */
    method SaveTrainedTime(configTime: int, saveSucceeds: bool)
      modifies this, led
      ensures View() == TrainingRelease(old(View()), configTime, saveSucceeds)
    {
      ghost var before := View();
      var saved := Settings.SaveToFile(settingsFile, configTime, saveSucceeds);
      settingsFile := saved.file;
      if saved.ok {
        totalBlinkTimeMs := configTime;
        FlashFeedback(ORANGE_LOW);
      } else {
        FlashFeedback(RED_LOW);
      }
      assert pin5 == before.pin5;
      ExecuteStopToIdleAction();
    }

    /** The three "on, off" rounds after a training release. */
    method FlashFeedback(color: Grb)
      modifies led
      ensures led.View() == old(led.View()).Flash(color, FEEDBACK_FLASHES)
    {
      for i := 0 to FEEDBACK_FLASHES
        invariant led.View() == old(led.View()).Flash(color, i)
      {
        led.SetColor(color);
        led.TurnOff();
      }
    }

    method ExecuteStopToIdleAction()
      modifies this, led
      ensures View() == StopToIdle(old(View()))
    {
      ghost var before := View();
      blinkTimer := Deinit(blinkTimer);
      startTimer := Deinit(startTimer);
      longPressTimer := Deinit(longPressTimer);
      pin5 := pin5 + [0];
      pin5 := pin5 + [1];
      ghost var pulsed := View();
      assert pulsed == before.(blinkTimer := Deinit(before.blinkTimer),
                               startTimer := Deinit(before.startTimer),
                               longPressTimer := Deinit(before.longPressTimer),
                               pin5 := before.pin5 + [0] + [1]);
      led.SetColor(RED_LOW);
      assert View() == pulsed.(led := pulsed.led.SetColor(RED_LOW));
      ghost var red := View();
      state := Idle;
      led.SetColor(GREEN_LOW);
      assert View() == red.(state := Idle, led := red.led.SetColor(GREEN_LOW));
      StartIdleTimer();
    }

    method StartSequence()
      modifies this
      ensures View() == Controller.StartSequence(old(View()))
    {
      ghost var before := View();
      blinkTimer := Deinit(blinkTimer);
      startTimer := Deinit(startTimer);
      longPressTimer := Deinit(longPressTimer);
      idleTimer := Deinit(idleTimer);
      state := Blinking;
      blinkTimer := Periodic(BLINK_PERIOD_MS);
      blinkCallback := GreenBlink;
      startTimer := OneShot(totalBlinkTimeMs);
      assert led.View() == before.led && pin5 == before.pin5;
    }

    method StartTrainingBlink()
      modifies this, led
      ensures View() == Controller.StartTrainingBlink(old(View()))
    {
      ghost var before := View();
      blinkTimer := Deinit(blinkTimer);
      idleTimer := Deinit(idleTimer);
      led.SetColor(BLUE_LOW);
      blinkTimer := Periodic(CONFIG_BLINK_PERIOD_MS);
      blinkCallback := BlinkCallback.RapidBlink;
      assert pin5 == before.pin5;
    }

    method StartIdleTimer()
      modifies this
      ensures View() == Controller.StartIdleTimer(old(View()))
    {
      ghost var before := View();
      idleTimer := Deinit(idleTimer);
      idleTimer := OneShot(IDLE_TIMEOUT_MS);
      assert led.View() == before.led && pin5 == before.pin5;
    }

    /** `check_long_press`, with the button as read and the time of the check. */
    method CheckLongPress(held: bool, now: int)
      modifies this, led
      ensures View() == Controller.CheckLongPress(old(View()), held, now)
    {
      ghost var before := View();
      if held {
        var pressDuration := TicksDiff(now, buttonPressStart);
        if pressDuration >= BUTTON_LONG_PRESS_MS {
          longPressTimer := Deinit(longPressTimer);
          state := Training;
          assert led.View() == before.led && pin5 == before.pin5;
          StartTrainingBlink();
        }
      }
    }

    method IdleTimeout()
      modifies this, led
      ensures View() == Controller.IdleTimeout(old(View()))
    {
      ghost var before := View();
      if state == Idle {
        led.TurnOff();
        state := Sleeping;
        assert pin5 == before.pin5;
      }
    }

    method Blink()
      modifies led
      ensures View() == Controller.Blink(old(View()))
    {
      led.Toggle();
      if !led.isOn {
        led.currentColor := GREEN_LOW;
      }
    }

    method RapidBlink()
      modifies led
      ensures View() == RapidBlinkTick(old(View()))
    {
      if state == Training {
        led.Toggle();
        if !led.isOn {
          led.currentColor := BLUE_LOW;
        }
      }
    }

    // Firings, as the timer scheduler delivers them.

    method ButtonPollTimerFires(level: bool, now: int, saveSucceeds: bool)
      modifies this, led
      ensures View() == PollTimerFires(old(View()), level, now, saveSucceeds)
    {
      ghost var before := View();
      if buttonPollTimer.armed {
        buttonPollTimer := Fired(buttonPollTimer);
        assert led.View() == before.led && pin5 == before.pin5;
        PollButton(level, now, saveSucceeds);
      }
    }

    method LongPressTimerFires(held: bool, now: int)
      modifies this, led
      ensures View() == Controller.LongPressTimerFires(old(View()), held, now)
    {
      ghost var before := View();
      if longPressTimer.armed {
        longPressTimer := Fired(longPressTimer);
        assert led.View() == before.led && pin5 == before.pin5;
        CheckLongPress(held, now);
      }
    }

    method IdleTimerFires()
      modifies this, led
      ensures View() == Controller.IdleTimerFires(old(View()))
    {
      ghost var before := View();
      if idleTimer.armed {
        idleTimer := Fired(idleTimer);
        assert led.View() == before.led && pin5 == before.pin5;
        IdleTimeout();
      }
    }

    method CompletionTimerFires()
      modifies this, led
      ensures View() == Controller.CompletionTimerFires(old(View()))
    {
      ghost var before := View();
      if startTimer.armed {
        startTimer := Fired(startTimer);
        assert led.View() == before.led && pin5 == before.pin5;
        ExecuteStopToIdleAction();
      }
    }

    method BlinkTimerFires()
      modifies this, led
      ensures View() == Controller.BlinkTimerFires(old(View()))
    {
      ghost var before := View();
      if blinkTimer.armed {
        blinkTimer := Fired(blinkTimer);
        assert led.View() == before.led && pin5 == before.pin5;
        match blinkCallback
        case GreenBlink => Blink();
        case RapidBlink => RapidBlink();
      }
    }
  }
}
