/**
 * What the polled controller promises, stated over the transition functions
 * of module Controller: the behaviour of each handler, an invariant every
 * event keeps (timers only run in the state they belong to, the control pin
 * rests high, the pixel agrees with the remembered colour, the run length in
 * memory is the one a restart would load), and that IDLE stays reachable.
 */
module ControllerProperties {
  import opened Wrappers
  import opened Timers
  import opened Led
  import Settings
  import opened Controller

  /** A sample equal to the last one produces no event; a rising edge is a press,
      a falling edge a release; afterwards the sample is remembered. */
  lemma PollDetectsEdges(m: Machine, level: bool, now: int, ok: bool)
    ensures Poll(m, level, now, ok).lastButtonState == level
    ensures level == m.lastButtonState ==> Poll(m, level, now, ok) == m
    ensures level && !m.lastButtonState ==> Poll(m, level, now, ok) == Press(m, now).(lastButtonState := true)
    ensures !level && m.lastButtonState ==> Poll(m, level, now, ok) == Release(m, now, ok).(lastButtonState := false)
  {
  }

  lemma InitialState(file: Option<string>)
    ensures Initial(file).state == Idle && !Initial(file).canceling
    ensures Pin5Level(Initial(file)) == 1
    ensures Initial(file).led.isOn && Initial(file).led.currentColor == GREEN_LOW
    ensures Initial(file).led.Pixel() == GREEN_LOW
    ensures Initial(file).buttonPollTimer == Periodic(100)
    ensures Initial(file).idleTimer == OneShot(5000)
    ensures !Initial(file).blinkTimer.armed && !Initial(file).startTimer.armed
    ensures !Initial(file).longPressTimer.armed
    ensures Initial(file).totalBlinkTimeMs == Settings.ReadFromFile(file)
  {
  }

  /** Every press records its time, whatever the state or the canceling flag. */
  lemma PressRecordsStart(m: Machine, now: int)
    ensures Press(m, now).buttonPressStart == now
  {
  }

  /** A press in IDLE (not canceling) shows blue and starts sampling for a long press. */
  lemma PressInIdle(m: Machine, now: int)
    requires m.state == Idle && !m.canceling
    ensures Press(m, now) == m.(buttonPressStart := now, led := m.led.SetColor(BLUE_LOW),
                                longPressTimer := Periodic(100))
  {
  }

  /** A press while canceling in IDLE, or any press in SLEEPING or TRAINING, only records its time. */
  lemma InertPresses(m: Machine, now: int)
    requires (m.state == Idle && m.canceling) || m.state == Sleeping || m.state == Training
    ensures Press(m, now) == m.(buttonPressStart := now)
  {
  }

  /** `_execute_stop_to_idle_action` ends in IDLE from any state, unrecognised ones
      included: the pin was driven low then high, red then green was shown, the
      running timers are stopped and the idle timer is re-armed for 5000 ms. */
  lemma StopToIdleFromAnyState(m: Machine)
    ensures StopToIdle(m).state == Idle
    ensures StopToIdle(m).pin5 == m.pin5 + [0, 1] && Pin5Level(StopToIdle(m)) == 1
    ensures StopToIdle(m).led.written == m.led.written + [RED_LOW, GREEN_LOW]
    ensures StopToIdle(m).led.isOn && StopToIdle(m).led.currentColor == GREEN_LOW
    ensures StopToIdle(m).led.Pixel() == GREEN_LOW
    ensures !StopToIdle(m).blinkTimer.armed && !StopToIdle(m).startTimer.armed
    ensures !StopToIdle(m).longPressTimer.armed
    ensures StopToIdle(m).idleTimer == OneShot(5000)
    ensures StopToIdle(m).canceling == m.canceling
    ensures StopToIdle(m).totalBlinkTimeMs == m.totalBlinkTimeMs
    ensures StopToIdle(m).settingsFile == m.settingsFile
    ensures StopToIdle(m).buttonPollTimer == m.buttonPollTimer
  {
  }

  /** A press while blinking cancels: the flag is set, blinking and completion are
      stopped, and the stop-to-idle action runs. */
  lemma PressInBlinkingCancels(m: Machine, now: int)
    requires m.state == Blinking
    ensures Press(m, now) == StopToIdle(m.(buttonPressStart := now, canceling := true))
    ensures Press(m, now).canceling && Press(m, now).state == Idle
    ensures !Press(m, now).blinkTimer.armed && !Press(m, now).startTimer.armed
  {
  }

  /** Every release disarms the long-press check and clears the canceling flag. */
  lemma ReleaseResets(m: Machine, now: int, ok: bool)
    ensures !Release(m, now, ok).longPressTimer.armed
    ensures !Release(m, now, ok).canceling
  {
  }

  /** The release that ends a canceling press starts no new sequence. */
  lemma CancelThenRelease(m: Machine, pressTime: int, releaseTime: int, ok: bool)
    requires m.state == Blinking
    ensures Release(Press(m, pressTime), releaseTime, ok)
            == Press(m, pressTime).(longPressTimer := Deinit(Press(m, pressTime).longPressTimer),
                                    canceling := false)
    ensures Release(Press(m, pressTime), releaseTime, ok).state == Idle
    ensures !Release(Press(m, pressTime), releaseTime, ok).blinkTimer.armed
    ensures !Release(Press(m, pressTime), releaseTime, ok).startTimer.armed
  {
  }

  /** A short release in IDLE starts the sequence: green blinking every 500 ms,
      completion after the configured run length, no idle or long-press timer. */
  lemma ShortReleaseStartsBlinking(m: Machine, now: int, ok: bool)
    requires m.state == Idle && now - m.buttonPressStart < 2000 && !m.canceling
    ensures Release(m, now, ok).state == Blinking
    ensures Release(m, now, ok).blinkTimer == Periodic(500)
    ensures Release(m, now, ok).blinkCallback == GreenBlink
    ensures Release(m, now, ok).startTimer == OneShot(m.totalBlinkTimeMs)
    ensures !Release(m, now, ok).idleTimer.armed && !Release(m, now, ok).longPressTimer.armed
    ensures Release(m, now, ok).led == m.led && !Release(m, now, ok).canceling
  {
  }

  /** A long release in IDLE (the check never saw the hold) changes nothing but the
      long-press timer and the flag; the pixel keeps showing what the press set. */
  lemma LongReleaseInIdleIsIgnored(m: Machine, now: int, ok: bool)
    requires m.state == Idle && now - m.buttonPressStart >= 2000
    ensures Release(m, now, ok) == m.(longPressTimer := Deinit(m.longPressTimer), canceling := false)
  {
  }

  /** The long-press check enters TRAINING exactly when the button is still held
      2000 ms or more after the press, whatever the state; then it stops the
      long-press and idle timers, shows blue and blinks every 200 ms.  Otherwise
      nothing changes. */
  lemma LongPressCheck(m: Machine, held: bool, now: int)
    ensures held && now - m.buttonPressStart >= 2000 ==>
      && CheckLongPress(m, held, now).state == Training
      && !CheckLongPress(m, held, now).longPressTimer.armed
      && !CheckLongPress(m, held, now).idleTimer.armed
      && CheckLongPress(m, held, now).blinkTimer == Periodic(200)
      && CheckLongPress(m, held, now).blinkCallback == RapidBlink
      && CheckLongPress(m, held, now).led == m.led.SetColor(BLUE_LOW)
    ensures !(held && now - m.buttonPressStart >= 2000) ==> CheckLongPress(m, held, now) == m
    ensures CheckLongPress(m, held, now).state == Training <==>
            (held && now - m.buttonPressStart >= 2000) || m.state == Training
  {
  }

  /** A release in TRAINING saves the captured hold time (no positivity check):
      on success it becomes the run length and what the file reads back, on
      failure both stay; orange or red flashes three times, then stop-to-idle. */
  lemma TrainingReleaseOutcome(m: Machine, now: int, ok: bool)
    requires m.state == Training
    ensures var r := Release(m, now, ok);
      && (ok ==> r.totalBlinkTimeMs == now - m.buttonPressStart
                 && Settings.ReadFromFile(r.settingsFile) == now - m.buttonPressStart)
      && (!ok ==> r.totalBlinkTimeMs == m.totalBlinkTimeMs && r.settingsFile == m.settingsFile)
      && r.state == Idle && !r.canceling
      && r.led.isOn && r.led.Pixel() == GREEN_LOW
      && r.led.written == m.led.written + FlashWrites(if ok then ORANGE_LOW else RED_LOW, 3)
                          + [RED_LOW, GREEN_LOW]
      && r.pin5 == m.pin5 + [0, 1]
  {
    var d := now - m.buttonPressStart;
    var m1 := m.(longPressTimer := Deinit(m.longPressTimer));
    FlashPattern(m1.led, if ok then ORANGE_LOW else RED_LOW, 3);
    if ok {
      Settings.SaveThenRead(m1.settingsFile, d);
    }
  }

  /** The idle timeout sends IDLE to SLEEPING with the pixel dark and does nothing elsewhere. */
  lemma IdleTimeoutSleeps(m: Machine)
    ensures m.state == Idle ==>
      && IdleTimeout(m).state == Sleeping
      && !IdleTimeout(m).led.isOn && IdleTimeout(m).led.Pixel() == OFF
      && IdleTimeout(m).led.currentColor == m.led.currentColor
    ensures m.state != Idle ==> IdleTimeout(m) == m
  {
  }

  /** In SLEEPING a short release (not canceling) wakes to IDLE through stop-to-idle;
      a long one leaves the controller asleep. */
  lemma SleepingRelease(m: Machine, now: int, ok: bool)
    requires m.state == Sleeping
    ensures now - m.buttonPressStart < 2000 && !m.canceling ==>
      Release(m, now, ok) == StopToIdle(m.(longPressTimer := Deinit(m.longPressTimer)))
    ensures now - m.buttonPressStart < 2000 && !m.canceling ==> Release(m, now, ok).state == Idle
    ensures now - m.buttonPressStart >= 2000 ==>
      Release(m, now, ok) == m.(longPressTimer := Deinit(m.longPressTimer), canceling := false)
  {
  }

  /** A blink tick that darkens the pixel remembers green, so the next tick lights green. */
  lemma BlinkReturnsToGreen(m: Machine)
    requires m.led.isOn
    ensures !Blink(m).led.isOn && Blink(m).led.currentColor == GREEN_LOW
    ensures Blink(Blink(m)).led.isOn && Blink(Blink(m)).led.Pixel() == GREEN_LOW
  {
  }

  /** The training blink only acts while training, and darkening remembers blue. */
  lemma RapidBlinkOnlyWhileTraining(m: Machine)
    ensures m.state != Training ==> RapidBlinkTick(m) == m
    ensures m.state == Training && m.led.isOn ==>
      !RapidBlinkTick(m).led.isOn && RapidBlinkTick(m).led.currentColor == BLUE_LOW
    ensures m.state == Training && !m.led.isOn ==>
      RapidBlinkTick(m).led.isOn && RapidBlinkTick(m).led.Pixel() == m.led.currentColor
  {
  }

  /**
   * The invariant of every reachable controller: each timer is armed only in the
   * state it belongs to (the completion timer for the current run length), IDLE
   * always has its 5000 ms idle timer pending, the control pin rests high, the
   * pixel agrees with the indicator's flag, a canceling press is still held, and
   * a restart would load the run length in use (given that a failed save leaves
   * the file as it was, as `Settings.SaveToFile` models it).
   */
  ghost predicate Inv(m: Machine) {
    && !m.state.Unrecognised?
    && m.buttonPollTimer == Periodic(100)
    && Pin5Level(m) == 1
    && m.led.Consistent()
    && (m.idleTimer.armed ==> m.state == Idle && m.idleTimer == OneShot(5000))
    && (m.state == Idle ==> m.idleTimer == OneShot(5000))
    && (m.longPressTimer.armed ==> (m.state == Idle || m.state == Sleeping) && m.longPressTimer == Periodic(100))
    && (m.startTimer.armed <==> m.state == Blinking)
    && (m.startTimer.armed ==> m.startTimer == OneShot(m.totalBlinkTimeMs))
    && (m.blinkTimer.armed <==> m.state == Blinking || m.state == Training)
    && (m.state == Blinking ==> m.blinkTimer == Periodic(500) && m.blinkCallback == GreenBlink)
    && (m.state == Training ==> m.blinkTimer == Periodic(200) && m.blinkCallback == RapidBlink)
    && (m.canceling ==> m.lastButtonState)
    && Settings.ReadFromFile(m.settingsFile) == m.totalBlinkTimeMs
  }

  lemma InitialSatisfiesInv(file: Option<string>)
    ensures Inv(Initial(file))
  {
  }

  lemma StopToIdleKeepsInv(m: Machine)
    requires m.buttonPollTimer == Periodic(100) && (m.canceling ==> m.lastButtonState)
    requires Settings.ReadFromFile(m.settingsFile) == m.totalBlinkTimeMs
    ensures Inv(StopToIdle(m))
  {
  }

  lemma PressKeepsInv(m: Machine, now: int)
    requires Inv(m)
    ensures Inv(Press(m, now).(lastButtonState := true))
  {
    if m.state == Blinking {
      StopToIdleKeepsInv(m.(buttonPressStart := now, canceling := true, lastButtonState := true,
                            blinkTimer := Deinit(m.blinkTimer), startTimer := Deinit(m.startTimer)));
    }
  }

  lemma TrainingReleaseKeepsInv(m: Machine, configTime: int, ok: bool)
    requires m.buttonPollTimer == Periodic(100)
    requires Settings.ReadFromFile(m.settingsFile) == m.totalBlinkTimeMs
    ensures Inv(TrainingRelease(m, configTime, ok).(canceling := false, lastButtonState := false))
  {
    var saved := Settings.SaveToFile(m.settingsFile, configTime, ok);
    if ok {
      Settings.SaveThenRead(m.settingsFile, configTime);
    }
    var m1 := m.(settingsFile := saved.file);
    var m2 :=
      if saved.ok then m1.(totalBlinkTimeMs := configTime, led := m1.led.Flash(ORANGE_LOW, FEEDBACK_FLASHES))
      else m1.(led := m1.led.Flash(RED_LOW, FEEDBACK_FLASHES));
    assert Settings.ReadFromFile(m2.settingsFile) == m2.totalBlinkTimeMs;
    StopToIdleKeepsInv(m2.(canceling := false, lastButtonState := false));
  }

  lemma ReleaseKeepsInv(m: Machine, now: int, ok: bool)
    requires Inv(m)
    ensures Inv(Release(m, now, ok).(lastButtonState := false))
  {
    var d := now - m.buttonPressStart;
    var m1 := m.(longPressTimer := Deinit(m.longPressTimer));
    if m.state == Idle && d < 2000 && !m.canceling {
    } else if m.state == Sleeping && d < 2000 && !m.canceling {
      StopToIdleKeepsInv(m1.(lastButtonState := false));
    } else if m.state == Training {
      TrainingReleaseKeepsInv(m1, d, ok);
      assert Release(m, now, ok).(lastButtonState := false)
          == TrainingRelease(m1, d, ok).(canceling := false, lastButtonState := false);
    }
  }

  /** Every event keeps the invariant. */
  lemma StepKeepsInv(m: Machine, e: Event)
    requires Inv(m)
    ensures Inv(Step(m, e))
  {
    match e
    case PollTick(level, now, ok) =>
      var m1 := m.(buttonPollTimer := Fired(m.buttonPollTimer));
      if level != m1.lastButtonState {
        if level {
          PressKeepsInv(m1, now);
        } else {
          ReleaseKeepsInv(m1, now, ok);
        }
      }
    case LongPressTick(held, now) =>
    case IdleTick =>
    case CompletionTick =>
    case BlinkTick =>
  }

  lemma {:induction false} RunKeepsInv(m: Machine, events: seq<Event>)
    requires Inv(m)
    ensures Inv(Run(m, events))
    decreases |events|
  {
    if events != [] {
      StepKeepsInv(m, events[0]);
      RunKeepsInv(Step(m, events[0]), events[1..]);
    }
  }

  /** From every controller satisfying the invariant some events lead back to IDLE. */
  lemma CanReachIdle(m: Machine)
    requires Inv(m)
    ensures exists events :: Run(m, events).state == Idle
  {
    var t := m.buttonPressStart;
    var press := PollTick(true, t, false);
    var release := PollTick(false, t, false);
    match m.state
    case Idle =>
      assert Run(m, []) == m;
    case Blinking =>
      assert Run(m, [CompletionTick]).state == Idle;
    case Training =>
      if m.lastButtonState {
        assert Run(m, [release]).state == Idle;
      } else {
        var m1 := Step(m, press);
        assert m1.state == Training;
        assert Run(m, [press, release]) == Run(m1, [release]);
        assert Run(m1, [release]).state == Idle;
      }
    case Sleeping =>
      if !m.lastButtonState {
        var m1 := Step(m, press);
        assert m1.state == Sleeping && !m1.canceling && m1.buttonPressStart == t;
        assert Run(m, [press, release]) == Run(m1, [release]);
        assert Run(m1, [release]).state == Idle;
      } else if !m.canceling {
        assert Run(m, [release]).state == Idle;
      } else {
        var m1 := Step(m, release);
        assert m1.state == Sleeping && !m1.canceling && !m1.lastButtonState;
        var m2 := Step(m1, press);
        assert m2.state == Sleeping && !m2.canceling && m2.buttonPressStart == t;
        assert Run(m, [release, press, release]) == Run(m2, [release]);
        assert Run(m2, [release]).state == Idle;
      }
  }
}
