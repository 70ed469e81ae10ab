# Water filter controller — a verified Dafny model

The system is a single-button timer for a water-filter actuator on an RP2040
board. One NeoPixel gives feedback, one output pin (`pin5`) drives the
actuator, and the run length is kept in `settings.txt`. This project models
the core of that program:

- **The polled controller** (`main.py`; `backup/main_2025-03-10_210458.py` is
  the same file line for line). A 100 ms poll turns button levels into press
  and release events. Five timers (blink, completion, long-press, poll, idle)
  drive four states: IDLE, BLINKING, TRAINING and SLEEPING. A `canceling` flag
  ends a cancelled run cleanly. A long press enters TRAINING, and the hold time
  becomes the new run length. The shared stop-to-idle routine pulses the pin
  low and then high, shows red, goes back to IDLE with green and restarts the
  idle timer.
- **The older interrupt-driven controller** (`backup/main_2025-02-23_112821.py`).
  A debounced rising-edge handler drives five states (IDLE, STARTING,
  BLINKING, STOPPING, COMPLETING) with four named timers. The pin is active
  HIGH there: completion drives it high, and an anonymous timer drives it
  low 3000 ms later.
- **The `LEDController`** shared by both controllers, and the `Color` value of
  `neopixel_colors.py`: clamping, green-red-blue ordering, brightness scaling
  and equality.
- **Persistence**: `save_to_file` writes `str(d)`, and `read_from_file` returns
  `int(content.strip())` or 50000.

Each controller has three modules. The first (`Controller`,
`LegacyController`) holds the controller's fields as a value. Every handler,
callback and timer firing is a function from the controller before to the
controller after. The second (`ControllerProperties`, `LegacyProperties`)
holds lemmas about those functions. They cover each transition, and an
invariant that every event keeps: a timer is armed only in the state it
belongs to, the pixel agrees with the indicator's flag, and the run length in
memory is the one a restart would load. That last part holds only because a
failed save is modelled as leaving the file as it was (see "Left out"). They also prove that IDLE can always
be reached again. The third (`ControllerImpl`, `LegacyImpl`) holds the
`WaterFilter` class. Its fields are updated in place, the indicator is a
separate `LEDController` object, and `TOTAL_BLINK_TIME_MS` is a field. Each of
its methods is proved to end in the state the matching function gives.

Timers follow MicroPython's `machine.Timer`. `init` stores a period and a mode
and arms the timer. `deinit` disarms it. A firing runs the callback only while
the timer is armed. A `Timer.ONE_SHOT` timer is spent once it fires, which is
what the device does and what the completion timer (main.py:285-287) and the
idle timer (main.py:323-325) rely on. The test double in `test_mocks.py`
differs here: its `trigger` runs the callback whenever one is set and never
disarms the timer, whatever the mode. When `init`
is called without a mode, the timer is periodic (MicroPython's default). This
applies to the long-press check and to the training blink. The pin and the
pixel are modelled as the lists of values written to them. The current level
is the last entry, so sequences such as "low, then high" or "red, then green"
can be stated. Times are plain integers, and `ticks_diff(end, start)` is
`end - start`.

The model follows the code where it is looser than the device's intended
contract:
- A captured training time is saved whatever its sign. Nothing rejects a
  value of 0 or below.
- A loaded value is used whatever its sign. Nothing replaces a non-positive
  value with the default.
- The long-press check does not look at the state.
- A release in IDLE held 2000 ms or more, before a long-press sample saw it,
  does nothing. The pixel stays blue until the idle timeout
  (`ControllerProperties.LongReleaseInIdleIsIgnored`).

## Model

| member | source | states |
|---|---|---|
| `Timers.Fired` | main.py:285-287 | a firing keeps period and mode; afterwards the timer is armed exactly when it is periodic: the one-shot completion timer here, and the one-shot idle timer at main.py:323-325, are spent as on the device, whereas the double's `trigger` (test_mocks.py:28-39) never disarms |
| `Led.LEDController.constructor` | main.py:59-62 | a fresh controller remembers green, is marked on and has written nothing |
| `Led.LEDController.SetColor` | main.py:64-68 | the new state is the old one with the colour remembered, shown and marked on |
| `Led.LEDController.TurnOff` | main.py:70-73 | the new state is the old one with the pixel dark and marked off, colour kept |
| `Led.LEDController.Toggle` | main.py:75-79 | the new state is the old one toggled: dark when on, the remembered colour when off |
| `Led.SetColorShows` | backup/main_2025-03-10_210458.py:64-68 | `set_color` always sets `is_on` and `current_color`, and the pixel shows that colour |
| `Led.TurnOffKeepsColor` | backup/main_2025-03-10_210458.py:70-73 | `turn_off` never changes `current_color`; the pixel is dark and the flag off |
| `Led.ToggleTwice` | backup/main_2025-03-10_210458.py:75-79 | two toggles restore the colour and `is_on`, and on a consistent indicator also what the pixel shows |
| `Led.ToggleWhenOn` | main.py:75-77 | toggling a lit indicator is `turn_off`: the pixel goes dark, the flag clears and the remembered colour is kept |
| `Led.ToggleRestoresLastColor` | main.py:75-79 | toggling a dark indicator shows exactly the last remembered colour, not a fixed default |
| `Led.FlashPattern` | main.py:207-219 | n flash rounds write colour then dark n times and leave the pixel dark with the colour remembered |
| `Settings.NatToDecimal` | main.py:34 | `str` of a natural number is a non-empty run of digits without a leading zero |
| `Settings.Str` | main.py:34 | `str(d)` is non-empty, has no leading whitespace and ends in a digit |
| `Settings.DecimalRoundTrip` | main.py:34 | the digits written for n denote n |
| `Settings.ParseStr` | main.py:30-45 | `int(str(d).strip())` is d for every integer d, negative ones included |
| `Settings.SaveThenRead` | main.py:30-45 | after a successful save, `read_from_file` returns exactly the saved duration |
| `Settings.FailedSaveKeepsFile` | main.py:30-37 | a failed save reports failure; the model leaves the file as it was (a simplification, see "Left out") |
| `Settings.ReadFallsBack` | main.py:39-45 | a missing file, or content that is not an integer, reads as 50000 |
| `Settings.ReadExamples` | main.py:39-45 | surrounding whitespace and a sign are accepted; 0 and -5 are read back unchanged (no positivity check); "12a" and "" read as 50000 |
| `Led.Indicator.SetColor` | main.py:64-68 | `set_color` as a value: colour remembered, written and marked on (stated by `Led.SetColorShows`) |
| `Led.Indicator.TurnOff` | main.py:70-73 | `turn_off` as a value: OFF written, flag cleared, colour kept (stated by `Led.TurnOffKeepsColor`) |
| `Led.Indicator.Toggle` | main.py:75-79 | `toggle` as a value: turn off when on, re-show the remembered colour when off (stated by `Led.ToggleWhenOn`, `Led.ToggleRestoresLastColor`, `Led.ToggleTwice`) |
| `Led.Indicator.Flash` | main.py:207-219 | n rounds of set_color then turn_off, the feedback loop without its sleeps (stated by `Led.FlashPattern`) |
| `Settings.Strip` | main.py:43 | `str.strip()` on ASCII whitespace (used by `Settings.ParseStr`, `Settings.ReadExamples`) |
| `Settings.ParseInt` | main.py:43 | `int()` of a stripped string: an optional sign then decimal digits, otherwise no value (stated by `Settings.ParseStr`, `Settings.ReadExamples`) |
| `Settings.SaveToFile` | main.py:30-37 | `save_to_file`: `str(d)` on success, `False` and the old file on failure (stated by `Settings.SaveThenRead`, `Settings.FailedSaveKeepsFile`) |
| `Settings.ReadFromFile` | main.py:39-45 | `read_from_file`: the parsed content, or 50000 when it is missing or not an integer (stated by `Settings.ReadFallsBack`, `Settings.SaveThenRead`, `Settings.ReadExamples`) |
| `Colors.Scale` | neopixel_colors.py:22-24 | one channel times the brightness, truncated toward zero (stated by `Colors.ScaleBounds`, `Colors.ScaleFull`) |
| `Colors.ToGrb` | neopixel_colors.py:19-25 | `to_grb`: scaled green, red, blue (stated by `Colors.ToGrbBounds`, `Colors.FullBrightnessReorders`, `Colors.QuarterBrightnessPresets`) |
| `Colors.Equals` | neopixel_colors.py:9-17 | `__eq__` against a tuple, a colour or anything else (stated by `Colors.EqualsTuple`, `Colors.EqualsColor`, `Colors.BrightnessIgnoredForTuples`) |
| `Colors.ClampChannel` | neopixel_colors.py:4-6 | a channel ends in [0, 255]; an in-range one is kept, below goes to 0, above to 255 |
| `Colors.ClampBrightness` | neopixel_colors.py:7 | brightness ends in [0, 1]; an in-range one is kept, out of range goes to the nearer end |
| `Colors.NewColor` | neopixel_colors.py:3-7 | every constructed colour is in range; in-range arguments are stored unchanged |
| `Colors.Trunc` | neopixel_colors.py:22-24 | `int()` truncates toward zero |
| `Colors.ToGrbBounds` | neopixel_colors.py:19-25 | each channel of `to_grb` lies between 0 and the channel it comes from |
| `Colors.FullBrightnessReorders` | neopixel_colors.py:19-25 | at brightness 1.0, `to_grb` is exactly (green, red, blue) |
| `Colors.QuarterBrightnessPresets` | neopixel_colors.py:27-38 | the 0.25 presets scale 255 to 63 and 165 to 41; full-brightness red is (0, 255, 0) |
| `Colors.EqualsTuple` | neopixel_colors.py:9-13 | equality with a tuple holds exactly for the unscaled (green, red, blue) triple |
| `Colors.EqualsColor` | neopixel_colors.py:9-17 | equality with a colour compares all four parts; anything else is unequal |
| `Colors.BrightnessIgnoredForTuples` | neopixel_colors.py:9-17 | two colours differing only in brightness equal the same tuple but not each other |
| `Controller.Initial` | main.py:88-121 | the constructor's state: IDLE, pin high, green, poll and idle timers armed (stated by `ControllerProperties.InitialState`, `ControllerProperties.InitialSatisfiesInv`) |
| `Controller.StartButtonPolling` | main.py:123-138 | arms the poll timer `Periodic(100)` (stated by `ControllerProperties.InitialState`) |
| `Controller.Poll` | main.py:125-135 | `poll_button`: press on a rising edge, release on a falling one, sample remembered (stated by `ControllerProperties.PollDetectsEdges`) |
| `Controller.Press` | main.py:140-177 | `_handle_button_press` (stated by `ControllerProperties.PressRecordsStart`, `PressInIdle`, `InertPresses`, `PressInBlinkingCancels`) |
| `Controller.CheckLongPress` | main.py:150-158 | `check_long_press` (stated by `ControllerProperties.LongPressCheck`) |
| `Controller.Release` | main.py:179-227 | `_handle_button_release` (stated by `ControllerProperties.ReleaseResets`, `ShortReleaseStartsBlinking`, `LongReleaseInIdleIsIgnored`, `SleepingRelease`, `CancelThenRelease`) |
| `Controller.TrainingRelease` | main.py:194-222 | the TRAINING branch of the release: save, flash feedback, stop-to-idle (stated by `ControllerProperties.TrainingReleaseOutcome`) |
| `Controller.StopToIdle` | main.py:229-257 | `_execute_stop_to_idle_action` (stated by `ControllerProperties.StopToIdleFromAnyState`) |
| `Controller.StartSequence` | main.py:259-287 | `_start_sequence` (stated by `ControllerProperties.ShortReleaseStartsBlinking`) |
| `Controller.StartTrainingBlink` | main.py:289-304 | `_start_training_blink` (stated by `ControllerProperties.LongPressCheck`) |
| `Controller.StartIdleTimer` | main.py:306-325 | `_start_idle_timer`: the idle timer re-armed once for 5000 ms (stated by `ControllerProperties.StopToIdleFromAnyState`, `InitialState`) |
| `Controller.IdleTimeout` | main.py:313-320 | `idle_timeout` (stated by `ControllerProperties.IdleTimeoutSleeps`) |
| `Controller.Blink` | main.py:273-276 | the green blink callback (stated by `ControllerProperties.BlinkReturnsToGreen`) |
| `Controller.RapidBlinkTick` | main.py:292-296 | the training blink callback (stated by `ControllerProperties.RapidBlinkOnlyWhileTraining`) |
| `Controller.PollTimerFires` | main.py:138 | the poll timer firing: polls only while armed (kept by `ControllerProperties.StepKeepsInv`) |
| `Controller.LongPressTimerFires` | main.py:160 | the long-press timer firing: checks only while armed (kept by `ControllerProperties.StepKeepsInv`) |
| `Controller.IdleTimerFires` | main.py:323-325 | the one-shot idle firing: spent, then the timeout (kept by `ControllerProperties.StepKeepsInv`) |
| `Controller.CompletionTimerFires` | main.py:285-287 | the one-shot completion firing: spent, then stop-to-idle (kept by `ControllerProperties.StepKeepsInv`) |
| `Controller.BlinkTimerFires` | main.py:279-281 | the blink firing runs the callback it was armed with (kept by `ControllerProperties.StepKeepsInv`) |
| `ControllerProperties.PollDetectsEdges` | main.py:125-135 | an unchanged level produces no event; a rising edge is a press, a falling one a release; the sample is then remembered |
| `ControllerProperties.InitialState` | main.py:88-121 | the controller starts in IDLE, not canceling, pin high, green shown, poll every 100 ms, idle timer armed, run length as loaded |
| `ControllerProperties.PressRecordsStart` | main.py:140-143 | every press records its time whatever the state or the flag |
| `ControllerProperties.PressInIdle` | main.py:145-160 | a press in IDLE that is not canceling shows blue and samples for a long press every 100 ms; nothing else changes |
| `ControllerProperties.InertPresses` | main.py:145-169 | a press in IDLE while canceling, or any press in SLEEPING or TRAINING, changes only the press time |
| `ControllerProperties.PressInBlinkingCancels` | main.py:171-177 | a press while blinking sets `canceling`, stops blinking and completion, and runs stop-to-idle into IDLE |
| `ControllerProperties.ReleaseResets` | main.py:179-227 | every release disarms the long-press check and ends with `canceling` false |
| `ControllerProperties.CancelThenRelease` | main.py:171-227 | the release after a cancelling press starts no sequence: IDLE, no blink or completion timer |
| `ControllerProperties.ShortReleaseStartsBlinking` | main.py:186-188 | a short release in IDLE gives BLINKING, green blink every 500 ms, completion once after the run length, no idle or long-press timer |
| `ControllerProperties.LongReleaseInIdleIsIgnored` | main.py:179-227 | a release in IDLE held 2000 ms or more changes only the long-press timer and the flag |
| `ControllerProperties.LongPressCheck` | main.py:150-158 | while held, the check enters TRAINING exactly when 2000 ms or more have passed since the press, whatever the state, with blue shown, a 200 ms blink and no long-press or idle timer; otherwise nothing changes |
| `ControllerProperties.TrainingReleaseOutcome` | main.py:194-222 | a TRAINING release saves the hold time with no positivity check; on success it becomes the run length and what the file reads back, on failure both stay; three orange or red flashes, then IDLE with green and a low-high pulse |
| `ControllerProperties.StopToIdleFromAnyState` | main.py:229-257 | from any state, unrecognised ones included: IDLE, pin driven low then high, red then green, blink/completion/long-press stopped, idle re-armed once at 5000 ms |
| `ControllerProperties.IdleTimeoutSleeps` | main.py:313-320 | the idle timeout turns IDLE into SLEEPING with the pixel dark, and does nothing in any other state |
| `ControllerProperties.SleepingRelease` | main.py:190-192 | in SLEEPING a short release (not canceling) runs stop-to-idle; a long one leaves the controller asleep |
| `ControllerProperties.BlinkReturnsToGreen` | main.py:273-276 | a tick that darkens the pixel remembers green, so the next tick lights green |
| `ControllerProperties.RapidBlinkOnlyWhileTraining` | main.py:292-296 | the training blink does nothing outside TRAINING; darkening remembers blue |
| `ControllerProperties.InitialSatisfiesInv` | main.py:88-121 | the new controller satisfies the invariant |
| `ControllerProperties.StepKeepsInv` | main.py:123-325 | every poll sample and timer firing keeps the invariant: each armed timer belongs to its state with its period, IDLE always has its 5000 ms idle timer pending, the pin rests high, the pixel matches the flag, a canceling press is held, and the file reads back the run length, provided a failed save leaves the file untouched |
| `ControllerProperties.RunKeepsInv` | main.py:123-325 | any sequence of events keeps the invariant (with the same proviso on failed saves) |
| `ControllerProperties.CanReachIdle` | main.py:179-257 | from every controller satisfying the invariant, some events lead back to IDLE |
| `ControllerImpl.WaterFilter.constructor` | main.py:47-121 | loads the run length, then ends in the initial controller |
| `ControllerImpl.WaterFilter.StartButtonPolling` | main.py:123-138 | arms the poll timer, periodic at 100 ms |
| `ControllerImpl.WaterFilter.PollButton` | main.py:125-135 | the object ends where `Poll` says: press on a rising edge, release on a falling one, sample remembered |
| `ControllerImpl.WaterFilter.HandleButtonPress` | main.py:140-177 | the object ends where `Press` says |
| `ControllerImpl.WaterFilter.HandleButtonRelease` | main.py:179-227 | the object ends where `Release` says |
| `ControllerImpl.WaterFilter.SaveTrainedTime` | main.py:194-222 | the training branch ends where `TrainingRelease` says |
| `ControllerImpl.WaterFilter.FlashFeedback` | main.py:207-219 | the loop leaves the indicator flashed three times |
| `ControllerImpl.WaterFilter.ExecuteStopToIdleAction` | main.py:229-257 | the object ends where `StopToIdle` says |
| `ControllerImpl.WaterFilter.StartSequence` | main.py:259-287 | stops the four timers, then arms the 500 ms green blink and the one-shot completion |
| `ControllerImpl.WaterFilter.StartTrainingBlink` | main.py:289-304 | stops blink and idle, shows blue and arms the 200 ms training blink |
| `ControllerImpl.WaterFilter.StartIdleTimer` | main.py:306-325 | the idle timer is armed once for 5000 ms |
| `ControllerImpl.WaterFilter.CheckLongPress` | main.py:150-158 | the object ends where `CheckLongPress` says |
| `ControllerImpl.WaterFilter.IdleTimeout` | main.py:313-320 | the object ends where `IdleTimeout` says |
| `ControllerImpl.WaterFilter.Blink` | main.py:273-276 | the object ends where `Blink` says |
| `ControllerImpl.WaterFilter.RapidBlink` | main.py:292-296 | the object ends where `RapidBlinkTick` says |
| `ControllerImpl.WaterFilter.ButtonPollTimerFires` | main.py:138 | a poll firing runs the poll only while the poll timer is armed |
| `ControllerImpl.WaterFilter.LongPressTimerFires` | main.py:160 | a long-press firing runs the check only while that timer is armed |
| `ControllerImpl.WaterFilter.IdleTimerFires` | main.py:323-325 | the idle firing spends the one-shot timer and runs the timeout only while it is armed |
| `ControllerImpl.WaterFilter.CompletionTimerFires` | main.py:285-287 | the completion firing spends the timer and runs stop-to-idle only while it is armed |
| `ControllerImpl.WaterFilter.BlinkTimerFires` | main.py:279-281 | a blink firing runs the callback the timer was armed with, only while it is armed |
| `LegacyController.Initial` | backup/main_2025-02-23_112821.py:60-82 | the constructor's state: IDLE, green, no timer armed (stated by `LegacyProperties.InitialState`) |
| `LegacyController.ButtonHandler` | backup/main_2025-02-23_112821.py:84-95 | `_button_handler` with its 100 ms debounce (stated by `LegacyProperties.Debounce`, `PressInIdleStarts`, `PressInBlinkingStops`) |
| `LegacyController.BlinkHandler` | backup/main_2025-02-23_112821.py:97-98 | `_blink_handler`: toggles the indicator (kept by `LegacyProperties.StepKeepsInv`) |
| `LegacyController.CompletionSequence` | backup/main_2025-02-23_112821.py:100-117 | `_completion_sequence` (stated by `LegacyProperties.CompletionFacts`) |
| `LegacyController.ReturnToIdle` | backup/main_2025-02-23_112821.py:119-127 | `_return_to_idle` (stated by `LegacyProperties.ReturnToIdleFacts`) |
| `LegacyController.StartSequence` | backup/main_2025-02-23_112821.py:129-142 | `_start_sequence` (stated by `LegacyProperties.PressInIdleStarts`) |
| `LegacyController.EnterBlinkingState` | backup/main_2025-02-23_112821.py:144-145 | `_enter_blinking_state` (kept by `LegacyProperties.StepKeepsInv`) |
| `LegacyController.TimeoutSequence` | backup/main_2025-02-23_112821.py:147-150 | `_timeout_sequence` (stated by `LegacyProperties.TimeoutOnlyWhileRunning`) |
| `LegacyController.StopSequence` | backup/main_2025-02-23_112821.py:152-167 | `_stop_sequence` for both values of `show_red` (stated by `LegacyProperties.PressInBlinkingStops`) |
| `LegacyController.BlinkTimerFires` | backup/main_2025-02-23_112821.py:132-134 | the periodic blink firing (kept by `LegacyProperties.StepKeepsInv`) |
| `LegacyController.StartTimerFires` | backup/main_2025-02-23_112821.py:136-138 | the one-shot lockout firing (kept by `LegacyProperties.StepKeepsInv`) |
| `LegacyController.StopTimerFires` | backup/main_2025-02-23_112821.py:140-142 | the one-shot stop firing with the callback it was armed with (kept by `LegacyProperties.StepKeepsInv`) |
| `LegacyController.CompleteTimerFires` | backup/main_2025-02-23_112821.py:113-114 | the one-shot return-to-idle firing (stated by `LegacyProperties.TimersReturnToIdle`) |
| `LegacyController.PinOffTimerFires` | backup/main_2025-02-23_112821.py:117 | the anonymous timer driving the pin low (stated by `LegacyProperties.PinOffDrivesLow`) |
| `LegacyProperties.InitialState` | backup/main_2025-02-23_112821.py:60-82 | the controller starts in IDLE with green shown and no timer armed |
| `LegacyProperties.Debounce` | backup/main_2025-02-23_112821.py:84-95 | an edge less than 100 ms after the last accepted one is ignored entirely; otherwise its time is recorded even when the state ignores the press |
| `LegacyProperties.PressInIdleStarts` | backup/main_2025-02-23_112821.py:91-92 | an accepted press in IDLE gives STARTING with a 500 ms blink, BLINKING after 1000 ms and the timeout after 50000 ms |
| `LegacyProperties.PressInBlinkingStops` | backup/main_2025-02-23_112821.py:152-164 | an accepted press while blinking gives STOPPING: blink and lockout stopped, red shown, completion after 1000 ms |
| `LegacyProperties.TimeoutOnlyWhileRunning` | backup/main_2025-02-23_112821.py:147-150 | the timeout completes only from BLINKING or STARTING and is otherwise a no-op |
| `LegacyProperties.CompletionFacts` | backup/main_2025-02-23_112821.py:100-117 | completion gives COMPLETING, stops the other timers, drives the pin high, shows pink, returns to IDLE after 1000 ms and arms one more anonymous one-shot that drives the pin low after 3000 ms |
| `LegacyProperties.PinOffDrivesLow` | backup/main_2025-02-23_112821.py:117 | the oldest pending pin timer drives the pin low and is spent; with none pending nothing happens |
| `LegacyProperties.ReturnToIdleFacts` | backup/main_2025-02-23_112821.py:119-127 | return to idle stops all four timers and gives IDLE with green |
| `LegacyProperties.InitialSatisfiesInv` | backup/main_2025-02-23_112821.py:60-82 | the new controller satisfies the invariant |
| `LegacyProperties.StepKeepsInv` | backup/main_2025-02-23_112821.py:84-167 | every edge and firing keeps each armed timer in the state it belongs to, with its period and callback; every pending pin timer is a 3000 ms one-shot, and the pin is never left high without one pending |
| `LegacyProperties.RunKeepsInv` | backup/main_2025-02-23_112821.py:84-167 | any sequence of events keeps the invariant |
| `LegacyProperties.TimersReturnToIdle` | backup/main_2025-02-23_112821.py:100-150 | from every controller satisfying the invariant, timer firings alone lead back to IDLE |
| `LegacyImpl.WaterFilter.constructor` | backup/main_2025-02-23_112821.py:60-82 | ends in the initial controller |
| `LegacyImpl.WaterFilter.ButtonHandler` | backup/main_2025-02-23_112821.py:84-95 | the object ends where `ButtonHandler` says |
| `LegacyImpl.WaterFilter.BlinkHandler` | backup/main_2025-02-23_112821.py:97-98 | toggles the indicator |
| `LegacyImpl.WaterFilter.CompletionSequence` | backup/main_2025-02-23_112821.py:100-117 | the object ends where `CompletionSequence` says |
| `LegacyImpl.WaterFilter.ReturnToIdle` | backup/main_2025-02-23_112821.py:119-127 | the object ends where `ReturnToIdle` says |
| `LegacyImpl.WaterFilter.StartSequence` | backup/main_2025-02-23_112821.py:129-142 | arms blink, lockout and timeout, and enters STARTING |
| `LegacyImpl.WaterFilter.EnterBlinkingState` | backup/main_2025-02-23_112821.py:144-145 | enters BLINKING |
| `LegacyImpl.WaterFilter.TimeoutSequence` | backup/main_2025-02-23_112821.py:147-150 | the object ends where `TimeoutSequence` says |
| `LegacyImpl.WaterFilter.StopSequence` | backup/main_2025-02-23_112821.py:152-167 | the object ends where `StopSequence` says, for both values of `show_red` |
| `LegacyImpl.WaterFilter.BlinkTimerFires` | backup/main_2025-02-23_112821.py:132-134 | the blink firing toggles only while the timer is armed |
| `LegacyImpl.WaterFilter.StartTimerFires` | backup/main_2025-02-23_112821.py:136-138 | the lockout firing enters BLINKING only while the timer is armed |
| `LegacyImpl.WaterFilter.StopTimerFires` | backup/main_2025-02-23_112821.py:140-142 | the stop firing runs the timeout or the completion it was armed with, only while armed |
| `LegacyImpl.WaterFilter.CompleteTimerFires` | backup/main_2025-02-23_112821.py:113-114 | the completion firing returns to IDLE only while the timer is armed |
| `LegacyImpl.WaterFilter.PinOffTimerFires` | backup/main_2025-02-23_112821.py:117 | the oldest pending anonymous timer drives the pin low and is dropped |

## Left out

- Hardware is not modelled: `machine.Pin`, `NeoPixel.write` and the timer
  hardware are not part of this model. The pin and the pixel are the lists of
  values written to them. The order in which firings and poll samples arrive
  is chosen by whoever runs the events.
- Blocking sleeps (`time.sleep_ms`: the 250 ms pulse, 1000 ms of red, the
  flash loops) take no time. The model does not capture that button edges and
  firings are missed while a handler sleeps.
- `time.ticks_ms` wrap-around is not modelled. Times are unbounded integers,
  and the button level and the current time are parameters of the poll and
  long-press events.
- File I/O is an oracle: the file's content is `None` when it cannot be read,
  and whether a save succeeds is a parameter.
- Settings.SaveToFile: a write that fails after `open(SETTINGS_FILE, 'w')`
  has already truncated the file is modelled as leaving the file unchanged. On
  the device such a failure leaves an empty or partial file, and the next boot
  may read 50000 instead of the run length in memory.
- Settings.FailedSaveKeepsFile: states the unchanged file of that
  simplification, not the truncated file a failed `f.write` leaves.
- ControllerProperties.StepKeepsInv: the conjunct "the file reads back the run
  length" relies on the simplification above. After a write that fails once
  the file is truncated, the device's file no longer reads back
  `TOTAL_BLINK_TIME_MS`.
- ControllerProperties.RunKeepsInv: inherits the same proviso from
  `StepKeepsInv`.
- Settings.ParseInt, Settings.ReadFromFile: only ASCII whitespace is stripped, and only an
  optional sign followed by ASCII digits is parsed. Content with `_` digit
  separators or non-ASCII digits, which Python's `int` may accept, reads as
  the default.
- Colors.NewColor: channels and brightness are given as integers and an exact
  real. Float channels are not modelled, and tuples are sequences of integers.
- Colors.Scale, Colors.ToGrb: `channel * brightness` is exact real
  arithmetic. Binary floating-point rounding is not modelled, so a result
  can differ by one: Python gives `int(100 * 0.29) == 28`, where `Scale`
  gives 29.
- Debug `print` lines are left out, and so are the module bootstrap
  (`filter = WaterFilter()`) and the `while True: time.sleep(1)` loop.
- `test_water_filter.py`, `test_mocks.py` and `test_timer.py` are not modelled.
  Timer firing follows the device, not the double's `trigger`.
