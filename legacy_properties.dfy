/**
 * What the interrupt-driven controller promises: the debounce rule, each
 * transition, an invariant tying every armed timer to its state, and that
 * IDLE stays reachable.
 */
module LegacyProperties {
  import opened Timers
  import opened Led
  import opened LegacyController

  lemma InitialState()
    ensures Initial().state == Idle && Initial().lastPress == 0
    ensures Initial().led.isOn && Initial().led.Pixel() == GREEN_LOW
    ensures !Initial().blinkTimer.armed && !Initial().startTimer.armed
    ensures !Initial().stopTimer.armed && !Initial().completeTimer.armed
  {
  }

  /** An edge less than 100 ms after the last accepted one is ignored entirely;
      otherwise its time is recorded even when the state then ignores it. */
  lemma Debounce(m: Machine, now: int)
    ensures now - m.lastPress < 100 ==> ButtonHandler(m, now) == m
    ensures now - m.lastPress >= 100 ==> ButtonHandler(m, now).lastPress == now
    ensures now - m.lastPress >= 100 && m.state != Idle && m.state != Blinking ==>
      ButtonHandler(m, now) == m.(lastPress := now)
  {
  }

  /** An accepted press in IDLE starts: blinking every 500 ms, BLINKING after
      1000 ms, and the timeout after 50000 ms. */
  lemma PressInIdleStarts(m: Machine, now: int)
    requires m.state == Idle && now - m.lastPress >= 100
    ensures ButtonHandler(m, now).state == Starting
    ensures ButtonHandler(m, now).blinkTimer == Periodic(500)
    ensures ButtonHandler(m, now).startTimer == OneShot(1000)
    ensures ButtonHandler(m, now).stopTimer == OneShot(50000)
    ensures ButtonHandler(m, now).stopCallback == OnTimeout
  {
  }

  /** An accepted press while blinking stops: blinking and the lockout are
      cancelled, red is shown and completion follows 1000 ms later. */
  lemma PressInBlinkingStops(m: Machine, now: int)
    requires m.state == Blinking && now - m.lastPress >= 100
    ensures ButtonHandler(m, now).state == Stopping
    ensures !ButtonHandler(m, now).blinkTimer.armed && !ButtonHandler(m, now).startTimer.armed
    ensures ButtonHandler(m, now).led == m.led.SetColor(RED_LOW)
    ensures ButtonHandler(m, now).stopTimer == OneShot(1000)
    ensures ButtonHandler(m, now).stopCallback == OnCompletion
  {
  }

  /** The timeout completes only from BLINKING or STARTING. */
  lemma TimeoutOnlyWhileRunning(m: Machine)
    ensures m.state == Blinking || m.state == Starting ==> TimeoutSequence(m) == CompletionSequence(m)
    ensures m.state != Blinking && m.state != Starting ==> TimeoutSequence(m) == m
  {
  }

  /** Completion: the pin is driven high, pink is shown, the other timers are
      stopped, IDLE follows in 1000 ms and a new one-shot drives the pin low
      in 3000 ms. */
  lemma CompletionFacts(m: Machine)
    ensures CompletionSequence(m).state == Completing
    ensures !CompletionSequence(m).blinkTimer.armed && !CompletionSequence(m).startTimer.armed
    ensures !CompletionSequence(m).stopTimer.armed
    ensures CompletionSequence(m).pin5 == m.pin5 + [1] && Pin5Level(CompletionSequence(m)) == 1
    ensures CompletionSequence(m).led == m.led.SetColor(PINK_LOW)
    ensures CompletionSequence(m).completeTimer == OneShot(1000)
    ensures CompletionSequence(m).pinOffTimers == m.pinOffTimers + [OneShot(3000)]
  {
  }

  /** A pending pin timer drives the pin low and is spent; with none pending
      nothing happens. */
  lemma PinOffDrivesLow(m: Machine)
    ensures |m.pinOffTimers| > 0 ==> Pin5Level(PinOffTimerFires(m)) == 0
    ensures |m.pinOffTimers| > 0 ==> PinOffTimerFires(m).pinOffTimers == m.pinOffTimers[1..]
    ensures m.pinOffTimers == [] ==> PinOffTimerFires(m) == m
  {
  }

  /** Return to IDLE stops all four named timers and shows green. */
  lemma ReturnToIdleFacts(m: Machine)
    ensures ReturnToIdle(m).state == Idle
    ensures !ReturnToIdle(m).blinkTimer.armed && !ReturnToIdle(m).startTimer.armed
    ensures !ReturnToIdle(m).stopTimer.armed && !ReturnToIdle(m).completeTimer.armed
    ensures ReturnToIdle(m).led.isOn && ReturnToIdle(m).led.Pixel() == GREEN_LOW
  {
  }

  /** Every armed timer belongs to the state it was armed for, with its settings;
      every pending pin timer is a 3000 ms one-shot, and the pin is never left
      high without one pending. */
  ghost predicate Inv(m: Machine) {
    && m.led.Consistent()
    && (m.startTimer.armed <==> m.state == Starting)
    && (m.startTimer.armed ==> m.startTimer == OneShot(1000))
    && (m.blinkTimer.armed <==> m.state == Starting || m.state == Blinking)
    && (m.blinkTimer.armed ==> m.blinkTimer == Periodic(500))
    && (m.stopTimer.armed <==> m.state == Starting || m.state == Blinking || m.state == Stopping)
    && (m.state == Starting || m.state == Blinking ==>
          m.stopTimer == OneShot(50000) && m.stopCallback == OnTimeout)
    && (m.state == Stopping ==> m.stopTimer == OneShot(1000) && m.stopCallback == OnCompletion)
    && (m.completeTimer.armed <==> m.state == Completing)
    && (m.completeTimer.armed ==> m.completeTimer == OneShot(1000))
    && (forall i :: 0 <= i < |m.pinOffTimers| ==> m.pinOffTimers[i] == OneShot(3000))
    && (Pin5Level(m) == 1 ==> |m.pinOffTimers| > 0)
  }

  lemma InitialSatisfiesInv()
    ensures Inv(Initial())
  {
  }

  lemma StepKeepsInv(m: Machine, e: Event)
    requires Inv(m)
    ensures Inv(Step(m, e))
  {
    match e
    case RisingEdge(now) =>
    case BlinkTick =>
    case StartTick =>
    case StopTick =>
    case CompleteTick =>
    case PinOffTick =>
  }

  lemma {:induction false} RunKeepsInv(m: Machine, events: seq<Event>)
    requires Inv(m)
    ensures Inv(Run(m, events))
    decreases |events|
  {
    if events != [] {
      StepKeepsInv(m, events[0]);
      RunKeepsInv(Step(m, events[0]), events[1..]);
    }
  }

  /** Without any button activity the timers bring every state back to IDLE. */
  lemma TimersReturnToIdle(m: Machine)
    requires Inv(m)
    ensures exists events :: Run(m, events).state == Idle
  {
    match m.state
    case Idle =>
      assert Run(m, []) == m;
    case Completing =>
      assert Run(m, [CompleteTick]).state == Idle;
    case _ =>
      var m1 := Step(m, StopTick);
      assert m1.state == Completing && m1.completeTimer.armed;
      assert Run(m, [StopTick, CompleteTick]) == Run(m1, [CompleteTick]);
      assert Run(m1, [CompleteTick]).state == Idle;
  }
}
