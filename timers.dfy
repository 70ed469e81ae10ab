/**
 * One `machine.Timer` as the controllers use it: `init` stores a period and a
 * mode and arms the timer, `deinit` disarms it, and a firing only runs the
 * callback while the timer is armed.  Which callback a timer holds is kept by
 * the controller that armed it.
 */
module Timers {

  datatype Timer = Timer(armed: bool, period: int, periodic: bool)

  /** A freshly created `Timer()`: nothing is scheduled. */
  const Unset := Timer(false, 0, false)

  /** `timer.init(period=p, mode=Timer.PERIODIC)`, also the mode when none is given. */
  function Periodic(period: int): Timer {
    Timer(true, period, true)
  }

  /** `timer.init(period=p, mode=Timer.ONE_SHOT)` */
  function OneShot(period: int): Timer {
    Timer(true, period, false)
  }

  /** `timer.deinit()`: the settings stay, the callback no longer runs. */
  function Deinit(t: Timer): Timer {
    t.(armed := false)
  }

  /** The timer once it has fired: a one-shot timer is spent, a periodic one stays armed. */
  function Fired(t: Timer): (r: Timer)
    requires t.armed
    ensures r.armed <==> t.periodic
    ensures r.period == t.period && r.periodic == t.periodic
  {
    if t.periodic then t else Deinit(t)
  }
}
