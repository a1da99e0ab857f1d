/**
 * The timers of the JavaScript runtime: `setTimeout` arms one, `clearTimeout` disarms it, and an armed
 * timer may fire at any time from its due time on, however late.
 */
module Timers {

  datatype Timer<+O> = Timer(owner: O, due: int)

  /** The armed timers, by handle; handles are never used twice. */
  datatype Runtime<O> = Runtime(armed: map<nat, Timer<O>>, next: nat) {
    ghost predicate Wf() {
      forall t :: t in armed ==> t < next
    }

    /** The timer armed by a `setTimeout(..., Math.max(0, delay))` at time `now` has the handle `next`. */
    function Arm(owner: O, now: int, delay: int): Runtime<O> {
      Runtime(armed[next := Timer(owner, now + if delay > 0 then delay else 0)], next + 1)
    }

    function Disarm(t: nat): Runtime<O> {
      Runtime(armed - {t}, next)
    }

    predicate CanFire(t: nat, now: int) {
      t in armed && armed[t].due <= now
    }
  }
}
