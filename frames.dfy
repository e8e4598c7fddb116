/** The frame clock of the animation loop: the time step handed to each
    tick (main.js:378-380). */
module Frames {

  /** A JavaScript number as far as the loop cares: a finite value, or NaN
      (what the subtraction yields when a timestamp is undefined). */
  datatype Num = Finite(v: real) | NaN

  /** Upper bound on the time step, in seconds. */
  const MAX_DT: real := 0.033

  /** Math.min(0.033, (ts - last) / 1000 || 0): the elapsed time in seconds,
      capped at 33 ms, with NaN (and 0) mapped to 0. A clock that runs
      backwards is not clamped: the step is then negative. */
  function FrameDt(ts: Num, last: Num): (dt: real)
    ensures dt <= MAX_DT
    ensures ts.NaN? || last.NaN? ==> dt == 0.0
    ensures ts.Finite? && last.Finite? && last.v <= ts.v ==> 0.0 <= dt
    ensures ts.Finite? && last.Finite? && ts.v - last.v <= MAX_DT * 1000.0 ==>
              dt == (ts.v - last.v) / 1000.0
    ensures ts.Finite? && last.Finite? && ts.v - last.v >= MAX_DT * 1000.0 ==> dt == MAX_DT
  {
    var raw := if ts.Finite? && last.Finite? then Finite((ts.v - last.v) / 1000.0) else NaN;
    var orZero := if raw.NaN? || raw.v == 0.0 then 0.0 else raw.v;
    if orZero < MAX_DT then orZero else MAX_DT
  }

  /** A stalled clock (a backgrounded tab) still yields a step of at most
      33 ms, and a monotone clock never yields a negative one. */
  lemma MonotoneClockStep(ts: real, last: real)
    requires last <= ts
    ensures 0.0 <= FrameDt(Finite(ts), Finite(last)) <= MAX_DT
  {
  }
}
