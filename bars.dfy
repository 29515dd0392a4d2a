/**
 * The hp/mp/xp bars. Bar itself (server/core/Bar) is not part of this
 * model; the stand-in keeps what the unit code relies on: a current value
 * and a maximum, with `set` capping at the maximum.
 */
module Bars {
  datatype Bar = Bar(current: real, max: real)
  {
    /** `bar.set(v)`: stores `v`, capped at the maximum. */
    function Set(v: real): (b: Bar)
      ensures b.max == max
      ensures b.current <= max
      ensures v <= max ==> b.current == v
      ensures v > max ==> b.current == max
    {
      Bar(if v <= max then v else max, max)
    }

    /** `bar.increment(v)` on a bar without a threshold listener. */
    function Increment(v: real): Bar
    {
      Set(current + v)
    }

    function Filled(): (b: Bar)
      ensures b.max == max && b.current == max
    {
      Bar(max, max)
    }
  }

  /**
   * recalculateStatsModifiers: compute the old fill ratio, move the maximum,
   * and put `current` back at the same ratio. With an old maximum of 0 the
   * source divides 0 by 0; the model then keeps `current` as it was.
   */
  function Rescaled(b: Bar, newMax: real): (r: Bar)
    ensures r.max == newMax
    ensures b.max != 0.0 && newMax != 0.0 ==> r.current / r.max == b.current / b.max
    ensures b.max == 0.0 ==> r.current == b.current
  {
    if b.max != 0.0 then Bar(newMax * (b.current / b.max), newMax) else Bar(b.current, newMax)
  }

  /** A full bar stays full when its maximum moves. */
  lemma RescaleKeepsFull(b: Bar, newMax: real)
    requires b.max != 0.0 && b.current == b.max
    ensures Rescaled(b, newMax).current == newMax
  {
  }
}
