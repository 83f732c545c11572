/** The CHIP-8 delay timer (`timer::timer::Timer`): one 8-bit counter that a
    60 Hz tick counts down to zero. The `Mutex<u8>` becomes a plain field and
    the ticking thread becomes explicit calls to OneIteration. */
module Timer {

  /** The counter after one tick: one less, but never below zero. */
  function Decremented(d: bv8): (r: bv8)
    ensures r as int == if d as int > 0 then d as int - 1 else 0
  {
    if d > 0 then d - 1 else d
  }

  /** The counter after `k` ticks starting from `d`. */
  function Ticks(d: bv8, k: nat): bv8
    decreases k
  {
    if k == 0 then d else Ticks(Decremented(d), k - 1)
  }

  /** `k` ticks take `d` down by `k`, stopping at zero. */
  lemma {:induction false} TicksSaturate(d: bv8, k: nat)
    ensures Ticks(d, k) as int == if d as int >= k then d as int - k else 0
  {
    if k > 0 {
      TicksSaturate(Decremented(d), k - 1);
    }
  }

  class Timer {
    var delay: bv8

    /** `Timer::new`: the counter starts at zero. */
    constructor ()
      ensures delay == 0
    {
      delay := 0;
    }

    /** `set_delay` */
    method SetDelay(val: bv8)
      modifies this
      ensures delay == val
    {
      delay := val;
    }

    /** `get_delay`: the current counter; the timer is left unchanged. */
    method GetDelay() returns (d: bv8)
      ensures d == delay
    {
      d := delay;
    }

    /** `one_iteration`: one tick of the countdown. */
    method OneIteration()
      modifies this
      ensures delay == Decremented(old(delay))
    {
      if delay > 0 {
        delay := delay - 1;
      }
    }
  }

  /** The unit test `check_iterations`: from 6, two ticks give 5 then 4. */
  method CheckIterations()
  {
    var timer := new Timer();
    timer.SetDelay(0x6);
    timer.OneIteration();
    var d := timer.GetDelay();
    assert d == 0x5;
    timer.OneIteration();
    d := timer.GetDelay();
    assert d == 0x4;
  }
}
