/**
 * The run loop behind `Timer.scheduledTimer(withTimeInterval:repeats:)`: which
 * repeating timers are live. A timer fires only while it is live; `invalidate()`
 * takes it out for good. Firings themselves are explicit method calls of the
 * views that own the timers.
 */
module Timing {

  type TimerHandle = nat

  class RunLoop {
    var live: set<TimerHandle>
    var issued: nat

    /** Handles below `issued` have been handed out; no other is live. */
    ghost predicate Valid()
      reads this
    {
      forall h :: h in live ==> h < issued
    }

    constructor ()
      ensures Valid() && live == {} && issued == 0
    {
      live, issued := {}, 0;
    }

    /** `Timer.scheduledTimer`: a new, distinct live timer. */
    method Schedule() returns (h: TimerHandle)
      requires Valid()
      modifies this
      ensures Valid()
      ensures h !in old(live) && live == old(live) + {h}
      ensures h == old(issued) && issued == old(issued) + 1
    {
      h := issued;
      live := live + {h};
      issued := issued + 1;
    }

    /** `invalidate()` */
    method Invalidate(h: TimerHandle)
      modifies this`live
      ensures live == old(live) - {h}
    {
      live := live - {h};
    }
  }
}
