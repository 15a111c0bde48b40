/** The timer facility the read-timeout handler schedules its checks on,
    seen only through its contract: `newTimeout` returns a handle,
    `cancel` is idempotent, `isCancelled` reports cancellation, and the
    timer takes a due timeout off its schedule before running its task. */
module Timers {

  /** A timeout handle: the position of the request in the timer's log. */
  type Handle = nat

  datatype Status = Pending | Cancelled | Expired

  /** One `newTimeout` request: the task, its delay in milliseconds and
      what has become of it. */
  datatype Timeout<T> = Timeout(task: T, delayMillis: int, status: Status)

  /** The log `ts` after cancelling handle `h`: only a pending timeout
      changes, and an unknown handle changes nothing. */
  function CancelIn<T>(ts: seq<Timeout<T>>, h: Handle): seq<Timeout<T>> {
    if h < |ts| && ts[h].status == Pending then ts[h := ts[h].(status := Cancelled)] else ts
  }

  class Timer<T> {
    /** every timeout ever requested, in request order */
    var timeouts: seq<Timeout<T>>

    constructor ()
      ensures timeouts == []
    {
      timeouts := [];
    }

    predicate IsPending(h: Handle)
      reads this
    {
      h < |timeouts| && timeouts[h].status == Pending
    }

    predicate IsCancelled(h: Handle)
      reads this
    {
      h < |timeouts| && timeouts[h].status == Cancelled
    }

    /** Schedules `task` to run after `delayMillis`; the new handle is fresh. */
    method NewTimeout(task: T, delayMillis: int) returns (h: Handle)
      modifies this
      ensures h == |old(timeouts)|
      ensures timeouts == old(timeouts) + [Timeout(task, delayMillis, Pending)]
    {
      h := |timeouts|;
      timeouts := timeouts + [Timeout(task, delayMillis, Pending)];
    }

    method Cancel(h: Handle)
      modifies this
      ensures timeouts == CancelIn(old(timeouts), h)
    {
      if h < |timeouts| && timeouts[h].status == Pending {
        timeouts := timeouts[h := timeouts[h].(status := Cancelled)];
      }
    }

    /** The timer's own step when a pending timeout falls due, just before it
        runs the task. */
    method Expire(h: Handle)
      requires IsPending(h)
      modifies this
      ensures timeouts == old(timeouts)[h := old(timeouts)[h].(status := Expired)]
    {
      timeouts := timeouts[h := timeouts[h].(status := Expired)];
    }
  }
}
