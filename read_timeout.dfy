/** The read-timeout handler: raises a read-timeout exception event on a
    connection when nothing has been read from it for a configured time.
    One handler is shared by many connections; each connection keeps its
    own `State` (time of the last read and the handle of the one pending
    check) as the attachment of its handler context. The clock is the
    parameter `now` of each operation. */
module ReadTimeout {
  import opened Common
  import opened Timers

  // ---------------------------------------------------------------------
  // Configuration: durations
  // ---------------------------------------------------------------------

  datatype TimeUnit = NANOSECONDS | MICROSECONDS | MILLISECONDS | SECONDS | MINUTES | HOURS | DAYS

  /** `unit.toMillis(d)`: a finer unit divides, truncating toward zero as
      Java's `/` does; a coarser unit multiplies, saturating at the bounds
      of `long`. */
  function ToMillis(d: Int64, unit: TimeUnit): (r: Int64)
    ensures 0 <= d ==> 0 <= r
    ensures d <= 0 ==> r <= 0
    ensures unit == MILLISECONDS ==> r == d
    ensures 0 <= d && unit in {NANOSECONDS, MICROSECONDS} ==> r <= d
    ensures 0 <= d && unit in {SECONDS, MINUTES, HOURS, DAYS} ==> d <= r
  {
    match unit
    case NANOSECONDS => if d >= 0 then d / 1_000_000 else -((-(d as int)) / 1_000_000)
    case MICROSECONDS => if d >= 0 then d / 1_000 else -((-(d as int)) / 1_000)
    case MILLISECONDS => d
    case SECONDS =>
      if d > LONG_MAX / 1_000 then LONG_MAX else if d < -(LONG_MAX / 1_000) then LONG_MIN else d * 1_000
    case MINUTES =>
      if d > LONG_MAX / 60_000 then LONG_MAX else if d < -(LONG_MAX / 60_000) then LONG_MIN else d * 60_000
    case HOURS =>
      if d > LONG_MAX / 3_600_000 then LONG_MAX else if d < -(LONG_MAX / 3_600_000) then LONG_MIN else d * 3_600_000
    case DAYS =>
      if d > LONG_MAX / 86_400_000 then LONG_MAX else if d < -(LONG_MAX / 86_400_000) then LONG_MIN else d * 86_400_000
  }

  /** The handler's window in milliseconds for a `timeout` in `unit`:
      non-positive means disabled (0); a positive duration becomes at
      least one millisecond. */
  function TimeoutMillis(timeout: Int64, unit: TimeUnit): (ms: Int64)
    ensures ms == 0 <==> timeout <= 0
    ensures 0 <= ms
    ensures 0 < timeout ==> ToMillis(timeout, unit) <= ms
    ensures 0 < timeout && 1 <= ToMillis(timeout, unit) ==> ms == ToMillis(timeout, unit)
    ensures 0 < timeout && ToMillis(timeout, unit) < 1 ==> ms == 1
    ensures 0 < timeout && unit == MILLISECONDS ==> ms == timeout
  {
    if timeout <= 0 then 0
    else
      var m := ToMillis(timeout, unit);
      if m < 1 then 1 else m
  }

  // ---------------------------------------------------------------------
  // The decision taken when the timer fires
  // ---------------------------------------------------------------------

  /** What a live timer fire does: the delay of the timeout it schedules
      next, and whether it raises the read-timeout signal. */
  datatype Decision = Decision(delayMillis: int, signal: bool)

  /** A fire at `now` for a connection last read at `lastReadTime`, with a
      window of `timeoutMillis`. The window has elapsed iff the time since
      the last read is at least the window: then a full window is
      scheduled and the signal raised. Otherwise the next check falls
      exactly at the end of the window that the last read opened. */
  function OnFire(timeoutMillis: int, lastReadTime: int, now: int): (d: Decision)
    ensures d.signal <==> now - lastReadTime >= timeoutMillis
    ensures d.signal ==> d.delayMillis == timeoutMillis
    ensures !d.signal ==> 0 < d.delayMillis && now + d.delayMillis == lastReadTime + timeoutMillis
    ensures !d.signal && lastReadTime <= now ==> d.delayMillis <= timeoutMillis
  {
    var nextDelay := timeoutMillis - (now - lastReadTime);
    if nextDelay <= 0 then Decision(timeoutMillis, true) else Decision(nextDelay, false)
  }

  // ---------------------------------------------------------------------
  // Pipeline side: events, the per-connection state and the context
  // ---------------------------------------------------------------------

  datatype Cause =
    | ReadTimeoutException
    | NullPointerException(what: string)
    | Thrown(name: string)

  /** Upstream events, as far as the handler tells them apart: a channel
      state change, a received message (its payload opaque) and an
      exception event. */
  datatype ChannelEvent =
    | ChannelStateEvent(open: bool)
    | MessageEvent(message: seq<bv8>)
    | ExceptionEvent(cause: Cause)

  /** The per-connection record. `timeout` is None where the source's
      field is null. */
  class State {
    var timeout: Option<Handle>
    var lastReadTime: int

    constructor (now: int)
      ensures timeout == None && lastReadTime == now
    {
      timeout := None;
      lastReadTime := now;
    }
  }

  /** The handler's context in one connection's pipeline: its attachment,
      whether the pipeline is attached to a channel, whether that channel
      is open, and the log of events it sent upstream. */
  class Context {
    var attachment: State?
    var pipelineAttached: bool
    var channelOpen: bool
    var upstream: seq<ChannelEvent>

    constructor (pipelineAttached: bool, channelOpen: bool)
      ensures attachment == null && upstream == []
      ensures this.pipelineAttached == pipelineAttached && this.channelOpen == channelOpen
    {
      attachment := null;
      this.pipelineAttached := pipelineAttached;
      this.channelOpen := channelOpen;
      upstream := [];
    }

    method SetAttachment(s: State?)
      modifies this`attachment
      ensures attachment == s
    {
      attachment := s;
    }

    method SendUpstream(e: ChannelEvent)
      modifies this`upstream
      ensures upstream == old(upstream) + [e]
    {
      upstream := upstream + [e];
    }
  }

  /** The task every check of one connection runs: it knows its context. */
  datatype ReadTimeoutTask = ReadTimeoutTask(ctx: Context)

  // ---------------------------------------------------------------------
  // The handler
  // ---------------------------------------------------------------------

  class ReadTimeoutHandler {
    const timer: Timer<ReadTimeoutTask>
    const timeoutMillis: Int64

    constructor Init(timer: Timer<ReadTimeoutTask>, timeout: Int64, unit: TimeUnit)
      ensures this.timer == timer && timeoutMillis == TimeoutMillis(timeout, unit)
    {
      this.timer := timer;
      timeoutMillis := TimeoutMillis(timeout, unit);
    }

    /** The three-argument Java constructor: a null timer or unit throws. */
    static method New(timer: Timer?<ReadTimeoutTask>, timeout: Int64, unit: Option<TimeUnit>)
      returns (r: Result<ReadTimeoutHandler, Cause>)
      ensures timer == null ==> r == Failure(NullPointerException("timer"))
      ensures timer != null && unit.None? ==> r == Failure(NullPointerException("unit"))
      ensures timer != null && unit.Some? ==>
        r.Success? && fresh(r.value) && r.value.timer == timer &&
        r.value.timeoutMillis == TimeoutMillis(timeout, unit.value)
    {
      if timer == null {
        return Failure(NullPointerException("timer"));
      }
      if unit.None? {
        return Failure(NullPointerException("unit"));
      }
      var h := new ReadTimeoutHandler.Init(timer, timeout, unit.value);
      return Success(h);
    }

    /** The two-argument Java constructor: a timeout in seconds. */
    static method NewWithSeconds(timer: Timer?<ReadTimeoutTask>, timeoutSeconds: Int32)
      returns (r: Result<ReadTimeoutHandler, Cause>)
      ensures timer == null ==> r == Failure(NullPointerException("timer"))
      ensures timer != null ==>
        r.Success? && fresh(r.value) && r.value.timer == timer &&
        r.value.timeoutMillis == TimeoutMillis(timeoutSeconds, SECONDS)
      ensures timer != null && timeoutSeconds > 0 ==> r.Success? && r.value.timeoutMillis == timeoutSeconds * 1000
    {
      r := New(timer, timeoutSeconds, Some(SECONDS));
    }

    /** No timeout of `ctx` is still waiting on the timer. */
    ghost predicate NoLive(ctx: Context)
      reads timer
    {
      forall i :: 0 <= i < |timer.timeouts| && timer.timeouts[i].task.ctx == ctx ==>
        timer.timeouts[i].status != Pending
    }

    /** At most one timeout of `ctx` is waiting on the timer, and the
        attached state holds its handle. */
    ghost predicate OneLive(ctx: Context)
      reads timer, ctx, ctx.attachment
    {
      forall i :: 0 <= i < |timer.timeouts| && timer.timeouts[i].task.ctx == ctx && timer.timeouts[i].status == Pending ==>
        ctx.attachment != null && ctx.attachment.timeout == Some(i)
    }

    /** The effect of `initialize` between the two states: a fresh `State`
        read at `now` is attached, and one timeout of a full window is
        scheduled iff the handler is enabled. */
    twostate predicate Initialized(ctx: Context, now: int)
      reads timer, ctx, ctx.attachment
    {
      && ctx.attachment != null && fresh(ctx.attachment)
      && ctx.attachment.lastReadTime == now
      && if timeoutMillis > 0 then
           && timer.timeouts == old(timer.timeouts) + [Timeout(ReadTimeoutTask(ctx), timeoutMillis, Pending)]
           && ctx.attachment.timeout == Some(|old(timer.timeouts)|)
         else
           && timer.timeouts == old(timer.timeouts)
           && ctx.attachment.timeout == None
    }

    method Initialize(ctx: Context, now: int)
      modifies ctx`attachment, timer
      ensures Initialized(ctx, now)
      ensures old(NoLive(ctx)) ==> OneLive(ctx)
    {
      var state := new State(now);
      ctx.SetAttachment(state);
      if timeoutMillis > 0 {
        var h := timer.NewTimeout(ReadTimeoutTask(ctx), timeoutMillis);
        state.timeout := Some(h);
      }
    }

    /** Cancels the pending check, if any, and forgets its handle; without
        an attached state the source dereferences null. */
    method Destroy(ctx: Context) returns (o: Outcome<Cause>)
      modifies timer, ctx.attachment
      ensures ctx.attachment == null ==> o == Fail(NullPointerException("state")) && timer.timeouts == old(timer.timeouts)
      ensures ctx.attachment != null ==>
        && o == Pass
        && ctx.attachment.timeout == None
        && ctx.attachment.lastReadTime == old(ctx.attachment.lastReadTime)
        && timer.timeouts == (if old(ctx.attachment.timeout).Some?
                              then CancelIn(old(timer.timeouts), old(ctx.attachment.timeout).value)
                              else old(timer.timeouts))
      ensures old(OneLive(ctx)) ==> NoLive(ctx)
    {
      var state := ctx.attachment;
      if state == null {
        return Fail(NullPointerException("state"));
      }
      if state.timeout.Some? {
        timer.Cancel(state.timeout.value);
        state.timeout := None;
      }
      o := Pass;
    }

    /** Initialises here when the pipeline is already attached, since
        `channelOpen` will then not reach this handler; otherwise does
        nothing and leaves initialisation to `ChannelOpen`. */
    method BeforeAdd(ctx: Context, now: int)
      modifies ctx`attachment, timer
      ensures ctx.pipelineAttached ==> Initialized(ctx, now)
      ensures !ctx.pipelineAttached ==> ctx.attachment == old(ctx.attachment) && timer.timeouts == old(timer.timeouts)
      ensures old(NoLive(ctx)) ==> OneLive(ctx)
    {
      if ctx.pipelineAttached {
        Initialize(ctx, now);
      }
    }

    method BeforeRemove(ctx: Context) returns (o: Outcome<Cause>)
      modifies timer, ctx.attachment
      ensures ctx.attachment == null ==> o == Fail(NullPointerException("state")) && timer.timeouts == old(timer.timeouts)
      ensures ctx.attachment != null ==>
        && o == Pass
        && ctx.attachment.timeout == None
        && ctx.attachment.lastReadTime == old(ctx.attachment.lastReadTime)
        && timer.timeouts == (if old(ctx.attachment.timeout).Some?
                              then CancelIn(old(timer.timeouts), old(ctx.attachment.timeout).value)
                              else old(timer.timeouts))
      ensures old(OneLive(ctx)) ==> NoLive(ctx)
    {
      o := Destroy(ctx);
    }

    /** Initialises and forwards the event unchanged. */
    method ChannelOpen(ctx: Context, e: ChannelEvent, now: int)
      modifies ctx`attachment, ctx`upstream, timer
      ensures Initialized(ctx, now)
      ensures ctx.upstream == old(ctx.upstream) + [e]
      ensures old(NoLive(ctx)) ==> OneLive(ctx)
    {
      Initialize(ctx, now);
      ctx.SendUpstream(e);
    }

    /** Destroys, then forwards the event unchanged; a throwing destroy
        forwards nothing. */
    method ChannelClosed(ctx: Context, e: ChannelEvent) returns (o: Outcome<Cause>)
      modifies timer, ctx`upstream, ctx.attachment
      ensures ctx.attachment == null ==>
        && o == Fail(NullPointerException("state"))
        && timer.timeouts == old(timer.timeouts)
        && ctx.upstream == old(ctx.upstream)
      ensures ctx.attachment != null ==>
        && o == Pass
        && ctx.attachment.timeout == None
        && ctx.attachment.lastReadTime == old(ctx.attachment.lastReadTime)
        && timer.timeouts == (if old(ctx.attachment.timeout).Some?
                              then CancelIn(old(timer.timeouts), old(ctx.attachment.timeout).value)
                              else old(timer.timeouts))
        && ctx.upstream == old(ctx.upstream) + [e]
      ensures old(OneLive(ctx)) ==> NoLive(ctx)
    {
      o := Destroy(ctx);
      if o.Pass? {
        ctx.SendUpstream(e);
      }
    }

    /** Records the read time and forwards the event unchanged; it
        schedules nothing. */
    method MessageReceived(ctx: Context, e: ChannelEvent, now: int) returns (o: Outcome<Cause>)
      modifies ctx`upstream, ctx.attachment
      ensures ctx.attachment == null ==> o == Fail(NullPointerException("state")) && ctx.upstream == old(ctx.upstream)
      ensures ctx.attachment != null ==>
        && o == Pass
        && ctx.attachment.lastReadTime == now
        && ctx.attachment.timeout == old(ctx.attachment.timeout)
        && ctx.upstream == old(ctx.upstream) + [e]
      ensures old(OneLive(ctx)) ==> OneLive(ctx)
    {
      var state := ctx.attachment;
      if state == null {
        return Fail(NullPointerException("state"));
      }
      state.lastReadTime := now;
      ctx.SendUpstream(e);
      o := Pass;
    }

    /** The default `readTimedOut`: an exception event carrying the
        read-timeout exception. */
    method ReadTimedOut(ctx: Context)
      modifies ctx`upstream
      ensures ctx.upstream == old(ctx.upstream) + [ExceptionEvent(ReadTimeoutException)]
    {
      ctx.SendUpstream(ExceptionEvent(ReadTimeoutException));
    }

    /** `ReadTimeoutTask.run` for the timeout with handle `h`. A cancelled
        timeout or a closed channel ends the run. Otherwise the decision of
        `OnFire` is carried out: the next timeout of `task` is scheduled and
        its handle replaces the state's; on a timeout the signal follows.
        `fault` is the exception a (possibly overriding) `readTimedOut`
        throws, if any: it is caught and sent upstream as an exception
        event instead. */
    method Run(task: ReadTimeoutTask, h: Handle, now: int, fault: Option<Cause>) returns (o: Outcome<Cause>)
      modifies timer, task.ctx`upstream, task.ctx.attachment
      ensures var ctx, st := task.ctx, task.ctx.attachment;
        (old(timer.IsCancelled(h)) || !ctx.channelOpen) ==>
          && o == Pass
          && timer.timeouts == old(timer.timeouts)
          && ctx.upstream == old(ctx.upstream)
          && (st != null ==> st.timeout == old(st.timeout) && st.lastReadTime == old(st.lastReadTime))
      ensures var ctx, st := task.ctx, task.ctx.attachment;
        (!old(timer.IsCancelled(h)) && ctx.channelOpen && st == null) ==>
          && o == Fail(NullPointerException("state"))
          && timer.timeouts == old(timer.timeouts)
          && ctx.upstream == old(ctx.upstream)
      ensures var ctx, st := task.ctx, task.ctx.attachment;
        (!old(timer.IsCancelled(h)) && ctx.channelOpen && st != null) ==>
          var d := OnFire(timeoutMillis, old(st.lastReadTime), now);
          && o == Pass
          && timer.timeouts == old(timer.timeouts) + [Timeout(task, d.delayMillis, Pending)]
          && st.timeout == Some(|old(timer.timeouts)|)
          && st.lastReadTime == old(st.lastReadTime)
          && ctx.upstream == old(ctx.upstream) +
               (if d.signal then [ExceptionEvent(fault.GetOr(ReadTimeoutException))] else [])
      ensures old(NoLive(task.ctx)) ==> OneLive(task.ctx)
    {
      var ctx := task.ctx;
      if timer.IsCancelled(h) {
        return Pass;
      }
      if !ctx.channelOpen {
        return Pass;
      }
      var state := ctx.attachment;
      if state == null {
        return Fail(NullPointerException("state"));
      }
      var d := OnFire(timeoutMillis, state.lastReadTime, now);
      var next := timer.NewTimeout(task, d.delayMillis);
      state.timeout := Some(next);
      if d.signal {
        if fault.None? {
          ReadTimedOut(ctx);
        } else {
          ctx.SendUpstream(ExceptionEvent(fault.value));
        }
      }
      o := Pass;
    }
  }
}
