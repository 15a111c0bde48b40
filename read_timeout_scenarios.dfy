/** The timer's dispatch of a due timeout to the read-timeout handler, and
    whole-connection runs that follow from the handler's contracts. */
module ReadTimeoutScenarios {
  import opened Common
  import opened Timers
  import opened ReadTimeout

  /** The timer fires the pending timeout `h` of `task`: it takes it off
      the schedule, then runs the task. When the connection kept at most
      one pending timeout before, it still does. */
  method TimerFires(handler: ReadTimeoutHandler, task: ReadTimeoutTask, h: Handle, now: int, fault: Option<Cause>)
    returns (o: Outcome<Cause>)
    requires handler.timer.IsPending(h) && handler.timer.timeouts[h].task == task
    modifies handler.timer, task.ctx`upstream, task.ctx.attachment
    ensures var timer, ctx, st := handler.timer, task.ctx, task.ctx.attachment;
      var expired := old(timer.timeouts)[h := old(timer.timeouts)[h].(status := Expired)];
      && (!ctx.channelOpen ==>
            && o == Pass && timer.timeouts == expired && ctx.upstream == old(ctx.upstream)
            && (st != null ==> st.timeout == old(st.timeout) && st.lastReadTime == old(st.lastReadTime)))
      && (ctx.channelOpen && st != null ==>
            var d := OnFire(handler.timeoutMillis, old(st.lastReadTime), now);
            && o == Pass
            && timer.timeouts == expired + [Timeout(task, d.delayMillis, Pending)]
            && st.timeout == Some(|expired|)
            && st.lastReadTime == old(st.lastReadTime)
            && ctx.upstream == old(ctx.upstream) +
                 (if d.signal then [ExceptionEvent(fault.GetOr(ReadTimeoutException))] else []))
    ensures old(handler.OneLive(task.ctx)) ==> handler.OneLive(task.ctx)
  {
    handler.timer.Expire(h);
    assert old(handler.OneLive(task.ctx)) ==> handler.NoLive(task.ctx);
    o := handler.Run(task, h, now, fault);
  }

  /** A one-second window, the channel opened at 0 and read at 400: the
      check due at 1000 finds the read's window still open and reschedules
      for the 400 left of it; the check due at 1400 finds it elapsed,
      reschedules a full window and signals once. */
  method WorkedExample() returns (delays: seq<int>, events: seq<ChannelEvent>)
    ensures delays == [1000, 400, 1000]
    ensures events == [ChannelStateEvent(true), MessageEvent([7]), ExceptionEvent(ReadTimeoutException)]
  {
    var timer := new Timer<ReadTimeoutTask>();
    var r := ReadTimeoutHandler.New(timer, 1000, Some(MILLISECONDS));
    var handler := r.value;
    var ctx := new Context(false, true);
    var task := ReadTimeoutTask(ctx);
    handler.BeforeAdd(ctx, 0);
    assert ctx.attachment == null && timer.timeouts == [];
    ctx.pipelineAttached := true;
    handler.ChannelOpen(ctx, ChannelStateEvent(true), 0);
    assert handler.timeoutMillis == 1000 && timer.timeouts == [Timeout(task, 1000, Pending)];
    var o := handler.MessageReceived(ctx, MessageEvent([7]), 400);
    assert ctx.attachment != null && ctx.attachment.lastReadTime == 400 && ctx.channelOpen;
    o := TimerFires(handler, task, 0, 1000, None);
    assert timer.timeouts == [Timeout(task, 1000, Expired), Timeout(task, 400, Pending)];
    o := TimerFires(handler, task, 1, 1400, None);
    delays := [timer.timeouts[0].delayMillis, timer.timeouts[1].delayMillis, timer.timeouts[2].delayMillis];
    events := ctx.upstream;
  }

  /** A handler added to a pipeline already attached to an open channel
      initialises at once (`channelOpen` will not reach it); closing the
      channel cancels the pending check, and a check that raced with the
      close finds it cancelled and does nothing. */
  method AddedToOpenChannelThenClosed() returns (statuses: seq<Status>, events: seq<ChannelEvent>, timeoutCleared: bool)
    ensures statuses == [Cancelled]
    ensures events == [ChannelStateEvent(false)]
    ensures timeoutCleared
  {
    var timer := new Timer<ReadTimeoutTask>();
    var r := ReadTimeoutHandler.NewWithSeconds(timer, 1);
    var handler := r.value;
    var ctx := new Context(true, true);
    handler.BeforeAdd(ctx, 0);
    assert timer.timeouts == [Timeout(ReadTimeoutTask(ctx), 1000, Pending)];
    ctx.channelOpen := false;
    var o := handler.ChannelClosed(ctx, ChannelStateEvent(false));
    o := handler.Run(ReadTimeoutTask(ctx), 0, 1000, None);
    statuses := [timer.timeouts[0].status];
    events := ctx.upstream;
    timeoutCleared := ctx.attachment != null && ctx.attachment.timeout == None;
  }

  /** A non-positive duration disables the handler: it still attaches a
      state on open, but schedules nothing, and messages pass through. */
  method DisabledHandlerPassesThrough() returns (scheduled: nat, events: seq<ChannelEvent>)
    ensures scheduled == 0
    ensures events == [ChannelStateEvent(true), MessageEvent([1, 2])]
  {
    var timer := new Timer<ReadTimeoutTask>();
    var r := ReadTimeoutHandler.New(timer, -5, Some(SECONDS));
    var handler := r.value;
    var ctx := new Context(true, true);
    handler.ChannelOpen(ctx, ChannelStateEvent(true), 0);
    var o := handler.MessageReceived(ctx, MessageEvent([1, 2]), 10);
    scheduled := |timer.timeouts|;
    events := ctx.upstream;
  }

  /** Initialising twice, as a second `channelOpen` on one context does,
      never cancels the first check: both stay pending, and the state
      records only the second, so "at most one pending check" is lost. */
  method OpenedTwiceLeavesFirstCheckPending() returns (statuses: seq<Status>, recorded: Option<Handle>)
    ensures statuses == [Pending, Pending]
    ensures recorded == Some(1)
  {
    var timer := new Timer<ReadTimeoutTask>();
    var r := ReadTimeoutHandler.NewWithSeconds(timer, 1);
    var handler := r.value;
    var ctx := new Context(false, true);
    handler.ChannelOpen(ctx, ChannelStateEvent(true), 0);
    handler.ChannelOpen(ctx, ChannelStateEvent(true), 10);
    statuses := [timer.timeouts[0].status, timer.timeouts[1].status];
    recorded := ctx.attachment.timeout;
  }
}
