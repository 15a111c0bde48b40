# Read timeouts and datagram write-buffer settings, modelled in Dafny

This project models two small sequential parts of a Netty 3 style network
library.

**The read-timeout handler** (`ReadTimeoutHandler`) raises a read-timeout
exception event on a connection when nothing has been read from it for a
configured time. One handler instance serves many connections. Each
connection keeps a `State` record as the attachment of its handler
context: the time of the last read, and the handle of the one pending check
on the shared timer. The handler reacts to these pipeline callbacks:

- handler added (`beforeAdd`) and removed (`beforeRemove`);
- channel opened (`channelOpen`) and closed (`channelClosed`);
- message received (`messageReceived`).

The timer runs the check task (`ReadTimeoutTask.run`). A check either
reschedules itself for the rest of the window, or reschedules a full window
and signals.

The model works as follows:

- Each operation takes the current time as a parameter `now`.
- The timer is a log of requested timeouts with their delays and their
  status (pending, cancelled, or expired).
- A context's events sent upstream form a log.
- `ReadTimeout.OnFire` is the pure decision a check takes.
  `ReadTimeoutTrace` builds the timeline of fires from it, for a timer that
  fires every timeout exactly when due and a clock that does not go back
  (reads in non-decreasing order, none before the opening time).
- `OneLive` says "at most one pending timeout per connection, and the state
  holds its handle"; `NoLive` says "no pending timeout of the connection".
  Initialising (`initialize`, `beforeAdd`, `channelOpen`) and a check
  (`run`) lead from `NoLive` to `OneLive`. `messageReceived` and the
  timer's dispatch of a check keep `OneLive`, and `destroy` leads from
  `OneLive` to `NoLive`. A second initialisation of a connection whose
  check is still pending does not cancel that check, so two stay pending
  (`ReadTimeoutScenarios.OpenedTwiceLeavesFirstCheckPending`).

**The NIO datagram channel configuration**
(`DefaultNioDatagramChannelConfig`) has three fields: the write-buffer high
and low watermarks and the write spin count. These are its rules:

- The public watermark setters keep `low <= high` and reject negative
  values.
- The spin count must be positive.
- `setOption` recognises the three keys and goes through the unchecked
  watermark setters.
- `setOptions` repairs an out-of-order result by halving the high watermark
  into the low one (`high >>> 1`).

The model has a `Settings` value with one transition function per setter,
and a class with those fields whose methods are tied to the transitions. The
`setOptions` loop is proved against the recursive `AppliedOptions`.

The model follows the code; these points may surprise a reader:

- A disabled handler (timeout <= 0) still creates and attaches a `State`
  when it is initialised. It only schedules nothing.
- `channelOpen` initialises unconditionally, and `destroy` leaves the
  `State` attached with its timeout cleared.
- `messageReceived`, `destroy` and the check task dereference the
  attachment without a null check. Without a `State` they throw a
  `NullPointerException`. This happens, for instance, when the handler is
  removed from a pipeline that never reached `channelOpen`. The model
  returns this as `Fail(NullPointerException("state"))`.
- Take a window of 1000 ms, opened at 0 and read at 400. The check at 1000
  computes `1000 - (1000 - 400) = 400`, so the next check is at 1400, one
  window after the read. That check signals and schedules the next one for
  2400. `ReadTimeoutScenarios.WorkedExample` proves this timeline.
- A bulk update (`setOptions`) that throws after a watermark option skips
  the repair, so it can leave the watermarks out of order
  (`DatagramConfig.ThrowingBulkUpdateSkipsRepair`).

## Model

| member | source | states |
|---|---|---|
| `ReadTimeout.ToMillis` | handler/src/main/java/io/netty/handler/timeout/ReadTimeoutHandler.java:125 | the duration conversion used by the constructor keeps the sign, is the identity for milliseconds, does not grow a non-negative duration for finer units and does not shrink it for coarser ones (saturating at the `long` bounds) |
| `ReadTimeout.TimeoutMillis` | handler/src/main/java/io/netty/handler/timeout/ReadTimeoutHandler.java:122-126 | the window is 0 iff the timeout is non-positive; a positive timeout gives exactly the converted value when that is at least 1 ms, and exactly 1 ms otherwise |
| `ReadTimeout.ReadTimeoutHandler.New` | handler/src/main/java/io/netty/handler/timeout/ReadTimeoutHandler.java:113-127 | a null timer throws first, then a null unit; otherwise a fresh handler on that timer with the normalised window |
| `ReadTimeout.ReadTimeoutHandler.NewWithSeconds` | handler/src/main/java/io/netty/handler/timeout/ReadTimeoutHandler.java:98-100 | the same with the unit fixed to seconds; a positive timeout gives a window of 1000 times it |
| `ReadTimeout.State.constructor` | handler/src/main/java/io/netty/handler/timeout/ReadTimeoutHandler.java:252-258 | a new state has no timeout and was last read at `now` |
| `ReadTimeout.ReadTimeoutHandler.Initialize` | handler/src/main/java/io/netty/handler/timeout/ReadTimeoutHandler.java:192-198 | a fresh state read at `now` is attached; exactly one full-window timeout is scheduled, and its handle recorded, iff the window is positive; a connection with no pending timeout ends with at most one, held by the state |
| `ReadTimeout.ReadTimeoutHandler.Destroy` | handler/src/main/java/io/netty/handler/timeout/ReadTimeoutHandler.java:200-206 | cancels the recorded timeout (if any) and clears it, leaving the last read time; a second call changes nothing; without a state it throws and changes nothing; when at most one timeout was pending and the state held it, none is pending afterwards |
| `ReadTimeout.ReadTimeoutHandler.BeforeAdd` | handler/src/main/java/io/netty/handler/timeout/ReadTimeoutHandler.java:139-150 | initialises iff the pipeline is already attached, and otherwise touches neither the attachment nor the timer |
| `ReadTimeout.ReadTimeoutHandler.BeforeRemove` | handler/src/main/java/io/netty/handler/timeout/ReadTimeoutHandler.java:157-160 | exactly the effect of destroy |
| `ReadTimeout.ReadTimeoutHandler.ChannelOpen` | handler/src/main/java/io/netty/handler/timeout/ReadTimeoutHandler.java:167-175 | initialises, then forwards the event unchanged |
| `ReadTimeout.ReadTimeoutHandler.ChannelClosed` | handler/src/main/java/io/netty/handler/timeout/ReadTimeoutHandler.java:177-182 | destroys, then forwards the event unchanged; when destroy throws nothing is forwarded |
| `ReadTimeout.ReadTimeoutHandler.MessageReceived` | handler/src/main/java/io/netty/handler/timeout/ReadTimeoutHandler.java:184-190 | sets the last read time to `now`, forwards the event unchanged, keeps the recorded timeout and schedules nothing, so "at most one pending timeout, held by the state" is kept; without a state it throws and forwards nothing |
| `ReadTimeout.ReadTimeoutHandler.ReadTimedOut` | handler/src/main/java/io/netty/handler/timeout/ReadTimeoutHandler.java:208-210 | sends one exception event carrying the read-timeout exception upstream |
| `ReadTimeout.OnFire` | handler/src/main/java/io/netty/handler/timeout/ReadTimeoutHandler.java:230-248 | a check signals iff at least a window has passed since the last read; it then reschedules a full window, and otherwise a positive delay ending exactly one window after the last read, never more than a window when the clock has not gone back |
| `ReadTimeout.ReadTimeoutHandler.Run` | handler/src/main/java/io/netty/handler/timeout/ReadTimeoutHandler.java:221-249 | a cancelled timeout or closed channel changes nothing; otherwise one timeout with the `OnFire` delay is scheduled and its handle replaces the state's, and exactly one exception event is sent iff the window elapsed (the read-timeout exception, or what `readTimedOut` threw); a connection with no pending timeout ends with at most one, held by the state |
| `ReadTimeoutScenarios.TimerFires` | handler/src/main/java/io/netty/handler/timeout/ReadTimeoutHandler.java:221-249 | the timer's dispatch of a pending timeout (expire, then run) keeps "at most one pending timeout, held by the state" |
| `ReadTimeoutTrace.LastActivity` | handler/src/main/java/io/netty/handler/timeout/ReadTimeoutHandler.java:184-190 | the last read time seen at `t` is at least the opening time, and is either the opening time or a read not after `t` |
| `ReadTimeoutTrace.LastActivityCoversReads` | handler/src/main/java/io/netty/handler/timeout/ReadTimeoutHandler.java:184-190 | no read up to `t` is later than the last read time seen at `t` |
| `ReadTimeoutTrace.Fires` | handler/src/main/java/io/netty/handler/timeout/ReadTimeoutHandler.java:230-248 | the timeline of `n` checks has `n` fires, the first at the due time |
| `ReadTimeoutTrace.SignalIffWindowElapsed` | handler/src/main/java/io/netty/handler/timeout/ReadTimeoutHandler.java:232-233 | every fire of the timeline signals iff there was no read in the window ending at it |
| `ReadTimeoutTrace.QuietConnectionTimesOutEveryWindow` | handler/src/main/java/io/netty/handler/timeout/ReadTimeoutHandler.java:233-236 | with no reads, the checks fall one window apart and every one signals |
| `ReadTimeoutTrace.ReadsKeepActivityRecent` | handler/src/main/java/io/netty/handler/timeout/ReadTimeoutHandler.java:184-190 | while reads come at least once per window, the last read is always less than a window old |
| `ReadTimeoutTrace.BusyConnectionNeverTimesOut` | handler/src/main/java/io/netty/handler/timeout/ReadTimeoutHandler.java:244-247 | no check up to the last read signals while reads come at least once per window |
| `ReadTimeoutTrace.NextCheckEndsWindowOfLastRead` | handler/src/main/java/io/netty/handler/timeout/ReadTimeoutHandler.java:244-247 | after a fire that does not signal, the next check falls exactly one window after the last read |
| `ReadTimeoutScenarios.WorkedExample` | handler/src/main/java/io/netty/handler/timeout/ReadTimeoutHandler.java:167-248 | window 1000, opened at 0, read at 400: timeouts of 1000, 400 and 1000 are scheduled, and the events are the open, the message and one read timeout |
| `ReadTimeoutScenarios.AddedToOpenChannelThenClosed` | handler/src/main/java/io/netty/handler/timeout/ReadTimeoutHandler.java:139-228 | added to an attached pipeline, the handler schedules one timeout; the close cancels it and clears it, and a check that raced with the close does nothing |
| `ReadTimeoutScenarios.OpenedTwiceLeavesFirstCheckPending` | handler/src/main/java/io/netty/handler/timeout/ReadTimeoutHandler.java:167-198 | opening a connection twice leaves both scheduled checks pending, and the state records only the second |
| `ReadTimeoutScenarios.DisabledHandlerPassesThrough` | handler/src/main/java/io/netty/handler/timeout/ReadTimeoutHandler.java:184-198 | a non-positive timeout schedules nothing and forwards the events unchanged |
| `DatagramConfig.UnsignedShiftRightOne` | transport/src/main/java/io/netty/channel/socket/nio/DefaultNioDatagramChannelConfig.java:49 | `x >>> 1` is never negative and is `x / 2`, at most `x`, for non-negative `x` |
| `DatagramConfig.WithHighWaterMark0` | transport/src/main/java/io/netty/channel/socket/nio/DefaultNioDatagramChannelConfig.java:95-101 | fails iff the value is negative; otherwise sets the high watermark only |
| `DatagramConfig.WithHighWaterMark` | transport/src/main/java/io/netty/channel/socket/nio/DefaultNioDatagramChannelConfig.java:84-93 | fails iff the value is below the low watermark (checked first) or negative; otherwise sets the high watermark only, and the result is ordered |
| `DatagramConfig.WithLowWaterMark0` | transport/src/main/java/io/netty/channel/socket/nio/DefaultNioDatagramChannelConfig.java:120-126 | fails iff the value is negative; otherwise sets the low watermark only |
| `DatagramConfig.WithLowWaterMark` | transport/src/main/java/io/netty/channel/socket/nio/DefaultNioDatagramChannelConfig.java:109-118 | fails iff the value is above the high watermark (checked first) or negative; otherwise sets the low watermark only, and the result is ordered |
| `DatagramConfig.WithWriteSpinCount` | transport/src/main/java/io/netty/channel/socket/nio/DefaultNioDatagramChannelConfig.java:134-140 | fails iff the value is not positive; otherwise sets the spin count only |
| `DatagramConfig.WithOption` | transport/src/main/java/io/netty/channel/socket/nio/DefaultNioDatagramChannelConfig.java:61-76 | each of the three keys sets exactly its field through the unchecked setter and reports it recognised; any other key changes nothing and is not recognised; validity is kept |
| `DatagramConfig.AppliedOptions` | transport/src/main/java/io/netty/channel/socket/nio/DefaultNioDatagramChannelConfig.java:46 | applying options one by one keeps validity, and options with none of the three keys change nothing |
| `DatagramConfig.Repaired` | transport/src/main/java/io/netty/channel/socket/nio/DefaultNioDatagramChannelConfig.java:47-57 | ordered settings are left alone; out-of-order ones get a low watermark of half the high one, so the result is ordered; the high watermark and spin count never change |
| `DatagramConfig.WithOptions` | transport/src/main/java/io/netty/channel/socket/nio/DefaultNioDatagramChannelConfig.java:45-58 | from valid settings a bulk update ends valid, and ordered unless an option threw |
| `DatagramConfig.BulkUpdateRepairsOrder` | transport/src/main/java/io/netty/channel/socket/nio/DefaultNioDatagramChannelConfig.java:45-58 | a high watermark below the low one is refused by its public setter, but accepted by a bulk update, which then sets the low watermark to half of it |
| `DatagramConfig.ThrowingBulkUpdateSkipsRepair` | transport/src/main/java/io/netty/channel/socket/nio/DefaultNioDatagramChannelConfig.java:45-58 | a bulk update that sets a high watermark below the low one and then throws on a spin count of 0 keeps the unordered watermarks and reports the spin-count error |
| `DatagramConfig.DefaultNioDatagramChannelConfig.GetWriteBufferHighWaterMark` | transport/src/main/java/io/netty/channel/socket/nio/DefaultNioDatagramChannelConfig.java:79-81 | returns the high watermark field |
| `DatagramConfig.DefaultNioDatagramChannelConfig.GetWriteBufferLowWaterMark` | transport/src/main/java/io/netty/channel/socket/nio/DefaultNioDatagramChannelConfig.java:104-106 | returns the low watermark field |
| `DatagramConfig.DefaultNioDatagramChannelConfig.GetWriteSpinCount` | transport/src/main/java/io/netty/channel/socket/nio/DefaultNioDatagramChannelConfig.java:129-131 | returns the spin count field |
| `DatagramConfig.DefaultNioDatagramChannelConfig.constructor` | transport/src/main/java/io/netty/channel/socket/nio/DefaultNioDatagramChannelConfig.java:36-42 | a new configuration has high 65536, low 32768 and spin count 16, so it is valid and ordered |
| `DatagramConfig.DefaultNioDatagramChannelConfig.SetWriteBufferHighWaterMark0` | transport/src/main/java/io/netty/channel/socket/nio/DefaultNioDatagramChannelConfig.java:95-101 | the fields, and so the getters, move as `WithHighWaterMark0` says, or stay when it throws |
| `DatagramConfig.DefaultNioDatagramChannelConfig.SetWriteBufferHighWaterMark` | transport/src/main/java/io/netty/channel/socket/nio/DefaultNioDatagramChannelConfig.java:84-93 | the fields move as `WithHighWaterMark` says, or stay when it throws |
| `DatagramConfig.DefaultNioDatagramChannelConfig.SetWriteBufferLowWaterMark0` | transport/src/main/java/io/netty/channel/socket/nio/DefaultNioDatagramChannelConfig.java:120-126 | the fields move as `WithLowWaterMark0` says, or stay when it throws |
| `DatagramConfig.DefaultNioDatagramChannelConfig.SetWriteBufferLowWaterMark` | transport/src/main/java/io/netty/channel/socket/nio/DefaultNioDatagramChannelConfig.java:109-118 | the fields move as `WithLowWaterMark` says, or stay when it throws |
| `DatagramConfig.DefaultNioDatagramChannelConfig.SetWriteSpinCount` | transport/src/main/java/io/netty/channel/socket/nio/DefaultNioDatagramChannelConfig.java:134-140 | the fields move as `WithWriteSpinCount` says, or stay when it throws |
| `DatagramConfig.DefaultNioDatagramChannelConfig.SetOption` | transport/src/main/java/io/netty/channel/socket/nio/DefaultNioDatagramChannelConfig.java:61-76 | returns whether the key was recognised, and the fields move as `WithOption` says, or it throws and they stay |
| `DatagramConfig.DefaultNioDatagramChannelConfig.SetOptions` | transport/src/main/java/io/netty/channel/socket/nio/DefaultNioDatagramChannelConfig.java:45-58 | the fields end as `WithOptions` says, and it throws exactly the exception of the first failing option |

`Current` is built from the three getters, so each setter's contract also
states what the getters return afterwards.

## Left out

- Cross-thread visibility (`volatile` on the `State` fields and the
  configuration fields), and the race between the timer thread and the I/O
  thread. The model is one sequential interleaving of whole operations.
- The timer's internals, `releaseExternalResources` and `timer.stop()`, and
  a timer that refuses to schedule. The timer is reduced to its
  schedule, cancel and is-cancelled contract.
- `System.currentTimeMillis()` becomes the parameter `now`. Clock values
  are unbounded integers, so the 64-bit overflow of `long` time arithmetic
  is not modelled. It is out of reach for real timestamps.
- `afterAdd` and `afterRemove` are empty in the source and are not
  modelled.
- Pipeline dispatch (`ctx.sendUpstream`, `Channels.fireExceptionCaught`)
  becomes an append to the context's upstream log. An exception a handler
  method throws becomes its returned `Outcome`.
- `ReadTimeout.ReadTimeoutHandler.Run`: an overriding `readTimedOut` is
  modelled only by the exception it may throw (`fault`); its other effects
  are not modelled. Which comes first, the reschedule or the signal, is not
  observable in the model, because the timer log and the event log are
  separate. The model does show that the reschedule happens whether or not
  `readTimedOut` throws.
- The superclass `DefaultDatagramChannelConfig` is not part of this model,
  and neither are `DatagramSocket`, `ConversionUtil.toInt` or the logger
  warning. The superclass's `setOptions` is taken to call `setOption` once
  per entry, in the map's iteration order (a sequence here), and to stop at
  the first exception. The superclass's `setOption` is taken to recognise
  none of the keys, and its own keys are not modelled.
- `MessageEvent.java` is an interface with no behaviour. Message payloads
  are opaque byte sequences.
