/** The timeline one connection's checks follow when the timer fires each
    timeout exactly when it is due: built from the same decision `OnFire`
    that `ReadTimeoutHandler.Run` carries out. Reads are given as the
    times at which `messageReceived` updated the last read time.
    `messageReceived` overwrites the last read time with the current one,
    while `LastActivity` takes the latest read; the two agree when the
    clock does not go back, that is when the reads are in non-decreasing
    order and none is before the opening time. The timeline assumes that
    clock and is meaningful only for such reads. */
module ReadTimeoutTrace {
  import opened ReadTimeout

  /** One fire of the connection's timer: when, and whether it signalled. */
  datatype Fire = Fire(at: int, signal: bool)

  /** The last read time seen at time `t`: the latest of the opening time
      `start` and the readTimes not after `t`. */
  function LastActivity(start: int, readTimes: seq<int>, t: int): (a: int)
    ensures start <= a
    ensures a == start || (a <= t && a in readTimes)
    decreases |readTimes|
  {
    if readTimes == [] then start
    else
      var earlier := LastActivity(start, readTimes[..|readTimes| - 1], t);
      var r := readTimes[|readTimes| - 1];
      if r <= t && earlier < r then r else earlier
  }

  /** No read up to `t` is later than the last read time seen at `t`. */
  lemma {:induction false} LastActivityCoversReads(start: int, readTimes: seq<int>, t: int, k: nat)
    requires k < |readTimes| && readTimes[k] <= t
    ensures readTimes[k] <= LastActivity(start, readTimes, t)
    decreases |readTimes|
  {
    var last := |readTimes| - 1;
    if k < last {
      var prefix := readTimes[..last];
      assert prefix[k] == readTimes[k];
      LastActivityCoversReads(start, prefix, t, k);
    }
  }

  /** The first `n` fires when the next timeout is due at `due`. */
  function Fires(timeoutMillis: int, start: int, readTimes: seq<int>, due: int, n: nat): (fs: seq<Fire>)
    ensures |fs| == n
    ensures n > 0 ==> fs[0].at == due
    decreases n
  {
    if n == 0 then []
    else
      var d := OnFire(timeoutMillis, LastActivity(start, readTimes, due), due);
      [Fire(due, d.signal)] + Fires(timeoutMillis, start, readTimes, due + d.delayMillis, n - 1)
  }

  /** Every fire signals exactly when no read happened in the window that
      ends at it. */
  lemma {:induction false} SignalIffWindowElapsed(timeoutMillis: int, start: int, readTimes: seq<int>, due: int, n: nat, i: nat)
    requires i < n
    ensures var f := Fires(timeoutMillis, start, readTimes, due, n)[i];
      f.signal <==> f.at - LastActivity(start, readTimes, f.at) >= timeoutMillis
    decreases n
  {
    var d := OnFire(timeoutMillis, LastActivity(start, readTimes, due), due);
    var tail := Fires(timeoutMillis, start, readTimes, due + d.delayMillis, n - 1);
    assert Fires(timeoutMillis, start, readTimes, due, n) == [Fire(due, d.signal)] + tail;
    if i > 0 {
      SignalIffWindowElapsed(timeoutMillis, start, readTimes, due + d.delayMillis, n - 1, i - 1);
    }
  }

  /** With no readTimes at all, the checks fire one full window apart and every
      one of them signals: a timeout per elapsed window. */
  lemma {:induction false} QuietConnectionTimesOutEveryWindow(timeoutMillis: int, start: int, due: int, n: nat, i: nat)
    requires timeoutMillis > 0 && due >= start + timeoutMillis && i < n
    ensures Fires(timeoutMillis, start, [], due, n)[i] == Fire(due + i * timeoutMillis, true)
    decreases n
  {
    if i > 0 {
      QuietConnectionTimesOutEveryWindow(timeoutMillis, start, due + timeoutMillis, n - 1, i - 1);
      assert due + timeoutMillis + (i - 1) * timeoutMillis == due + i * timeoutMillis;
    }
  }

  /** The first read comes within one window of the opening time, and each
      later read within one window of the one before. */
  ghost predicate ReadsEveryWindow(timeoutMillis: int, start: int, readTimes: seq<int>) {
    && |readTimes| > 0
    && readTimes[0] < start + timeoutMillis
    && forall k :: 0 <= k < |readTimes| - 1 ==> readTimes[k] <= readTimes[k + 1] < readTimes[k] + timeoutMillis
  }

  /** While readTimes keep coming at least once per window, the last read is
      always less than a window old. */
  lemma {:induction false} ReadsKeepActivityRecent(timeoutMillis: int, start: int, readTimes: seq<int>, t: int)
    requires timeoutMillis > 0 && ReadsEveryWindow(timeoutMillis, start, readTimes)
    requires t <= readTimes[|readTimes| - 1]
    ensures LastActivity(start, readTimes, t) > t - timeoutMillis
    decreases |readTimes|
  {
    var last := |readTimes| - 1;
    if t == readTimes[last] {
      LastActivityCoversReads(start, readTimes, t, last);
    } else if last == 0 {
      assert LastActivity(start, readTimes, t) >= start;
    } else {
      var prefix := readTimes[..last];
      assert LastActivity(start, prefix, t) <= LastActivity(start, readTimes, t);
      if t <= readTimes[last - 1] {
        assert ReadsEveryWindow(timeoutMillis, start, prefix) by {
          forall k | 0 <= k < |prefix| - 1
            ensures prefix[k] <= prefix[k + 1] < prefix[k] + timeoutMillis
          {
            assert prefix[k] == readTimes[k] && prefix[k + 1] == readTimes[k + 1];
          }
        }
        ReadsKeepActivityRecent(timeoutMillis, start, prefix, t);
      } else {
        LastActivityCoversReads(start, readTimes, t, last - 1);
      }
    }
  }

  /** No check signals while readTimes keep coming at least once per window,
      up to the last read. */
  lemma BusyConnectionNeverTimesOut(timeoutMillis: int, start: int, readTimes: seq<int>, due: int, n: nat, i: nat)
    requires timeoutMillis > 0 && ReadsEveryWindow(timeoutMillis, start, readTimes) && i < n
    requires Fires(timeoutMillis, start, readTimes, due, n)[i].at <= readTimes[|readTimes| - 1]
    ensures !Fires(timeoutMillis, start, readTimes, due, n)[i].signal
  {
    var f := Fires(timeoutMillis, start, readTimes, due, n)[i];
    SignalIffWindowElapsed(timeoutMillis, start, readTimes, due, n, i);
    ReadsKeepActivityRecent(timeoutMillis, start, readTimes, f.at);
  }

  /** After a fire that does not signal, the next check falls exactly one
      window after the last read, so a connection that goes quiet is
      signalled exactly one window after its last read. */
  lemma {:induction false} NextCheckEndsWindowOfLastRead(timeoutMillis: int, start: int, readTimes: seq<int>, due: int, n: nat, i: nat)
    requires i + 1 < n
    requires !Fires(timeoutMillis, start, readTimes, due, n)[i].signal
    ensures var fs := Fires(timeoutMillis, start, readTimes, due, n);
      fs[i + 1].at == LastActivity(start, readTimes, fs[i].at) + timeoutMillis
    decreases n
  {
    var fs := Fires(timeoutMillis, start, readTimes, due, n);
    var d := OnFire(timeoutMillis, LastActivity(start, readTimes, due), due);
    var tail := Fires(timeoutMillis, start, readTimes, due + d.delayMillis, n - 1);
    assert fs == [Fire(due, d.signal)] + tail;
    assert fs[i + 1] == tail[i];
    if i == 0 {
      assert tail[0].at == due + d.delayMillis;
    } else {
      assert fs[i] == tail[i - 1];
      NextCheckEndsWindowOfLastRead(timeoutMillis, start, readTimes, due + d.delayMillis, n - 1, i - 1);
    }
  }
}
