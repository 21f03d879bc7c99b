/** The activity heartbeat throttle (include/temporal/activity/activity.h, RecordHeartbeat, and
    src/internal/activity_task_handler.cpp, HeartbeatThrottleInterval). Times are nanoseconds. */
module Heartbeat {
  import opened Basics

  const SECOND := 1000000000
  const DEFAULT_INTERVAL := 30 * SECOND

  /** 8/10 of the heartbeat timeout, or the default when there is none; integer division of a
      positive count truncates. */
  function ThrottleInterval(timeout: Option<int>): (r: int)
    ensures timeout.Some? && timeout.value > 0 ==> 10 * r <= 8 * timeout.value < 10 * (r + 1)
    ensures timeout.None? || timeout.value <= 0 ==> r == 30_000_000_000
    ensures r <= 0 ==> timeout == Some(1)
  {
    if timeout.None? || timeout.value <= 0 then DEFAULT_INTERVAL else timeout.value * 8 / 10
  }

  /** What a context remembers between calls. */
  datatype Throttle = Throttle(reported: bool, lastReport: int)

  const FIRST := Throttle(false, 0)

  predicate TooSoon(t: Throttle, interval: int, now: int) {
    t.reported && now - t.lastReport < interval
  }

  function Note(t: Throttle, interval: int, now: int): Throttle {
    if TooSoon(t, interval, now) then t else Throttle(true, now)
  }

  function After(interval: int, calls: seq<int>): Throttle {
    if calls == [] then FIRST else Note(After(interval, calls[..|calls| - 1]), interval, calls[|calls| - 1])
  }

  /** The times of the calls that really reported. */
  function Reports(interval: int, calls: seq<int>): seq<int> {
    if calls == [] then []
    else
      var before, now := calls[..|calls| - 1], calls[|calls| - 1];
      Reports(interval, before) + if TooSoon(After(interval, before), interval, now) then [] else [now]
  }

  class Context {
    const connected: bool   // whether there is a callback to report through
    const interval: int
    var reported: bool
    var lastReport: int
    var cancelRequested: bool

    ghost function State(): Throttle
      reads this
    {
      Throttle(reported, lastReport)
    }

    constructor (connected: bool, interval: int)
      ensures State() == FIRST && !cancelRequested && this.connected == connected && this.interval == interval
    {
      this.connected, this.interval := connected, interval;
      reported, lastReport, cancelRequested := false, 0, false;
    }

    /** `serverSaysCancel` is what the server would answer if it were asked now. */
    method RecordHeartbeat(now: int, serverSaysCancel: bool) returns (sent: bool)
      modifies this
      ensures connected ==> State() == Note(old(State()), interval, now) && sent == !TooSoon(old(State()), interval, now)
      ensures !connected ==> State() == old(State()) && !sent
      ensures cancelRequested == if sent then serverSaysCancel else old(cancelRequested)
    {
      if !connected {
        return false;
      }
      if reported && now - lastReport < interval {
        return false;
      }
      lastReport := now;
      reported := true;
      cancelRequested := serverSaysCancel;
      return true;
    }
  }

  // ---- Headroom ----------------------------------------------------------------------------------

  /** The throttle remembers exactly the last report, and the first call always reports. */
  lemma {:induction false} RemembersLast(interval: int, calls: seq<int>)
    ensures After(interval, calls).reported <==> calls != []
    ensures calls != [] ==> Reports(interval, calls) != [] && Reports(interval, calls)[0] == calls[0]
    ensures calls != [] ==> After(interval, calls).lastReport == Reports(interval, calls)[|Reports(interval, calls)| - 1]
  {
    if calls != [] {
      RemembersLast(interval, calls[..|calls| - 1]);
    }
  }

  /** Reports are at least the interval apart. */
  lemma {:induction false} ReportsSpaced(interval: int, calls: seq<int>, i: nat)
    requires i + 1 < |Reports(interval, calls)|
    ensures Reports(interval, calls)[i + 1] - Reports(interval, calls)[i] >= interval
  {
    var before := calls[..|calls| - 1];
    RemembersLast(interval, before);
    if i + 1 < |Reports(interval, before)| {
      ReportsSpaced(interval, before, i);
    }
  }

  /** The activity heartbeats at gaps of at most `g`, on a clock that does not run backwards. */
  ghost predicate Beating(calls: seq<int>, g: int) {
    forall i :: 0 <= i < |calls| - 1 ==> calls[i] <= calls[i + 1] <= calls[i] + g
  }

  lemma BeatingPrefix(calls: seq<int>, g: int)
    requires Beating(calls, g) && calls != []
    ensures Beating(calls[..|calls| - 1], g)
  {
    var before := calls[..|calls| - 1];
    forall i | 0 <= i < |before| - 1
      ensures before[i] <= before[i + 1] <= before[i] + g
    {
      assert calls[i] <= calls[i + 1];
    }
  }

  /** While the activity beats, the last report is always recent. */
  lemma {:induction false} LastIsRecent(interval: int, calls: seq<int>, g: int)
    requires Beating(calls, g) && calls != [] && interval > 0
    ensures 0 <= calls[|calls| - 1] - After(interval, calls).lastReport < interval
  {
    if |calls| > 1 {
      var before := calls[..|calls| - 1];
      BeatingPrefix(calls, g);
      LastIsRecent(interval, before, g);
      RemembersLast(interval, before);
      assert calls[|calls| - 2] <= calls[|calls| - 2 + 1];
    }
  }

  /** ... and the next one is less than the interval plus one gap away. */
  lemma {:induction false} ReportsClose(interval: int, calls: seq<int>, g: int, i: nat)
    requires Beating(calls, g) && interval > 0 && i + 1 < |Reports(interval, calls)|
    ensures Reports(interval, calls)[i + 1] - Reports(interval, calls)[i] < interval + g
  {
    var before := calls[..|calls| - 1];
    BeatingPrefix(calls, g);
    RemembersLast(interval, before);
    if i + 1 < |Reports(interval, before)| {
      ReportsClose(interval, before, g, i);
    } else {
      LastIsRecent(interval, before, g);
      assert calls[|calls| - 2] <= calls[|calls| - 2 + 1] <= calls[|calls| - 2] + g;
    }
  }

  /** A beating activity is never timed out for the throttle's sake: if its gaps fit in the fifth of
      the timeout that the throttle leaves, then every report arrives within the timeout. */
  lemma Headroom(timeout: int, calls: seq<int>, g: int, i: nat)
    requires timeout >= 2 && g <= timeout - ThrottleInterval(Some(timeout)) && Beating(calls, g)
    requires i + 1 < |Reports(ThrottleInterval(Some(timeout)), calls)|
    ensures var reports := Reports(ThrottleInterval(Some(timeout)), calls);
            ThrottleInterval(Some(timeout)) <= reports[i + 1] - reports[i] < timeout
  {
    ReportsClose(ThrottleInterval(Some(timeout)), calls, g, i);
    ReportsSpaced(ThrottleInterval(Some(timeout)), calls, i);
  }

  /** A timeout of a single nanosecond rounds the throttle to nothing, and only there the bound is lost. */
  lemma NoHeadroom()
    ensures ThrottleInterval(Some(1)) == 0 && Beating([0, 1], 1) && Reports(0, [0, 1]) == [0, 1]
    ensures forall timeout: int :: timeout > 0 ==> (ThrottleInterval(Some(timeout)) == 0 <==> timeout == 1)
  {
    assert [0, 1][..1] == [0];
    assert Reports(0, [0]) == [0];
    assert After(0, [0]) == Throttle(true, 0);
  }
}
