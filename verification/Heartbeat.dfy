/**
 * Heartbeats between agent and server (`heartbeat_loop`, `watchdog_loop`) and the agent's reconnect
 * waits (`run`), on the assumption that the loops' one-second sleeps are exact. Times are in
 * nanoseconds since the loop was started; tick n happens at n seconds.
 */
module Heartbeat {
  import opened Results

  const SECOND: nat := 1_000_000_000

  // ---- when the loops act ---------------------------------------------------------------------------------

  /** Tick of the k-th action (from 0) of a loop that acts every `interval` ticks. */
  function ActionTick(interval: nat, k: nat): nat { (k + 1) * interval + 1 }

  predicate IsActionTick(interval: nat, tick: nat)
    requires interval > 0
  {
    tick > 1 && (tick - 1) % interval == 0
  }

  // ---- acknowledgements --------------------------------------------------------------------------------------

  /** The latest of the given times that is not after t; 0, the time of connecting, if there is none. */
  function Latest(times: seq<nat>, t: nat): (r: nat)
    ensures r <= t && (r == 0 || r in times)
    ensures forall a :: a in times && a <= t ==> a <= r
  {
    if times == [] then 0
    else
      var r := Latest(times[1..], t);
      assert forall a :: a in times ==> a == times[0] || a in times[1..];
      if r < times[0] <= t then times[0] else r
  }

  /** At the tick, the last sign of life is more than `timeout` seconds old. */
  predicate Overdue(times: seq<nat>, timeout: nat, tick: nat) {
    tick * SECOND - Latest(times, tick * SECOND) > timeout * SECOND
  }

  // ---- the agent's loop ----------------------------------------------------------------------------------------

  /**
   * The loop over a number of ticks: first the timeout is looked at, then a heartbeat may be due.
   * The k-th heartbeat leaves at tick (k + 1) * interval + 1, and the loop gives up at the first
   * tick at which the last acknowledgement is overdue.
   */
  method HeartbeatLoop(interval: nat, timeout: nat, acks: seq<nat>, ticks: nat)
      returns (sends: seq<nat>, gaveUp: Option<nat>)
    requires interval > 0
    ensures forall k :: 0 <= k < |sends| ==> sends[k] == ActionTick(interval, k)
    ensures forall k :: 0 <= k < |sends| ==> sends[k] == (if k == 0 then 1 else sends[k - 1]) + interval
    ensures var end := if gaveUp.Some? then gaveUp.value - 1 else ticks;
            && end <= ticks
            && (|sends| > 0 ==> sends[|sends| - 1] <= end) && end < ActionTick(interval, |sends|)
            && (forall n :: 1 <= n <= end ==> !Overdue(acks, timeout, n))
    ensures gaveUp.Some? ==> 1 <= gaveUp.value <= ticks && Overdue(acks, timeout, gaveUp.value)
  {
    sends, gaveUp := [], None;
    var elapsed := 0;
    var n := 0;
    while n < ticks
      invariant 0 <= n <= ticks && 0 <= elapsed <= interval
      invariant forall k :: 0 <= k < |sends| ==> sends[k] == ActionTick(interval, k)
      invariant forall k :: 0 <= k < |sends| ==> sends[k] == (if k == 0 then 1 else sends[k - 1]) + interval
      invariant n == (if sends == [] then 0 else sends[|sends| - 1] - 1) + elapsed
      invariant sends != [] ==> elapsed > 0
      invariant forall m :: 1 <= m <= n ==> !Overdue(acks, timeout, m)
    {
      n := n + 1;
      if n * SECOND - Latest(acks, n * SECOND) > timeout * SECOND {
        NextAction(interval, sends, n - 1, elapsed);
        return sends, Some(n);
      }
      if elapsed < interval {
        elapsed := elapsed + 1;
        continue;
      }
      NextTick(interval, |sends|);
      sends := sends + [n];
      elapsed := 1;
    }
    NextAction(interval, sends, n, elapsed);
  }

  lemma NextTick(interval: nat, k: nat)
    ensures ActionTick(interval, k) == (if k == 0 then 1 else ActionTick(interval, k - 1)) + interval
  {
  }

  lemma NextAction(interval: nat, sends: seq<nat>, n: nat, elapsed: nat)
    requires forall k :: 0 <= k < |sends| ==> sends[k] == ActionTick(interval, k)
    requires elapsed <= interval && n == (if sends == [] then 0 else sends[|sends| - 1] - 1) + elapsed
    ensures n < ActionTick(interval, |sends|)
  {
    NextTick(interval, |sends|);
  }

  /** A server that has fallen silent is noticed within the timeout and one second. */
  lemma SilentServerIsNoticed(acks: seq<nat>, timeout: nat, last: nat)
    requires (last == 0 || last in acks) && forall a :: a in acks ==> a <= last
    ensures var n := (last + timeout * SECOND) / SECOND + 1;
            && last + timeout * SECOND < n * SECOND <= last + (timeout + 1) * SECOND
            && Overdue(acks, timeout, n)
            && forall m :: m * SECOND >= last && m < n ==> !Overdue(acks, timeout, m)
  {
    var d := last + timeout * SECOND;
    var n := d / SECOND + 1;
    assert d == (d / SECOND) * SECOND + d % SECOND;
    assert Latest(acks, n * SECOND) == last;
    forall m: nat | m * SECOND >= last && m < n ensures !Overdue(acks, timeout, m) {
      assert Latest(acks, m * SECOND) == last;
      assert m * SECOND <= (n - 1) * SECOND;
    }
  }

  /** Every heartbeat sent by the given tick has been answered within `delay`. */
  ghost predicate Answered(acks: seq<nat>, interval: nat, delay: nat, tick: nat) {
    forall k: nat :: ActionTick(interval, k) * SECOND + delay <= tick * SECOND ==>
      AnsweredInTime(acks, ActionTick(interval, k) * SECOND, delay)
  }

  ghost predicate AnsweredInTime(acks: seq<nat>, sent: nat, delay: nat) {
    exists a :: a in acks && sent <= a <= sent + delay
  }

  /** As long as answers take at most timeout - interval - 1 seconds, the agent never gives up. */
  lemma PromptAnswersKeepAlive(acks: seq<nat>, interval: nat, timeout: nat, delay: nat, tick: nat)
    requires interval > 0 && timeout >= interval + 1 && delay <= (timeout - interval - 1) * SECOND
    requires Answered(acks, interval, delay, tick)
    ensures !Overdue(acks, timeout, tick)
  {
    var now := tick * SECOND;
    assert (timeout - interval - 1) * SECOND == timeout * SECOND - interval * SECOND - SECOND;
    if now >= ActionTick(interval, 0) * SECOND + delay {
      var k := LastDue(interval, delay, now);
      assert AnsweredInTime(acks, ActionTick(interval, k) * SECOND, delay);
      var a :| a in acks && ActionTick(interval, k) * SECOND <= a <= ActionTick(interval, k) * SECOND + delay;
      assert a <= Latest(acks, now);
      NextTick(interval, k + 1);
      assert (ActionTick(interval, k) + interval) * SECOND == ActionTick(interval, k) * SECOND + interval * SECOND;
    } else {
      assert (interval + 1) * SECOND == interval * SECOND + SECOND;
    }
  }

  /** An agent whose heartbeats are answered so never gives up, for however long its loop runs. */
  method PromptServerKeepsAgent(interval: nat, timeout: nat, delay: nat, acks: seq<nat>, ticks: nat)
      returns (sends: seq<nat>, gaveUp: Option<nat>)
    requires interval > 0 && timeout >= interval + 1 && delay <= (timeout - interval - 1) * SECOND
    requires Answered(acks, interval, delay, ticks)
    ensures gaveUp == None && forall k :: 0 <= k < |sends| ==> sends[k] == ActionTick(interval, k)
    ensures ticks < ActionTick(interval, |sends|)
  {
    sends, gaveUp := HeartbeatLoop(interval, timeout, acks, ticks);
    if gaveUp.Some? {
      assert gaveUp.value * SECOND <= ticks * SECOND;
      PromptAnswersKeepAlive(acks, interval, timeout, delay, gaveUp.value);
    }
  }

  /** The last heartbeat whose answer must have come by now. */
  lemma LastDue(interval: nat, delay: nat, now: nat) returns (k: nat)
    requires interval > 0 && now >= ActionTick(interval, 0) * SECOND + delay
    ensures ActionTick(interval, k) * SECOND + delay <= now < ActionTick(interval, k + 1) * SECOND + delay
  {
    k := 0;
    while now >= ActionTick(interval, k + 1) * SECOND + delay
      invariant ActionTick(interval, k) * SECOND + delay <= now
      decreases now - k
    {
      Grows(interval, k + 1);
      k := k + 1;
    }
  }

  lemma Grows(interval: nat, k: nat)
    requires interval > 0
    ensures ActionTick(interval, k) * SECOND > k
  {
    assert (k + 1) * interval >= k + 1;
  }

  // ---- the server's watchdog ---------------------------------------------------------------------------------------

  const CHECK_INTERVAL: nat := 10

  /** The ticks at which the watchdog looks, and the first look that finds the agent overdue. */
  method WatchdogLoop(timeout: nat, beats: seq<nat>, ticks: nat) returns (closedAt: Option<nat>)
    ensures match closedAt
            case Some(n) => n <= ticks && IsActionTick(CHECK_INTERVAL, n) && Overdue(beats, timeout, n)
                            && forall m :: 1 <= m < n && IsActionTick(CHECK_INTERVAL, m) ==> !Overdue(beats, timeout, m)
            case None => forall m :: 1 <= m <= ticks && IsActionTick(CHECK_INTERVAL, m) ==> !Overdue(beats, timeout, m)
  {
    var elapsed := 0;
    var n := 0;
    while n < ticks
      invariant 0 <= n <= ticks && 0 <= elapsed <= CHECK_INTERVAL
      invariant (n == elapsed) || (elapsed > 0 && n > elapsed && (n - elapsed) % CHECK_INTERVAL == 0)
      invariant forall m :: 1 <= m <= n && IsActionTick(CHECK_INTERVAL, m) ==> !Overdue(beats, timeout, m)
    {
      n := n + 1;
      if elapsed < CHECK_INTERVAL {
        elapsed := elapsed + 1;
        continue;
      }
      if n * SECOND - Latest(beats, n * SECOND) > timeout * SECOND { return Some(n); }
      elapsed := 1;
    }
    return None;
  }

  /** The watchdog looks at ticks 11, 21, 31 and so on. */
  lemma WatchdogTicks(tick: nat)
    ensures IsActionTick(CHECK_INTERVAL, tick) <==> tick >= 11 && tick % 10 == 1
    ensures IsActionTick(CHECK_INTERVAL, tick) <==> exists k: nat :: tick == ActionTick(CHECK_INTERVAL, k)
  {
    if IsActionTick(CHECK_INTERVAL, tick) {
      assert tick == ActionTick(CHECK_INTERVAL, (tick - 1) / 10 - 1);
    }
  }

  /** An agent that has fallen silent is noticed within the timeout and ten seconds. */
  lemma SilentAgentIsNoticed(beats: seq<nat>, timeout: nat, last: nat) returns (n: nat)
    requires timeout > 0 && (last == 0 || last in beats) && forall a :: a in beats ==> a <= last
    ensures IsActionTick(CHECK_INTERVAL, n) && Overdue(beats, timeout, n)
    ensures last + timeout * SECOND < n * SECOND <= last + (timeout + 10) * SECOND
  {
    var d := last + timeout * SECOND;
    var j := (d / SECOND - 1) / 10;
    n := 10 * (j + 1) + 1;
    assert d == (d / SECOND) * SECOND + d % SECOND;
    assert Latest(beats, n * SECOND) == last;
  }

  // ---- reconnecting ----------------------------------------------------------------------------------------------------

  const MAX_RECONNECT_DELAY: nat := 60

  function Pow2(k: nat): nat { if k == 0 then 1 else 2 * Pow2(k - 1) }

  function Min(a: nat, b: nat): nat { if a < b then a else b }

  /** The waits between connection attempts, whatever came of the attempts: a success does not shorten them. */
  method ReconnectWaits(attempts: nat) returns (waits: seq<nat>)
    ensures |waits| == attempts
    ensures forall k :: 0 <= k < attempts ==> waits[k] == Min(Pow2(k), MAX_RECONNECT_DELAY)
    ensures forall k :: 0 <= k < attempts ==> waits[k] == if k < 6 then [1, 2, 4, 8, 16, 32][k] else 60
  {
    waits := [];
    var delay := 1;
    for k := 0 to attempts
      invariant |waits| == k && delay == Min(Pow2(k), MAX_RECONNECT_DELAY)
      invariant forall j :: 0 <= j < k ==> waits[j] == Min(Pow2(j), MAX_RECONNECT_DELAY)
    {
      waits := waits + [delay];
      delay := Min(delay * 2, MAX_RECONNECT_DELAY);
    }
    forall k | 0 <= k < attempts ensures waits[k] == if k < 6 then [1, 2, 4, 8, 16, 32][k] else 60 { WaitsAre(k); }
  }

  /** The waits double up to 32 seconds and are 60 seconds from then on. */
  lemma {:induction false} WaitsAre(k: nat)
    ensures Min(Pow2(k), MAX_RECONNECT_DELAY) == if k < 6 then [1, 2, 4, 8, 16, 32][k] else 60
    ensures k >= 6 ==> Pow2(k) >= 64
  {
    if k > 0 { WaitsAre(k - 1); }
  }
}
