/**
 * The scheduling rule of `useThrottledScroll`: a call runs the callback at
 * once when at least `delay` ms have passed since the last run, and
 * otherwise (re)schedules a single trailing run for one delay after the
 * last run.  Clock readings and timer expiries are explicit events with
 * integer-millisecond times; the callback's runs are recorded in a ghost log.
 */
module ThrottledScroll {
  import opened Options

  const DefaultDelay: nat := 16

  /** The wait handed to the timer by a suppressed call at `now`. */
  function DeferredWait(delay: nat, lastCall: int, now: int): (w: int)
    requires now - lastCall < delay
    ensures w > 0
    ensures lastCall <= now ==> w <= delay
    ensures now + w == lastCall + delay
  {
    delay - (now - lastCall)
  }

  class Throttle {
    const delay: nat
    var lastCall: int
    /** The due time of the pending trailing timer, if one is pending. */
    var pending: Option<int>
    /** The times at which the callback has run, oldest first. */
    ghost var log: seq<int>

    /**
     * `lastCall` is the time of the latest run (0 before any), and a
     * pending timer is due no more than one delay after it.
     */
    ghost predicate Valid()
      reads this
    {
      (if log == [] then lastCall == 0 else lastCall == log[|log| - 1]) &&
      (pending.Some? ==> pending.value <= lastCall + delay)
    }

    constructor (delay: nat)
      ensures Valid()
      ensures this.delay == delay && lastCall == 0 && pending == None && log == []
    {
      this.delay := delay;
      lastCall := 0;
      pending := None;
      log := [];
    }

    /** One call of the throttled callback at time `now`. */
    method Call(now: int)
      requires Valid()
      modifies this
      ensures Valid()
      ensures now - old(lastCall) >= delay ==>
                lastCall == now && log == old(log) + [now] && pending == old(pending)
      ensures now - old(lastCall) < delay ==>
                lastCall == old(lastCall) && log == old(log) &&
                pending == Some(now + DeferredWait(delay, old(lastCall), now))
      ensures now - old(lastCall) < delay ==> pending == Some(old(lastCall) + delay)
    {
      if now - lastCall >= delay {
        lastCall := now;
        log := log + [now];
      } else {
        // any pending timer is cleared before the new one is set
        pending := None;
        pending := Some(now + DeferredWait(delay, lastCall, now));
      }
    }

    /** The pending timer fires at time `t`, no earlier than it was due. */
    method TimerFires(t: int)
      requires Valid()
      requires pending.Some? && pending.value <= t
      modifies this
      ensures Valid()
      ensures lastCall == t && log == old(log) + [t] && pending == None
    {
      lastCall := t;
      log := log + [t];
      pending := None;
    }
  }

  /** Suppressed calls keep the trailing run at one delay after the last run, whenever they come. */
  lemma SuppressedCallsShareDueTime(delay: nat, lastCall: int, now1: int, now2: int)
    requires now1 - lastCall < delay && now2 - lastCall < delay
    ensures now1 + DeferredWait(delay, lastCall, now1) == now2 + DeferredWait(delay, lastCall, now2)
  {
  }

  /**
   * A run immediately after a suppressed call's due time does not cancel
   * that call's timer: the timer stays pending, and when it fires the
   * callback runs once more, the third run in all.
   */
  method ImmediateCallKeepsTimer(delay: nat, t: int) returns (last: int, due: Option<int>, ghost runs: nat)
    requires delay > 0 && t >= delay
    ensures last == t + delay + 1 && due == Some(t + delay) && runs == 3
  {
    var th := new Throttle(delay);
    th.Call(t);
    th.Call(t + delay - 1);
    th.Call(t + delay);
    last, due := th.lastCall, th.pending;
    th.TimerFires(t + delay + 1);
    last := th.lastCall;
    runs := |th.log|;
  }

  /**
   * With the default delay of 16 ms and the clock past 16, the first call
   * runs the callback at once, since lastCall starts at 0.
   */
  method FirstCallRunsAtOnce(now: int) returns (last: int, due: Option<int>, ghost runs: nat)
    requires now >= DefaultDelay
    ensures last == now && due == None && runs == 1
  {
    var th := new Throttle(DefaultDelay);
    th.Call(now);
    last, due, runs := th.lastCall, th.pending, |th.log|;
  }
}
