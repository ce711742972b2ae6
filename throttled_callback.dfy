/** The throttle hook of the client (useThrottledCallback.js). A call runs
    the callback at once when at least `delay` has passed since the last
    run; otherwise it replaces any scheduled run by one that fires when the
    delay is up. The clock reading of each call is a parameter, and the
    callback's runs are recorded, with their arguments, in `runs`. */
module ThrottledCallback {
  import opened ChatTypes

  datatype Decision = RunNow | Wait(wait: int)

  /** What a call at `now` does, given the time of the last run. A wait is
      always positive and ends exactly `delay` after the last run. */
  function Decide(now: int, lastExecuted: int, delay: int): (d: Decision)
    ensures d.RunNow? <==> now - lastExecuted >= delay
    ensures d.Wait? ==> d.wait > 0 && now + d.wait == lastExecuted + delay
  {
    var timeSinceLastExecution := now - lastExecuted;
    if timeSinceLastExecution >= delay then RunNow else Wait(delay - timeSinceLastExecution)
  }

  /** A scheduled run: its wait, and the clock reading and arguments of the
      call that scheduled it. */
  datatype Scheduled<A> = Scheduled(wait: int, calledAt: int, args: A)

  class Throttle<A> {
    const delay: int
    var lastExecuted: int
    var pending: Option<Scheduled<A>>
    var runs: seq<A>

    constructor (delay: int)
      ensures this.delay == delay && lastExecuted == 0 && pending == None && runs == []
    {
      this.delay := delay;
      lastExecuted := 0;
      pending := None;
      runs := [];
    }

    /** The throttled function, called at `now`. A run at once leaves an
        earlier scheduled run in place; a wait replaces it. */
    method Call(now: int, args: A)
      modifies this
      ensures Decide(now, old(lastExecuted), delay).RunNow? ==>
        runs == old(runs) + [args] && lastExecuted == now && pending == old(pending)
      ensures Decide(now, old(lastExecuted), delay).Wait? ==>
        pending == Some(Scheduled(Decide(now, old(lastExecuted), delay).wait, now, args))
        && runs == old(runs) && lastExecuted == old(lastExecuted)
    {
      match Decide(now, lastExecuted, delay)
      case RunNow =>
        lastExecuted := now;
        runs := runs + [args];
      case Wait(w) =>
        pending := Some(Scheduled(w, now, args));
    }

    /** The scheduled run fires: it records the clock reading of the call
        that scheduled it, not the time it runs. */
    method Fire()
      requires pending.Some?
      modifies this
      ensures lastExecuted == old(pending).value.calledAt
      ensures runs == old(runs) + [old(pending).value.args]
      ensures pending == None
    {
      lastExecuted := pending.value.calledAt;
      runs := runs + [pending.value.args];
      pending := None;
    }
  }
}
