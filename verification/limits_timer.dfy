/** The self-tracked fixed-window request counter (`TwitterLimitsTimer`).

    A window of `windowSecs` seconds allows `reqsPerWindow` requests. The
    timer rolls the window over by exactly one window length when the clock
    has passed its end, counts requests down without a lower bound, and
    spreads the seconds remaining over the requests left using Python 2
    integer floor division. Times are whole epoch seconds. */
module LimitsTimer {
  import opened Wrappers
  import opened PyInt

  const DefaultWindowSecs: int := 900
  const DefaultReqsPerWindow: int := 180

  datatype Timer = Timer(
    windowStart: int,
    windowSecs: int,
    reqsPerWindow: int,
    reqsLeft: int,
    sleepTime: int)

  /** Raised by the constructor for a window allowing zero requests. */
  datatype TimerError = ZeroDivision

  /** The end of the current window, `reqs_window_start + reqs_window_time`. */
  function RolloverTime(t: Timer): int {
    t.windowStart + t.windowSecs
  }

  /** `TwitterLimitsTimer.__init__`: a full window starting at `start`
      (the caller's clock reading when no start is given), with the window
      spread evenly over its requests. */
  function NewTimer(start: int, windowSecs: int, reqs: int): (r: Result<Timer, TimerError>)
    ensures r.Failure? <==> reqs == 0
    ensures r.Success? ==>
      && r.value.windowStart == start
      && r.value.windowSecs == windowSecs
      && r.value.reqsPerWindow == reqs
      && r.value.reqsLeft == reqs
    ensures r.Success? && reqs > 0 ==>
      reqs * r.value.sleepTime <= windowSecs < reqs * r.value.sleepTime + reqs
    ensures r.Success? && reqs < 0 ==>
      reqs * r.value.sleepTime + reqs < windowSecs <= reqs * r.value.sleepTime
  {
    if reqs == 0 then Failure(ZeroDivision)
    else Success(Timer(start, windowSecs, reqs, reqs, FloorDiv(windowSecs, reqs)))
  }

  /** The timer built with the default window: 180 requests per 900
      seconds, one request every 5 seconds. */
  lemma DefaultTimer(start: int)
    ensures NewTimer(start, DefaultWindowSecs, DefaultReqsPerWindow)
      == Success(Timer(start, 900, 180, 180, 5))
  {
  }

  /** `calculate_limits`. If `now` is strictly past the end of the window,
      the window moves forward by exactly one length and the count is
      refilled. The sleep is computed from the time to the end of the
      window as it was BEFORE any rollover, taken as a Python
      `timedelta.seconds` (so a past end wraps into the day). */
  function CalculateLimits(t: Timer, now: int): (r: Timer)
    ensures r.windowSecs == t.windowSecs && r.reqsPerWindow == t.reqsPerWindow
    ensures now > RolloverTime(t) ==>
      r.windowStart == RolloverTime(t) && r.reqsLeft == t.reqsPerWindow
    ensures now <= RolloverTime(t) ==>
      r.windowStart == t.windowStart && r.reqsLeft == t.reqsLeft
    ensures 0 <= r.sleepTime < SecondsPerDay
    ensures var secs := TimedeltaSeconds(RolloverTime(t) - now);
      && (r.reqsLeft <= 0 ==> r.sleepTime == secs)
      && (r.reqsLeft > 0 ==> r.reqsLeft * r.sleepTime <= secs < r.reqsLeft * r.sleepTime + r.reqsLeft)
  {
    var rollover := RolloverTime(t);
    var t' := if now > rollover then t.(windowStart := rollover, reqsLeft := t.reqsPerWindow) else t;
    var secs := TimedeltaSeconds(rollover - now);
    if t'.reqsLeft <= 0 then t'.(sleepTime := secs)
    else
      FloorDivPositive(secs, t'.reqsLeft);
      t'.(sleepTime := FloorDiv(secs, t'.reqsLeft))
  }

  /** `decrement_api_reqs`: recompute the limits, then count one request.
      There is no lower bound: an exhausted window goes negative. */
  function DecrementApiReqs(t: Timer, now: int): (r: Timer)
    ensures r.windowSecs == t.windowSecs && r.reqsPerWindow == t.reqsPerWindow
    ensures now <= RolloverTime(t) ==>
      r.windowStart == t.windowStart && r.reqsLeft == t.reqsLeft - 1
    ensures now > RolloverTime(t) ==>
      r.windowStart == RolloverTime(t) && r.reqsLeft == t.reqsPerWindow - 1
    // the sleep is the one computed before the request is counted
    ensures r.sleepTime == CalculateLimits(t, now).sleepTime
  {
    var c := CalculateLimits(t, now);
    c.(reqsLeft := c.reqsLeft - 1)
  }

  /** Decrements at each of the clock readings in `times`, in order. */
  function DecrementAll(t: Timer, times: seq<int>): Timer
    decreases |times|
  {
    if |times| == 0 then t else DecrementAll(DecrementApiReqs(t, times[0]), times[1..])
  }

  /** Requests counted inside one window lower the count one by one, with
      no floor, and leave the window where it is. */
  lemma {:induction false} DecrementsWithinWindow(t: Timer, times: seq<int>)
    requires forall i :: 0 <= i < |times| ==> times[i] <= RolloverTime(t)
    ensures DecrementAll(t, times).reqsLeft == t.reqsLeft - |times|
    ensures DecrementAll(t, times).windowStart == t.windowStart
    ensures DecrementAll(t, times).windowSecs == t.windowSecs
    decreases |times|
  {
    if |times| > 0 {
      var t1 := DecrementApiReqs(t, times[0]);
      assert RolloverTime(t1) == RolloverTime(t);
      DecrementsWithinWindow(t1, times[1..]);
    }
  }

  /** A rollover check long after the window ended advances by one window
      only: if `now` is more than two windows past the start, the timer is
      still behind after the check. */
  lemma NoMultiWindowCatchUp(t: Timer, now: int)
    requires t.windowSecs >= 0 && now > t.windowStart + 2 * t.windowSecs
    ensures var r := CalculateLimits(t, now);
      r.windowStart == t.windowStart + t.windowSecs && now > RolloverTime(r)
  {
  }

  /** On a late rollover the sleep is not based on the new window: the end
      of the OLD window is in the past, so the seconds value wraps to
      `86400 - (now - end)`. */
  lemma LateRolloverSleep(t: Timer, now: int)
    requires RolloverTime(t) < now < RolloverTime(t) + SecondsPerDay
    requires t.reqsPerWindow > 0
    ensures CalculateLimits(t, now).sleepTime
      == FloorDiv(SecondsPerDay - (now - RolloverTime(t)), t.reqsPerWindow)
  {
    TimedeltaSecondsWithinDay(RolloverTime(t) - now);
  }
}
