/** The shared-quota rate limiter of the timeline poller (`TwitterLimits`).

    The quota is three attributes: the total number of timeline requests per
    window, the number left, and the epoch second at which the window resets.
    Each may be unset (Python `None`). An update prefers values found in the
    shared cache and asks the remote API for all three at once when the
    cached picture is incomplete or its reset time has passed. The cache, the
    API answer and the clock are inputs. */
module TwitterLimits {
  import opened Wrappers

  /** Requests held back from the budget unless the caller says otherwise. */
  const DefaultReserve: int := 5

  /** Quota state. `reserve` is `timeline_rate_reserve`. */
  datatype Limits = Limits(
    reserve: int,
    totalReqs: Option<int>,
    reqsLeft: Option<int>,
    resetTime: Option<int>)

  /** What the cache holds under `timeline_limit`, `timeline_remaining` and
      `timeline_reset`; `None` when a key is absent or holds the empty
      string. A cached "0" is a present value. */
  datatype CacheView = CacheView(limit: Option<int>, remaining: Option<int>, reset: Option<int>)

  /** The configured starting quota, `interns_settings.twitter_timeline_requests`,
      `twitter_timeline_req_left` and `twitter_timeline_reset_time`; each may
      be `None`. */
  datatype Settings = Settings(timelineRequests: Option<int>, timelineReqLeft: Option<int>, timelineResetTime: Option<int>)
  {
    /** The limiter's attributes before its first update. */
    function Start(reserve: int): Limits {
      Limits(reserve, timelineRequests, timelineReqLeft, timelineResetTime)
    }
  }

  /** The remote API's rate-limit answer for the user-timeline endpoint. */
  datatype ApiLimits = ApiLimits(limit: int, remaining: int, reset: int)

  /** An updated quota, and whether the remote API had to be asked. */
  datatype Update = Update(limits: Limits, askedApi: bool)

  /** Python truthiness of an optional int: `None` and `0` are false. */
  predicate Truthy(v: Option<int>) {
    v.Some? && v.value != 0
  }

  /** An attribute after a cache read: the cached value when there is one,
      the current one otherwise. */
  function Overlay(cached: Option<int>, current: Option<int>): Option<int> {
    if cached.Some? then cached else current
  }

  /** The cached picture is usable: a truthy total, a known number of
      requests left (0 included), and a truthy reset time that, when it came
      from the cache, lies strictly after `now`. */
  predicate CacheUsable(s: Limits, cache: CacheView, now: int) {
    && Truthy(Overlay(cache.limit, s.totalReqs))
    && Overlay(cache.remaining, s.reqsLeft).Some?
    && Truthy(Overlay(cache.reset, s.resetTime))
    && (cache.reset.Some? ==> cache.reset.value > now)
  }

  /** `update_limits`. Cached values overwrite the attributes one by one;
      a cached reset time at or before `now` is discarded. If afterwards
      the total or the reset time is falsy, or nothing is known about the
      requests left, all three attributes are replaced by the API answer. */
  function UpdateLimits(s: Limits, cache: CacheView, api: ApiLimits, now: int): (u: Update)
    ensures u.limits.reserve == s.reserve
    // after an update the pacing computation always has its inputs
    ensures u.limits.totalReqs.Some? && u.limits.reqsLeft.Some? && u.limits.resetTime.Some?
    // the API is asked exactly when the cached picture is not usable
    ensures u.askedApi <==> !CacheUsable(s, cache, now)
    // the API path takes all three values from one answer, never mixing in cached ones
    ensures u.askedApi ==>
      && u.limits.totalReqs == Some(api.limit)
      && u.limits.reqsLeft == Some(api.remaining)
      && u.limits.resetTime == Some(api.reset)
    // the cache path keeps each cached value, or the previous one where the cache is silent
    ensures !u.askedApi ==>
      && u.limits.totalReqs == Overlay(cache.limit, s.totalReqs)
      && u.limits.reqsLeft == Overlay(cache.remaining, s.reqsLeft)
      && u.limits.resetTime == Overlay(cache.reset, s.resetTime)
    // a stale cached reset time always forces the API path
    ensures cache.reset.Some? && cache.reset.value <= now ==> u.askedApi
  {
    var total := Overlay(cache.limit, s.totalReqs);
    var left := Overlay(cache.remaining, s.reqsLeft);
    var reset :=
      if cache.reset.Some? then
        (if cache.reset.value - now <= 0 then None else cache.reset)
      else s.resetTime;
    if Truthy(total) && left.Some? && Truthy(reset) then
      Update(s.(totalReqs := total, reqsLeft := left, resetTime := reset), false)
    else
      Update(s.(totalReqs := Some(api.limit), reqsLeft := Some(api.remaining),
                resetTime := Some(api.reset)), true)
  }

  /** `TwitterLimits.__init__`: the attributes start from the configured
      values and are updated once. */
  function NewLimits(reserve: int, configured: Settings, cache: CacheView, api: ApiLimits, now: int): (s: Limits)
    ensures s.reserve == reserve
    ensures s.totalReqs.Some? && s.reqsLeft.Some? && s.resetTime.Some?
    // a usable picture of configured values under the cache keeps each cached
    // value, or the configured one where the cache is silent
    ensures var start := configured.Start(reserve);
      CacheUsable(start, cache, now) ==>
        s == Limits(reserve, Overlay(cache.limit, start.totalReqs), Overlay(cache.remaining, start.reqsLeft),
                    Overlay(cache.reset, start.resetTime))
    // otherwise all three values come from the API answer
    ensures !CacheUsable(configured.Start(reserve), cache, now) ==>
      s == Limits(reserve, Some(api.limit), Some(api.remaining), Some(api.reset))
  {
    UpdateLimits(configured.Start(reserve), cache, api, now).limits
  }

  /** With nothing cached, complete configured values are taken as they
      are, and the API is not asked, even when the configured reset time has
      already passed: only a cached reset time is checked for staleness. */
  lemma ConfiguredQuotaKept(reserve: int, configured: Settings, api: ApiLimits, now: int)
    requires Truthy(configured.timelineRequests) && configured.timelineReqLeft.Some?
    requires Truthy(configured.timelineResetTime)
    ensures NewLimits(reserve, configured, CacheView(None, None, None), api, now) == configured.Start(reserve)
  {
  }

  /** The pacing rule of `get_sleep_between_jobs`: with a budget of
      `reqsLeft - reserve` requests, wait the whole time to the reset when
      the budget is used up, and otherwise an even share of it. The division
      is Python float division. */
  function SleepBetweenJobs(secsUntilReset: int, reqsLeft: int, reserve: int): (sleep: real)
    ensures reqsLeft - reserve <= 0 ==> sleep == secsUntilReset as real
    ensures reqsLeft - reserve > 0 ==> sleep * (reqsLeft - reserve) as real == secsUntilReset as real
    ensures secsUntilReset >= 0 ==> 0.0 <= sleep <= secsUntilReset as real
  {
    var budget := reqsLeft - reserve;
    if budget <= 0 then secsUntilReset as real
    else
      var sleep := secsUntilReset as real / budget as real;
      assert secsUntilReset >= 0 ==> sleep <= secsUntilReset as real by {
        if secsUntilReset >= 0 {
          assert sleep * budget as real == secsUntilReset as real;
          assert sleep * budget as real >= sleep;
        }
      }
      sleep
  }

  /** The quota after an update and the spacing to keep between jobs. */
  datatype Pacing = Pacing(limits: Limits, sleep: real, askedApi: bool)

  /** `get_sleep_between_jobs`: update the quota, then pace the remaining
      budget over the seconds left until the reset (which may be negative
      when an earlier reset time has passed; it is not clamped). */
  function GetSleepBetweenJobs(s: Limits, cache: CacheView, api: ApiLimits, now: int): (p: Pacing)
    ensures p.limits == UpdateLimits(s, cache, api, now).limits
    ensures p.askedApi == UpdateLimits(s, cache, api, now).askedApi
    ensures p.limits.resetTime.Some? && p.limits.reqsLeft.Some?
    ensures p.limits.reqsLeft.value - s.reserve <= 0 ==>
      p.sleep == (p.limits.resetTime.value - now) as real
    ensures p.limits.reqsLeft.value - s.reserve > 0 ==>
      p.sleep * (p.limits.reqsLeft.value - s.reserve) as real == (p.limits.resetTime.value - now) as real
    // a fresh reset time gives a sleep between zero and the time to the reset
    ensures p.limits.resetTime.value >= now ==>
      0.0 <= p.sleep <= (p.limits.resetTime.value - now) as real
  {
    var u := UpdateLimits(s, cache, api, now);
    var sleep := SleepBetweenJobs(u.limits.resetTime.value - now, u.limits.reqsLeft.value, s.reserve);
    Pacing(u.limits, sleep, u.askedApi)
  }

  /** A cache holding a non-zero limit, any remaining count and a non-zero
      reset time after `now` is used as is; the API is not asked. */
  lemma CacheHitKeepsCachedValues(s: Limits, limit: int, remaining: int, reset: int, api: ApiLimits, now: int)
    requires limit != 0 && reset != 0 && reset > now
    ensures var u := UpdateLimits(s, CacheView(Some(limit), Some(remaining), Some(reset)), api, now);
      && !u.askedApi
      && u.limits == Limits(s.reserve, Some(limit), Some(remaining), Some(reset))
  {
  }

  /** A remaining count of zero counts as present: it is kept and does not
      by itself force the API path. */
  lemma ZeroRemainingIsPresent(s: Limits, limit: int, reset: int, api: ApiLimits, now: int)
    requires limit != 0 && reset != 0 && reset > now
    ensures var u := UpdateLimits(s, CacheView(Some(limit), Some(0), Some(reset)), api, now);
      !u.askedApi && u.limits.reqsLeft == Some(0)
  {
  }

  /** A limit of zero counts as missing, whatever the previous total was. */
  lemma ZeroLimitIsMissing(s: Limits, cache: CacheView, api: ApiLimits, now: int)
    requires cache.limit == Some(0)
    ensures UpdateLimits(s, cache, api, now).askedApi
  {
  }

  /** A reset time of zero counts as missing, whether it comes from the
      cache (at a non-negative clock it is stale) or was held before. */
  lemma ZeroResetIsMissing(s: Limits, cache: CacheView, api: ApiLimits, now: int)
    requires now >= 0
    requires cache.reset == Some(0) || (cache.reset.None? && s.resetTime == Some(0))
    ensures UpdateLimits(s, cache, api, now).askedApi
  {
  }

  /** The sleep does not grow as more requests are left: for a fixed,
      non-negative time until the reset, a larger remaining count never
      gives a longer sleep. */
  lemma {:induction false} SleepAntitone(secsUntilReset: int, reserve: int, left1: int, left2: int)
    requires secsUntilReset >= 0 && left1 <= left2
    ensures SleepBetweenJobs(secsUntilReset, left2, reserve) <= SleepBetweenJobs(secsUntilReset, left1, reserve)
  {
    if left1 - reserve > 0 {
      ShareShrinks(secsUntilReset as real, (left1 - reserve) as real, (left2 - reserve) as real,
                   SleepBetweenJobs(secsUntilReset, left1, reserve),
                   SleepBetweenJobs(secsUntilReset, left2, reserve));
    }
  }

  /** With a positive time until the reset, the sleep strictly grows as the
      budget above the reserve shrinks. */
  lemma {:induction false} SleepGrowsAsBudgetShrinks(secsUntilReset: int, reserve: int, left1: int, left2: int)
    requires secsUntilReset > 0 && reserve < left1 < left2
    ensures SleepBetweenJobs(secsUntilReset, left2, reserve) < SleepBetweenJobs(secsUntilReset, left1, reserve)
  {
    ShareShrinksStrict(secsUntilReset as real, (left1 - reserve) as real, (left2 - reserve) as real,
                       SleepBetweenJobs(secsUntilReset, left1, reserve),
                       SleepBetweenJobs(secsUntilReset, left2, reserve));
  }

  /** Helper: an even share `s` of a non-negative total `t` over `b` parts
      does not grow with `b`. */
  lemma ShareShrinks(t: real, b1: real, b2: real, s1: real, s2: real)
    requires t >= 0.0 && 0.0 < b1 <= b2
    requires s1 * b1 == t && s2 * b2 == t
    ensures s2 <= s1
  {
    PositiveFactor(s2, b2);
    MulMono(s2, b1, b2);
    assert (s1 - s2) * b1 == s1 * b1 - s2 * b1;
    PositiveFactor(s1 - s2, b1);
  }

  /** Helper: an even share of a positive total strictly shrinks as the
      number of parts grows. */
  lemma ShareShrinksStrict(t: real, b1: real, b2: real, s1: real, s2: real)
    requires t > 0.0 && 0.0 < b1 < b2
    requires s1 * b1 == t && s2 * b2 == t
    ensures s2 < s1
  {
    PositiveFactorStrict(s2, b2);
    MulMonoStrict(s2, b1, b2);
    assert (s1 - s2) * b1 == s1 * b1 - s2 * b1;
    PositiveFactorStrict(s1 - s2, b1);
  }

  lemma PositiveFactor(x: real, b: real)
    requires b > 0.0 && x * b >= 0.0
    ensures x >= 0.0
  {
  }

  lemma PositiveFactorStrict(x: real, b: real)
    requires b > 0.0 && x * b > 0.0
    ensures x > 0.0
  {
  }

  lemma MulMono(x: real, b1: real, b2: real)
    requires x >= 0.0 && b1 <= b2
    ensures x * b1 <= x * b2
  {
    assert x * b2 - x * b1 == x * (b2 - b1);
  }

  lemma MulMonoStrict(x: real, b1: real, b2: real)
    requires x > 0.0 && b1 < b2
    ensures x * b1 < x * b2
  {
    assert x * b2 - x * b1 == x * (b2 - b1);
  }
}
