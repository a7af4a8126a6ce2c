# Twitter poll scheduler of `interns`, modelled in Dafny

This project models the decision logic of the `interns` timeline poller.
The poller walks a fixed list of tracked Twitter users round-robin, and it
paces its dispatches so that it stays within the user-timeline rate limit.
It also models two small pure pieces next to that logic: the cross-process
log relay, and the flat record built from a fetched tweet.

All state is immutable. Every operation is a pure function of explicit
inputs. These values are passed in:

- the clock: whole epoch seconds `now`;
- the memcache lookups: `Option<int>` per key;
- the Twitter rate-limit answer: a triple;
- the tracked-user list;
- the control queue.

The modules:

- `TwitterLimits` (`twitter_limits.dfy`): the cache-first quota update
  (`update_limits`) and the float-valued pacing rule
  (`get_sleep_between_jobs`).
- `LimitsTimer` (`limits_timer.dfy`): the self-tracked fixed-window counter
  `TwitterLimitsTimer`, which uses Python 2 floor division and
  `timedelta.seconds`.
- `TwitterJobs` (`twitter_jobs.dfy`): the scheduler's initial state, one
  loop iteration with the poison check, `execute_next_job`, and a run over
  many iterations. It also proves the round-robin fairness theorem.
- `MultiProcessLogger` (`multi_process_logger.dfy`): a bounded FIFO relay
  that drops entries when full and drains one entry per call, routed by
  level.
- `TweetRecord` (`tweet_record.dfy`): the dictionary that
  `insert_tweet_data` builds, plus a parser for the status URL it contains.
- `PyInt` (`py_int.dfy`): Python 2 `int / int` (floor division) and
  `timedelta.seconds`.
- `Wrappers` (`wrappers.dfy`): `Option` and `Result`.

## Behaviour kept as the code has it

Some of this behaviour is surprising; the model keeps it as the code has
it:

- A job that is not yet due asks to sleep for the time ELAPSED since the
  last dispatch, not for the time remaining until the next one
  (`jobs.py:93`). A negative request raises in Python 2's `time.sleep`. The
  model reports it as `SleepRaised`, and the loop ends.
- The time until reset is not clamped at zero. A reset time that has passed
  gives a negative sleep (`utils.py:123-140`).
- A missing quota is not treated as "reserve left". When the cached picture
  is incomplete, all three values come from the API.
- The timer rolls over by exactly one window per check; there is no
  multi-window catch-up (`NoMultiWindowCatchUp`).
- The timer computes its sleep from the end of the window before the
  rollover. A late check therefore wraps into the day through
  `timedelta.seconds` (`LateRolloverSleep`).
- The loop does not catch exceptions, and it never refreshes the roster.
  Only the poison value or a raised error ends it. An empty list at start
  means that it never runs.
- Only a reset time that comes from the cache is checked for staleness. A
  reset time kept from an earlier API answer, or taken from the configured
  settings, is used as is (`ConfiguredQuotaKept`).
- `execute_next_job` calls `update_limits` and then
  `get_sleep_between_jobs`, which calls `update_limits` again. The model
  performs both updates.
- The nested retweet record's URL uses the outer tweet's id
  (`RetweetUrlUsesOuterId`).

## Model

| member | source | states |
|---|---|---|
| `TwitterLimits.UpdateLimits` | interns/tasks_scheduling/twitter/utils.py:47-93 | the API is asked iff the cached picture is unusable. A usable picture has a non-zero limit, a known remaining count (0 counts), and a non-zero reset time that, if cached, is after now. On the API path all three values come from one answer. Otherwise each value is the cached one, or the previous one where the cache is silent. A stale cached reset always forces the API. Afterwards all three values are set |
| `TwitterLimits.NewLimits` | interns/tasks_scheduling/twitter/utils.py:24-45 | the limiter starts from the configured settings and the given reserve, and is updated once. If that picture, overlaid with the cache, is usable, each value is the cached one or the configured one where the cache is silent; otherwise all three come from the API answer. Afterwards all three quota values are known |
| `TwitterLimits.ConfiguredQuotaKept` | interns/tasks_scheduling/twitter/utils.py:41-93 | with nothing cached, complete configured values are kept as they are and the API is not asked, even when the configured reset time has passed |
| `TwitterLimits.SleepBetweenJobs` | interns/tasks_scheduling/twitter/utils.py:123-140 | with budget `left - reserve` at or below 0, the sleep equals the seconds until reset. Otherwise the sleep times the budget equals the seconds until reset. For a non-negative time until reset, the sleep lies between 0 and that time |
| `TwitterLimits.GetSleepBetweenJobs` | interns/tasks_scheduling/twitter/utils.py:113-142 | the quota used is the updated one. The sleep paces the remaining budget over the time to the updated reset, and is bounded by that time when the reset lies ahead |
| `TwitterLimits.CacheHitKeepsCachedValues` | interns/tasks_scheduling/twitter/utils.py:55-93 | a cache holding a non-zero limit, a remaining count and a non-zero future reset is used unchanged, and the API is not asked |
| `TwitterLimits.ZeroRemainingIsPresent` | interns/tasks_scheduling/twitter/utils.py:59-79 | a cached remaining count of 0 is kept and does not force the API |
| `TwitterLimits.ZeroLimitIsMissing` | interns/tasks_scheduling/twitter/utils.py:55-81 | a cached limit of 0 forces the API path whatever the earlier total |
| `TwitterLimits.ZeroResetIsMissing` | interns/tasks_scheduling/twitter/utils.py:63-81 | a reset time of 0, cached or kept, forces the API path |
| `TwitterLimits.SleepAntitone` | interns/tasks_scheduling/twitter/utils.py:128-140 | for a fixed non-negative time until reset, more requests left never give a longer sleep |
| `TwitterLimits.SleepGrowsAsBudgetShrinks` | interns/tasks_scheduling/twitter/utils.py:128-140 | for a positive time until reset and a positive budget, the sleep strictly grows as the budget shrinks |
| `LimitsTimer.NewTimer` | interns/tasks_scheduling/twitter/utils.py:150-160 | a new timer has a full count. Its sleep is the floor of window over count, or the constructor fails with a zero division for a count of 0 |
| `LimitsTimer.DefaultTimer` | interns/tasks_scheduling/twitter/utils.py:150-160 | the default timer allows 180 requests per 900 seconds and sleeps 5 seconds |
| `LimitsTimer.CalculateLimits` | interns/tasks_scheduling/twitter/utils.py:163-177 | it rolls over iff now is strictly past the window end. A rollover moves the start by exactly one window and refills the count; otherwise start and count are kept. The sleep is the `timedelta.seconds` of the pre-rollover end minus now, floor-divided by a positive count, and always lies in [0, 86399] |
| `LimitsTimer.DecrementApiReqs` | interns/tasks_scheduling/twitter/utils.py:197-201 | within the window the count drops by exactly one, with no lower bound. After a rollover the count becomes the per-window count minus one. The sleep is the one computed before counting |
| `LimitsTimer.DecrementsWithinWindow` | interns/tasks_scheduling/twitter/utils.py:197-201 | k requests counted within one window lower the count by k and leave the window start unchanged |
| `LimitsTimer.NoMultiWindowCatchUp` | interns/tasks_scheduling/twitter/utils.py:165-171 | a check more than two windows late advances by one window only, and the timer is still behind afterwards |
| `LimitsTimer.LateRolloverSleep` | interns/tasks_scheduling/twitter/utils.py:165-177 | on a rollover less than a day late, the sleep is `86400 - (now - old end)` floor-divided by the refilled count |
| `PyInt.FloorDiv` | interns/tasks_scheduling/twitter/utils.py:177 | the quotient is the floor of a/b for either sign of b, as in Python 2 `int / int` |
| `PyInt.TimedeltaSeconds` | interns/tasks_scheduling/twitter/utils.py:173-175 | the result lies in [0, 86399] and differs from the delta by whole days |
| `PyInt.TimedeltaSecondsWithinDay` | interns/tasks_scheduling/twitter/utils.py:173-175 | a delta within one day keeps its value when non-negative, and becomes 86400 plus the delta when negative |
| `TwitterJobs.Init` | interns/tasks_scheduling/twitter/jobs.py:15-33 | the scheduler starts with the given roster, a cursor of 0 and the default reserve. Its quota is the one left by the constructor's update and the initial sleep computation's second update. The last execution is one initial sleep before now. It is running iff the roster is non-empty |
| `TwitterJobs.ExecuteNextJob` | interns/tasks_scheduling/twitter/jobs.py:68-93 | the quota is updated by `update_limits` and again by `get_sleep_between_jobs`, and the sleep is the one paced over that quota. It dispatches iff the time since the last execution is at least that sleep. A dispatch sends the user at the cursor (reset to 0 when past the end), advances the cursor by one and stamps now. Otherwise cursor and stamp are kept, and the sleep requested is the elapsed time (a negative request raises). The cursor stays within [0, len] |
| `TwitterJobs.Step` | interns/tasks_scheduling/twitter/jobs.py:34-47 | the oldest control item is consumed. Poison stops the loop and changes nothing else; any other item (or an empty queue) leads to exactly one job step, whose outcome and resulting state are those of `execute_next_job`, and a raised sleep request stops the loop |
| `TwitterJobs.Run` | interns/tasks_scheduling/twitter/jobs.py:34-47 | a stopped scheduler does nothing. The users dispatched over any run are the roster walked in order from the cursor, wrapping to the front, and the final cursor matches the number of dispatches |
| `TwitterJobs.RotationWindow` | interns/tasks_scheduling/twitter/jobs.py:86-91 | any N consecutive entries of the dispatch order over N users are the roster rotated to the cursor reached by then |
| `TwitterJobs.RunIsFair` | interns/tasks_scheduling/twitter/jobs.py:86-91 | any N consecutive dispatches over a roster of N users are the roster rotated to the cursor, so they dispatch each user exactly once (equal multisets) |
| `TwitterJobs.EmptyRosterNeverDispatches` | interns/tasks_scheduling/twitter/jobs.py:26-34 | an empty roster at start leaves the loop not running, and nothing is ever dispatched |
| `TwitterJobs.FirstJobIsDue` | interns/tasks_scheduling/twitter/jobs.py:24-25 | if the clock has not gone back and the sleep has not grown, the first job step dispatches the first user |
| `MultiProcessLogger.LevelNameRoundTrip` | interns/utils.py:162-216 | each producer level string is recognised by the drain as the same level, and only those five strings are recognised |
| `MultiProcessLogger.PutMessageInQueue` | interns/utils.py:153-160 | a full queue is left unchanged and nothing is raised. Otherwise `[level, msg, logger_name]` is appended at the tail. The queue never exceeds its bound |
| `MultiProcessLogger.Log` | interns/utils.py:162-190 | each level method appends one entry that the drain reads back at that level, with the given message and logger name, leaving earlier entries alone. A full queue drops it |
| `MultiProcessLogger.WriteLogMessages` | interns/utils.py:192-216 | without a logger, an error and no change. An empty queue is a no-op. Otherwise exactly the oldest entry is removed, the logger takes its name, and the entry is emitted at its level, or dropped silently for an unknown level |
| `MultiProcessLogger.LogThenDrain` | interns/utils.py:153-216 | a message logged into an empty queue comes out of the next drain at its level, with its message and logger name |
| `MultiProcessLogger.DrainInOrder` | interns/utils.py:202-216 | k drains remove the k oldest entries and emit them in queue order |
| `TweetRecord.StatusUrlRoundTrip` | interns/clients/twitter/utils.py:76-77 | a status URL reads back to its screen name and id when the screen name has no `/` |
| `TweetRecord.ParsedStatusUrlRebuilds` | interns/clients/twitter/utils.py:76-77 | every URL that reads back is rebuilt exactly from its screen name and id |
| `TweetRecord.BuildRecord` | interns/clients/twitter/utils.py:76-120 | the top-level user name, id, text, creation time and URL describe the outer tweet. It is a retweet iff a retweeted status is present. A plain tweet uses its own mentions, hashtags and URLs. A retweet uses the retweeted status's lists at both levels. The nested record describes the retweeted status with `is_retweet` false and a URL naming the outer id |
| `TweetRecord.RetweetUrlUsesOuterId` | interns/clients/twitter/utils.py:87-93 | the nested URL parses as (retweeted author, outer id). It equals the retweeted status's own URL iff both ids are equal |

## Left out

- Clock reads (`datetime.utcnow`, `time.time`, epoch conversion) are replaced by an integer `now`. One snapshot of clock, cache and API answer serves a whole loop iteration, although the source reads the clock and the cache several times within one.
- Sub-second time is not modelled: `now`, reset times and window starts are whole seconds. The dispatch stamp and the sleep are reals.
- Python float rounding is not modelled. The sleep is an exact real quotient, and the `>=` gate of `execute_next_job` compares exact reals, so an elapsed time that float rounding puts just below the sleep is not modelled.
- Memcache client construction and the Twitter rate-limit call are left out. Cache reads are `Option<int>` inputs; the API answer is an input triple. A cached string that `int()` cannot parse is not modelled.
- Real sleeping is left out: `time.sleep` appears only as the `Waited` outcome.
- All logger calls inside the limits and jobs code are left out, because they do not affect the state.
- Dispatching the Celery task (`get_user_timeline_tweets.delay`) is the `Dispatched` outcome, since it is a foreign call.
- The tracked-user lookup (`get_tracked_twitter_usernames`) and `update_tracked_users` are left out, because they are foreign calls; the roster is an input to `Init`. The loop never calls `update_tracked_users`.
- `MultiProcessCheckingLogger`, `get_logger`, `get_celery_logger` and the file handlers are left out, because they are process and file-system plumbing.
- Process spawning, the 0.5 s drain loop and the interrupt handling in `interns/main.py` are left out, because they are concurrency and OS plumbing.
- Concurrent queue races are left out: an item vanishing between `empty()` and `get_nowait()` is not modelled.
- The Celery tasks, the network client, the eleanor endpoint wrappers, the SQLAlchemy models and schemas, the DB client, the credentials and the setup script are left out. They are foreign calls, I/O or declarations.
- The storage call `add_tweet_data` is left out; `BuildRecord` returns the record that would be passed to it.
- `TweetRecord.BuildRecord`: an empty `retweet_data` dictionary is `None`, and a nested record is one fixed-shape value. Key order and dictionary identity are not modelled.
