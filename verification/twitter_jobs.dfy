/** The round-robin timeline poll scheduler (`TwitterJobs`).

    The scheduler holds the tracked user names fetched once at start, a
    cursor into them, the time of the last dispatch and the quota limiter.
    Each loop iteration first looks at the control queue for the poison
    value, and otherwise runs `execute_next_job`: dispatch the user at the
    cursor when enough time has passed since the last dispatch, or sleep.
    The clock, the cache and the remote API are an `Env` snapshot per
    iteration; dispatching is the `Dispatched` outcome. */
module TwitterJobs {
  import TL = TwitterLimits

  /** An item on the control queue: the poison value or anything else. */
  datatype ControlItem = Poison | Other(payload: string)

  /** The outside world during one loop iteration: the clock, the cache and
      the API answer, plus items the owning process put on the control queue
      since the previous iteration. */
  datatype Env = Env(now: int, cache: TL.CacheView, api: TL.ApiLimits, arrivals: seq<ControlItem>)

  datatype Scheduler = Scheduler(
    users: seq<string>,
    index: int,
    lastExecution: real,
    running: bool,
    limits: TL.Limits)

  /** What one iteration did. `Waited(secs)` is the `time.sleep` request;
      `SleepRaised(secs)` is a negative sleep request, which raises and ends
      the scheduler. */
  datatype Outcome = Dispatched(user: string) | Waited(secs: real) | SleepRaised(secs: real) | Stopped

  /** The cursor starts at 0, only grows by one after a dispatch, and a
      running scheduler has users to poll. */
  predicate Valid(s: Scheduler) {
    0 <= s.index <= |s.users| && (s.running ==> |s.users| > 0)
  }

  /** The cursor as used for the next dispatch: reset to 0 once it has run
      off the end of the list. */
  function Cursor(index: int, n: int): int {
    if index >= n then 0 else index
  }

  /** The quota and pacing computed at start: the limiter is built with the
      default reserve (one update), then asked for the sleep (a second one). */
  function InitPacing(configured: TL.Settings, env: Env): TL.Pacing {
    var limits := TL.NewLimits(TL.DefaultReserve, configured, env.cache, env.api, env.now);
    TL.GetSleepBetweenJobs(limits, env.cache, env.api, env.now)
  }

  /** The state `TwitterJobs.__init__` sets up before its loop. The last
      execution is placed one sleep interval in the past, so the first job
      is due at once unless the sleep grows. An empty roster leaves the
      scheduler not running. */
  function Init(configured: TL.Settings, roster: seq<string>, env: Env): (s: Scheduler)
    ensures Valid(s)
    ensures s.users == roster && s.index == 0
    ensures s.running <==> |roster| > 0
    ensures s.limits.reserve == TL.DefaultReserve
    // the quota after the constructor's update and the sleep's second one
    ensures s.limits == InitPacing(configured, env).limits
    ensures s.lastExecution + InitPacing(configured, env).sleep == env.now as real
  {
    var p := InitPacing(configured, env);
    Scheduler(roster, 0, env.now as real - p.sleep, |roster| > 0, p.limits)
  }

  /** The result of one `execute_next_job`, with the sleep it computed. */
  datatype JobStep = JobStep(state: Scheduler, sleepSecs: real, outcome: Outcome)

  /** `execute_next_job`: update the limits, compute the sleep (which
      updates them again), and dispatch the user at the cursor iff at least
      the sleep has passed since the last dispatch. Otherwise ask to sleep
      for the time ELAPSED since the last dispatch, as `execute_next_job`
      does. */
  function ExecuteNextJob(s: Scheduler, env: Env): (r: JobStep)
    requires Valid(s) && |s.users| > 0
    ensures Valid(r.state)
    ensures r.state.users == s.users && r.state.running == s.running
    ensures r.state.limits.reserve == s.limits.reserve
    ensures !r.outcome.Stopped?
    // the gate paces with the quota updated twice, as `update_limits` and
    // then `get_sleep_between_jobs` leave it
    ensures var u := TL.UpdateLimits(s.limits, env.cache, env.api, env.now).limits;
      var p := TL.GetSleepBetweenJobs(u, env.cache, env.api, env.now);
      r.sleepSecs == p.sleep && r.state.limits == p.limits
    ensures r.outcome.Dispatched? <==> env.now as real - s.lastExecution >= r.sleepSecs
    ensures r.outcome.Dispatched? ==>
      && r.outcome.user == s.users[Cursor(s.index, |s.users|)]
      && r.state.index == Cursor(s.index, |s.users|) + 1
      && r.state.lastExecution == env.now as real
    ensures !r.outcome.Dispatched? ==>
      && r.state.index == s.index
      && r.state.lastExecution == s.lastExecution
      && r.outcome.secs == env.now as real - s.lastExecution
      && (r.outcome.SleepRaised? <==> r.outcome.secs < 0.0)
  {
    var updated := TL.UpdateLimits(s.limits, env.cache, env.api, env.now).limits;
    var p := TL.GetSleepBetweenJobs(updated, env.cache, env.api, env.now);
    var elapsed := env.now as real - s.lastExecution;
    if elapsed >= p.sleep then
      var i := Cursor(s.index, |s.users|);
      JobStep(s.(limits := p.limits, index := i + 1, lastExecution := env.now as real),
              p.sleep, Dispatched(s.users[i]))
    else if elapsed >= 0.0 then
      JobStep(s.(limits := p.limits), p.sleep, Waited(elapsed))
    else
      JobStep(s.(limits := p.limits), p.sleep, SleepRaised(elapsed))
  }

  /** The result of one loop iteration. */
  datatype LoopStep = LoopStep(state: Scheduler, queue: seq<ControlItem>, outcome: Outcome)

  /** One iteration of the `while self.running` loop. A non-empty control
      queue gives up its oldest item; the poison value stops the loop
      before any job runs, any other item is discarded and the job step
      proceeds. A sleep request that raises ends the loop too. */
  function Step(s: Scheduler, queue: seq<ControlItem>, env: Env): (r: LoopStep)
    requires Valid(s) && s.running
    ensures Valid(r.state) && r.state.users == s.users
    ensures var q := queue + env.arrivals;
      && (|q| > 0 ==> r.queue == q[1..])
      && (|q| == 0 ==> r.queue == [])
    ensures var q := queue + env.arrivals;
      |q| > 0 && q[0] == Poison ==>
        r.outcome == Stopped && r.state == s.(running := false)
    ensures var q := queue + env.arrivals;
      !(|q| > 0 && q[0] == Poison) ==>
        && !r.outcome.Stopped?
        && r.outcome == ExecuteNextJob(s, env).outcome
        && r.state == ExecuteNextJob(s, env).state.(running := !r.outcome.SleepRaised?)
  {
    var q := queue + env.arrivals;
    if |q| > 0 && q[0] == Poison then
      LoopStep(s.(running := false), q[1..], Stopped)
    else
      var rest := if |q| > 0 then q[1..] else q;
      var j := ExecuteNextJob(s, env);
      var st := if j.outcome.SleepRaised? then j.state.(running := false) else j.state;
      LoopStep(st, rest, j.outcome)
  }

  /** Users dispatched over `k` dispatches starting at cursor `c`: the
      roster walked in order, wrapping to the front. */
  function Rotation(users: seq<string>, c: int, k: nat): (d: seq<string>)
    requires 0 <= c < |users|
    ensures |d| == k
    decreases k
  {
    if k == 0 then [] else [users[c]] + Rotation(users, Cursor(c + 1, |users|), k - 1)
  }

  /** The cursor after `k` dispatches starting at cursor `c`. */
  function Advance(c: int, n: int, k: nat): (c': int)
    requires 0 <= c < n
    ensures 0 <= c' < n
    decreases k
  {
    if k == 0 then c else Advance(Cursor(c + 1, n), n, k - 1)
  }

  datatype RunResult = RunResult(state: Scheduler, queue: seq<ControlItem>, dispatched: seq<string>)

  /** The loop run over a sequence of iteration snapshots; it ends early
      when it stops running. Records the users dispatched, in order. */
  function Run(s: Scheduler, queue: seq<ControlItem>, envs: seq<Env>): (r: RunResult)
    requires Valid(s)
    ensures Valid(r.state) && r.state.users == s.users
    ensures !s.running ==> r == RunResult(s, queue, [])
    ensures |s.users| > 0 ==>
      && r.dispatched == Rotation(s.users, Cursor(s.index, |s.users|), |r.dispatched|)
      && Cursor(r.state.index, |s.users|) == Advance(Cursor(s.index, |s.users|), |s.users|, |r.dispatched|)
    decreases |envs|
  {
    if !s.running || |envs| == 0 then RunResult(s, queue, [])
    else
      var st := Step(s, queue, envs[0]);
      var rest := Run(st.state, st.queue, envs[1..]);
      if st.outcome.Dispatched? then
        RunResult(rest.state, rest.queue, [st.outcome.user] + rest.dispatched)
      else rest
  }

  /** Rotations compose: `a + b` dispatches are `a` dispatches followed by
      `b` more from where the first `a` left the cursor. */
  lemma {:induction false} RotationSplit(users: seq<string>, c: int, a: nat, b: nat)
    requires 0 <= c < |users|
    ensures Rotation(users, c, a + b) == Rotation(users, c, a) + Rotation(users, Advance(c, |users|, a), b)
    decreases a
  {
    if a > 0 {
      RotationSplit(users, Cursor(c + 1, |users|), a - 1, b);
    }
  }

  /** Without reaching the end of the roster, dispatches walk a slice. */
  lemma {:induction false} RotationNoWrap(users: seq<string>, c: int, k: nat)
    requires 0 <= c < |users| && c + k <= |users|
    ensures Rotation(users, c, k) == users[c..c + k]
    decreases k
  {
    if k > 0 {
      if c + 1 < |users| {
        RotationNoWrap(users, c + 1, k - 1);
        assert users[c..c + k] == [users[c]] + users[c + 1..c + k];
      } else {
        assert k == 1;
        assert Rotation(users, Cursor(c + 1, |users|), 0) == [];
      }
    }
  }

  /** Without reaching the end of the roster, the cursor just counts up;
      reaching the end exactly brings it back to 0. */
  lemma {:induction false} AdvanceNoWrap(c: int, n: int, k: nat)
    requires 0 <= c < n && 0 < k && c + k <= n
    ensures Advance(c, n, k) == (if c + k == n then 0 else c + k)
    decreases k
  {
    if k > 1 {
      AdvanceNoWrap(c + 1, n, k - 1);
    }
  }

  /** A full rotation from cursor `c` is the roster rotated left by `c`. */
  lemma {:induction false} FullRotation(users: seq<string>, c: int)
    requires 0 <= c < |users|
    ensures Rotation(users, c, |users|) == users[c..] + users[..c]
  {
    var n := |users|;
    RotationSplit(users, c, n - c, c);
    RotationNoWrap(users, c, n - c);
    AdvanceNoWrap(c, n, n - c);
    if c > 0 {
      RotationNoWrap(users, 0, c);
    }
  }

  /** Any `n` consecutive entries of a rotation over `n` users are the
      roster rotated to start at the cursor reached by then. */
  lemma {:induction false} RotationWindow(users: seq<string>, c0: int, k: nat, a: nat)
    requires 0 <= c0 < |users| && a + |users| <= k
    ensures var c := Advance(c0, |users|, a);
      Rotation(users, c0, k)[a..a + |users|] == users[c..] + users[..c]
  {
    var n := |users|;
    var c := Advance(c0, n, a);
    var head, tail := Rotation(users, c0, a), Rotation(users, c, k - a);
    RotationSplit(users, c0, a, k - a);
    assert Rotation(users, c0, k) == head + tail;
    RotationSplit(users, c, n, k - a - n);
    assert tail[..n] == Rotation(users, c, n);
    assert Rotation(users, c0, k)[a..a + n] == tail[..n];
    FullRotation(users, c);
  }

  /** A rotated roster holds each user as often as the roster does. */
  lemma {:induction false} RotatedMultiset(users: seq<string>, c: int)
    requires 0 <= c <= |users|
    ensures multiset(users[c..] + users[..c]) == multiset(users)
  {
    assert users == users[..c] + users[c..];
  }

  /** Any `n` consecutive entries of a dispatch order that follows the
      rotation are the roster rotated, holding each user as often as the
      roster does. */
  lemma {:induction false} FairWindow(users: seq<string>, c0: int, d: seq<string>, a: nat)
    requires 0 <= c0 < |users| && d == Rotation(users, c0, |d|)
    ensures var c := Advance(c0, |users|, a);
      a + |users| <= |d| ==>
        && d[a..a + |users|] == users[c..] + users[..c]
        && multiset(d[a..a + |users|]) == multiset(users)
  {
    if a + |users| <= |d| {
      RotationWindow(users, c0, |d|, a);
      RotatedMultiset(users, Advance(c0, |users|, a));
    }
  }

  /** Fairness: over a fixed roster of `n` users, any `n` consecutive
      dispatches of a run are the roster in its own order, rotated to start
      where the cursor stood, so each user is polled exactly once. */
  lemma {:induction false} RunIsFair(s: Scheduler, queue: seq<ControlItem>, envs: seq<Env>, a: nat)
    requires Valid(s) && |s.users| > 0
    ensures var d := Run(s, queue, envs).dispatched;
      var c := Advance(Cursor(s.index, |s.users|), |s.users|, a);
      a + |s.users| <= |d| ==>
        && d[a..a + |s.users|] == s.users[c..] + s.users[..c]
        && multiset(d[a..a + |s.users|]) == multiset(s.users)
  {
    var r := Run(s, queue, envs);
    FairWindow(s.users, Cursor(s.index, |s.users|), r.dispatched, a);
  }

  /** An empty roster at start means the loop never runs and nothing is
      ever dispatched. */
  lemma EmptyRosterNeverDispatches(configured: TL.Settings, env: Env, queue: seq<ControlItem>, envs: seq<Env>)
    ensures !Init(configured, [], env).running
    ensures Run(Init(configured, [], env), queue, envs).dispatched == []
  {
  }

  /** The first job is due at once: if the clock has not gone back and the
      sleep has not grown since start, the first job step dispatches the
      first user. */
  lemma FirstJobIsDue(configured: TL.Settings, roster: seq<string>, env0: Env, env1: Env)
    requires |roster| > 0 && env1.now >= env0.now
    requires ExecuteNextJob(Init(configured, roster, env0), env1).sleepSecs <= InitPacing(configured, env0).sleep
    ensures ExecuteNextJob(Init(configured, roster, env0), env1).outcome == Dispatched(roster[0])
  {
  }
}
