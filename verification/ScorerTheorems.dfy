/** What one call of `Score` does, whatever the API, the clock and the context do. */
module ScoringTheorems {
  import opened Scoring
  import opened Model
  import CB = CircuitBreaking
  import RL = RateLimiting
  import opened Quotients

  ghost predicate Ready(c: Config, env: seq<Try>) {
    c.limiter.refillRate > 0 && c.maxRetries >= 0 && |env| > c.maxRetries
  }

  // ------------------------------------------------------------------ how many calls, how much sleep

  lemma {:induction false} AttemptsAndCalls(c: Config, s: Resources, env: seq<Try>, k: nat, w: Backoffs)
    requires Ready(c, env) && k <= c.maxRetries
    ensures var t := ScoreFrom(c, s, env, k, w);
            && |t.sleeps| <= t.calls <= |t.sleeps| + 1
            && |t.sleeps| <= c.maxRetries - k
            && t.result != Fails(MaxRetriesExceeded)
    decreases c.maxRetries - k
  {
    if k == c.maxRetries {
    } else {
      AttemptsAndCalls(c, AfterAttempt(c, s, env[k]), env, k + 1, w.Next(env[k].reply));
    }
  }

  /** Termination with a bound: at most `maxRetries + 1` API calls, at most `maxRetries` sleeps, each of them
      after an API call, and the error that follows the loop cannot be returned. */
  lemma ScoreIsBounded(c: Config, s: Resources, env: seq<Try>)
    requires Ready(c, env)
    ensures var t := ScoreTrace(c, s, env);
            && t.calls <= c.maxRetries + 1
            && |t.sleeps| <= c.maxRetries
            && |t.sleeps| <= t.calls <= |t.sleeps| + 1
            && t.result != Fails(MaxRetriesExceeded)
  {
    AttemptsAndCalls(c, s, env, 0, Backoffs(c.retryBackoff, 60 * SECOND));
  }

  function Sum(xs: seq<int>): int {
    if xs == [] then 0 else xs[0] + Sum(xs[1..])
  }

  /** The sum of `min(60 * 2^i, 300)` seconds for `i` from `lo` up to `hi`. */
  function RateSleep(lo: nat, hi: nat): int
    requires lo <= hi
    decreases hi - lo
  {
    if lo == hi then 0 else RL.Min(60 * SECOND * Pow2(lo), 300 * SECOND) + RateSleep(lo + 1, hi)
  }

  /** How many of attempts `k` up to `n` were answered with status 429. */
  function RateLimits(env: seq<Try>, k: nat, n: nat): nat
    requires k <= n <= |env|
    decreases n - k
  {
    if k == n then 0 else (if IsRateLimit(env[k].reply) then 1 else 0) + RateLimits(env, k + 1, n)
  }

  lemma {:induction false} RateLimitsAtMost(env: seq<Try>, k: nat, n: nat)
    requires k <= n <= |env|
    ensures RateLimits(env, k, n) <= n - k
    decreases n - k
  {
    if k == n {
    } else {
      RateLimitsAtMost(env, k + 1, n);
    }
  }

  lemma DoublingCapped(i: nat)
    ensures RL.Min(2 * RL.Min(60 * SECOND * Pow2(i), 300 * SECOND), 300 * SECOND)
            == RL.Min(60 * SECOND * Pow2(i + 1), 300 * SECOND)
  {
  }

  lemma TwoTimes(x: int, p: int)
    ensures 2 * (x * p) == x * (2 * p)
  {
  }

  lemma Telescope(x: int, p: int, q: int)
    ensures x * p + (x * q - x * (2 * p)) == x * q - x * p
  {
    assert x * (2 * p) == 2 * (x * p) by { TwoTimes(x, p); }
  }

  /** The back-offs after `i` rate-limit sleeps and `j` others. */
  function After(c: Config, i: nat, j: nat): Backoffs {
    Backoffs(c.retryBackoff * Pow2(j), RL.Min(60 * SECOND * Pow2(i), 300 * SECOND))
  }

  ghost predicate SleepsExactly(c: Config, env: seq<Try>, t: Trace, k: nat, i: nat, j: nat) {
    var n := k + |t.sleeps|;
    n <= |env| &&
    var a := RateLimits(env, k, n);
    && a <= n - k
    && Sum(t.sleeps) == RateSleep(i, i + a) + (c.retryBackoff * Pow2(j + (n - k - a)) - c.retryBackoff * Pow2(j))
  }

  lemma OneMoreSleep(c: Config, env: seq<Try>, here: Trace, rest: Trace, k: nat, i: nat, j: nat)
    requires k < |env|
    requires var limited := IsRateLimit(env[k].reply);
             SleepsExactly(c, env, rest, k + 1, if limited then i + 1 else i, if limited then j else j + 1)
    ensures SleepsExactly(c, env, Then(here, After(c, i, j).Delay(env[k].reply), rest), k, i, j)
  {
    var t := Then(here, After(c, i, j).Delay(env[k].reply), rest);
    assert t.sleeps[1..] == rest.sleeps;
    RateLimitsAtMost(env, k + 1, k + |t.sleeps|);
    Telescope(c.retryBackoff, Pow2(j), Pow2(j + (|t.sleeps| - RateLimits(env, k, k + |t.sleeps|))));
  }

  /** The two schedules advance independently: `i` rate-limit sleeps and `j` others have gone before. */
  lemma {:induction false} BackoffFrom(c: Config, s: Resources, env: seq<Try>, k: nat, i: nat, j: nat)
    requires Ready(c, env) && k <= c.maxRetries
    ensures SleepsExactly(c, env, ScoreFrom(c, s, env, k, After(c, i, j)), k, i, j)
    decreases c.maxRetries - k
  {
    var w := After(c, i, j);
    var here := Here(c, s, env[k]);
    if !Admitted(c, s, env[k]) || ReturnsWith(c, s, env[k], k).Some? {
    } else {
      DoublingCapped(i);
      TwoTimes(c.retryBackoff, Pow2(j));
      if IsRateLimit(env[k].reply) {
        BackoffFrom(c, here.after, env, k + 1, i + 1, j);
      } else {
        BackoffFrom(c, here.after, env, k + 1, i, j + 1);
      }
      OneMoreSleep(c, env, here, ScoreFrom(c, here.after, env, k + 1, w.Next(env[k].reply)), k, i, j);
    }
  }

  /** With `a` sleeps after status 429 and `b` after other errors, the back-off sleep is exactly the sum of
      `min(60 * 2^i, 300)` seconds for `i < a`, plus `retryBackoff * (2^b - 1)`. */
  lemma BackoffClosedForm(c: Config, s: Resources, env: seq<Try>)
    requires Ready(c, env)
    ensures var t := ScoreTrace(c, s, env);
            |t.sleeps| <= |env| &&
            var a := RateLimits(env, 0, |t.sleeps|);
            && a <= |t.sleeps|
            && Sum(t.sleeps) == RateSleep(0, a) + c.retryBackoff * (Pow2(|t.sleeps| - a) - 1)
  {
    BackoffFrom(c, s, env, 0, 0, 0);
    assert c.retryBackoff * Pow2(0) == c.retryBackoff;
    assert After(c, 0, 0) == Backoffs(c.retryBackoff, 60 * SECOND);
    var t := ScoreTrace(c, s, env);
    Distribute(c.retryBackoff, Pow2(|t.sleeps| - RateLimits(env, 0, |t.sleeps|)));
  }

  lemma Distribute(x: int, p: int)
    ensures x * (p - 1) == x * p - x
  {
  }

  // ------------------------------------------------------------------ which error comes back

  /** The attempt gets past breaker, limiter and semaphore. */
  predicate CallsApi(c: Config, s: Resources, t: Try)
    requires c.limiter.refillRate > 0
  {
    CB.Admits(c.breaker, s.breaker, t.asked) && RL.Granted(c.limiter, s.bucket, t.wait) && t.slot
  }

  /** An answer after which another attempt may help: neither a verdict, nor a status from 400 to 499 other than 429,
      nor a spent quota. */
  predicate WorthRetrying(r: Reply) {
    match r
    case Verdict(_) => false
    case OtherError => true
    case HttpError(status, body) => if status == 429 then !Exhausted(body) else !(400 <= status < 500)
  }

  /** The API answers, another attempt may help, and nobody cancels the sleep. */
  predicate Retried(c: Config, s: Resources, t: Try)
    requires c.limiter.refillRate > 0
  {
    CallsApi(c, s, t) && WorthRetrying(t.reply) && t.resumed.At?
  }

  /** From attempt `k` on the environment has `Score` retry, until attempt `n` is answered with a spent quota. */
  predicate QuotaShownAt(c: Config, s: Resources, env: seq<Try>, k: nat, n: nat)
    requires c.limiter.refillRate > 0 && k <= n < |env|
    decreases n - k
  {
    if k == n then CallsApi(c, s, env[k]) && SpentQuota(env[k].reply)
    else Retried(c, s, env[k]) && QuotaShownAt(c, AfterAttempt(c, s, env[k]), env, k + 1, n)
  }

  ghost predicate QuotaShownBefore(c: Config, s: Resources, env: seq<Try>, k: nat, last: nat)
    requires c.limiter.refillRate > 0 && last <= |env|
  {
    exists n :: k <= n < last && QuotaShownAt(c, s, env, k, n)
  }

  lemma ShownLater(c: Config, s: Resources, env: seq<Try>, k: nat, last: nat)
    requires c.limiter.refillRate > 0 && k < last <= |env| && !SpentQuota(env[k].reply)
    ensures QuotaShownBefore(c, s, env, k, last)
            <==> Retried(c, s, env[k]) && QuotaShownBefore(c, AfterAttempt(c, s, env[k]), env, k + 1, last)
  {
    if QuotaShownBefore(c, s, env, k, last) {
      var n :| k <= n < last && QuotaShownAt(c, s, env, k, n);
      assert QuotaShownAt(c, AfterAttempt(c, s, env[k]), env, k + 1, n);
    }
    if Retried(c, s, env[k]) && QuotaShownBefore(c, AfterAttempt(c, s, env[k]), env, k + 1, last) {
      var n :| k + 1 <= n < last && QuotaShownAt(c, AfterAttempt(c, s, env[k]), env, k + 1, n);
      assert QuotaShownAt(c, s, env, k, n);
    }
  }

  lemma ShownNow(c: Config, s: Resources, env: seq<Try>, k: nat, last: nat)
    requires c.limiter.refillRate > 0 && k < last <= |env| && SpentQuota(env[k].reply)
    ensures QuotaShownBefore(c, s, env, k, last) <==> CallsApi(c, s, env[k])
  {
    if CallsApi(c, s, env[k]) {
      assert QuotaShownAt(c, s, env, k, k);
    }
  }

  lemma {:induction false} QuotaFrom(c: Config, s: Resources, env: seq<Try>, k: nat, w: Backoffs)
    requires Ready(c, env) && k <= c.maxRetries
    ensures var t := ScoreFrom(c, s, env, k, w);
            && (t.result == Fails(DailyQuota) <==> QuotaShownBefore(c, s, env, k, c.maxRetries))
            && (QuotaShownAt(c, s, env, k, c.maxRetries) ==> t.result == Outcome(env[c.maxRetries].reply))
    decreases c.maxRetries - k
  {
    if k < c.maxRetries {
      if SpentQuota(env[k].reply) {
        ShownNow(c, s, env, k, c.maxRetries);
      } else {
        ShownLater(c, s, env, k, c.maxRetries);
        QuotaFrom(c, AfterAttempt(c, s, env[k]), env, k + 1, w.Next(env[k].reply));
      }
    } else {
      assert !QuotaShownBefore(c, s, env, k, c.maxRetries);
    }
  }

  /** A spent daily quota is reported exactly if the environment shows it, after attempts that `Score` retries, in
      answer to an attempt before the last. */
  lemma DailyQuotaDetectedBeforeLastAttempt(c: Config, s: Resources, env: seq<Try>)
    requires Ready(c, env)
    ensures ScoreTrace(c, s, env).result == Fails(DailyQuota) <==> QuotaShownBefore(c, s, env, 0, c.maxRetries)
  {
    QuotaFrom(c, s, env, 0, Backoffs(c.retryBackoff, 60 * SECOND));
  }

  /** With the attempts before attempt `n` retried and a spent quota in answer to attempt `n`: it is detected if and
      only if attempts are left; on the last one the caller sees a plain status 429. */
  lemma DailyQuotaMissedOnLastAttempt(c: Config, s: Resources, env: seq<Try>, n: nat)
    requires Ready(c, env) && n <= c.maxRetries && QuotaShownAt(c, s, env, 0, n)
    ensures var r := ScoreTrace(c, s, env).result;
            && (r == Fails(DailyQuota) <==> n < c.maxRetries)
            && env[n].reply.HttpError?
            && (n == c.maxRetries ==> r == Fails(Http(429, env[n].reply.body)))
  {
    QuotaFrom(c, s, env, 0, Backoffs(c.retryBackoff, 60 * SECOND));
    ShownSpent(c, s, env, 0, n);
  }

  lemma {:induction false} ShownSpent(c: Config, s: Resources, env: seq<Try>, k: nat, n: nat)
    requires c.limiter.refillRate > 0 && k <= n < |env| && QuotaShownAt(c, s, env, k, n)
    ensures SpentQuota(env[n].reply)
    decreases n - k
  {
    if k == n {
    } else {
      ShownSpent(c, AfterAttempt(c, s, env[k]), env, k + 1, n);
    }
  }

  /** An example: without retries a spent quota never shows. */
  lemma DailyQuotaMissedWithoutRetries(c: Config, now: Time, t: Try)
    requires c.limiter.Sane() && c.maxRetries == 0 && t.slot && t.wait == RL.Call(now, RL.Cancelled)
    requires t.reply == HttpError(429, "RESOURCE_EXHAUSTED")
    ensures ScoreTrace(c, Resources(CB.FRESH, RL.Bucket(c.limiter.maxTokens, now), 0), [t]).result
            == Fails(Http(429, "RESOURCE_EXHAUSTED"))
  {
    var s := Resources(CB.FRESH, RL.Bucket(c.limiter.maxTokens, now), 0);
    assert OccursAt("RESOURCE_EXHAUSTED", "RESOURCE_EXHAUSTED", 0);
    assert QuotaShownAt(c, s, [t], 0, 0);
    DailyQuotaMissedOnLastAttempt(c, s, [t], 0);
  }

  // ------------------------------------------------------------------ the retry loop during an outage

  /** The API answers with an error that is neither critical nor permanent nor a rate limit. */
  predicate Flaky(r: Reply) {
    r.OtherError? || (r.HttpError? && !(400 <= r.status < 500))
  }

  /** From attempt `k` on nothing is cancelled, every reply is flaky, and every next attempt begins less than
      the open timeout after the failure before it. */
  ghost predicate Outage(c: Config, env: seq<Try>, k: nat) {
    && (forall i :: k <= i < |env| ==>
          env[i].wait.wake.At? && env[i].slot && env[i].resumed.At? && Flaky(env[i].reply))
    && (forall i :: k < i < |env| ==> env[i].asked - env[i - 1].finished < c.breaker.timeout)
  }

  lemma {:induction false} OutageFrom(c: Config, s: Resources, env: seq<Try>, k: nat, w: Backoffs)
    requires Ready(c, env) && c.breaker.Sane() && k <= c.maxRetries && Outage(c, env, k)
    requires s.breaker.mode == CB.Closed && s.breaker.failures < c.breaker.failureThreshold
    ensures var t := ScoreFrom(c, s, env, k, w);
            var left := c.breaker.failureThreshold - s.breaker.failures;
            && t.calls == RL.Min(c.maxRetries - k + 1, left)
            && t.result == if left <= c.maxRetries - k then Fails(CircuitOpen) else Outcome(env[c.maxRetries].reply)
    decreases c.maxRetries - k
  {
    var t := env[k];
    var s' := AfterAttempt(c, s, t);
    if k < c.maxRetries && s'.breaker.mode == CB.Closed {
      OutageFrom(c, s', env, k + 1, w.Next(t.reply));
    } else if k < c.maxRetries {
      assert !Admitted(c, s', env[k + 1]);
      assert ScoreFrom(c, s', env, k + 1, w.Next(t.reply)).result == Fails(CircuitOpen);
    }
  }

  /** Retry loop and breaker together: in an outage a `Score` that finds the breaker closed with `f` failures
      makes exactly `min(maxRetries + 1, failureThreshold - f)` API calls; it ends with the breaker's refusal if
      the breaker opens before the last attempt, and with the last API error otherwise. */
  lemma ScoreDuringOutage(c: Config, s: Resources, env: seq<Try>)
    requires Ready(c, env) && c.breaker.Sane() && Outage(c, env, 0)
    requires s.breaker.mode == CB.Closed && s.breaker.failures < c.breaker.failureThreshold
    ensures var t := ScoreTrace(c, s, env);
            var left := c.breaker.failureThreshold - s.breaker.failures;
            && t.calls == RL.Min(c.maxRetries + 1, left)
            && t.result == if left <= c.maxRetries then Fails(CircuitOpen) else Outcome(env[c.maxRetries].reply)
  {
    OutageFrom(c, s, env, 0, Backoffs(c.retryBackoff, 60 * SECOND));
  }

  // ------------------------------------------------------------------ what breaker and limiter saw

  lemma {:induction false} ServeAppend(c: RL.Config, b: RL.Bucket, xs: seq<RL.Call>, ys: seq<RL.Call>)
    requires c.refillRate > 0
    ensures RL.Serve(c, b, xs + ys) == RL.Serve(c, RL.Serve(c, b, xs), ys)
  {
    if ys == [] {
      assert xs + ys == xs;
    } else {
      ServeAppend(c, b, xs, ys[..|ys| - 1]);
      assert (xs + ys)[..|xs + ys| - 1] == xs + ys[..|ys| - 1];
    }
  }

  lemma {:induction false} ReplayTwo(c: CB.Config, h: seq<CB.Event>, x: CB.Event, y: CB.Event)
    ensures CB.Replay(c, h + [x]) == CB.Next(c, CB.Replay(c, h), x)
    ensures CB.Replay(c, h + [x, y]) == CB.Next(c, CB.Next(c, CB.Replay(c, h), x), y)
  {
    assert (h + [x])[..|h|] == h;
    assert (h + [x, y])[..|h| + 1] == h + [x];
  }

  /** How many calls the limiter granted. */
  function CallsGranted(c: RL.Config, b: RL.Bucket, calls: seq<RL.Call>): nat
    requires c.refillRate > 0
    decreases |calls|
  {
    if calls == [] then 0
    else (if RL.Granted(c, b, calls[0]) then 1 else 0) + CallsGranted(c, RL.After(c, b, calls[0]), calls[1..])
  }

  ghost predicate Accounted(c: Config, s: Resources, h: seq<CB.Event>, t: Trace)
    requires c.limiter.refillRate > 0
  {
    && t.after.breaker == CB.Replay(c.breaker, h + t.events)
    && t.after.bucket == RL.Serve(c.limiter, s.bucket, t.waits)
    && t.after.inUse == s.inUse
    && t.calls <= CallsGranted(c.limiter, s.bucket, t.waits)
  }

  lemma JoinAccounts(c: Config, s: Resources, h: seq<CB.Event>, here: Trace, delay: int, rest: Trace, w: RL.Call)
    requires c.limiter.refillRate > 0
    requires here.waits == [w] && here.calls <= if RL.Granted(c.limiter, s.bucket, w) then 1 else 0
    requires here.after.inUse == s.inUse && here.after.bucket == RL.After(c.limiter, s.bucket, w)
    requires Accounted(c, here.after, h + here.events, rest)
    ensures Accounted(c, s, h, Then(here, delay, rest))
  {
    assert h + (here.events + rest.events) == h + here.events + rest.events;
    ServeAppend(c.limiter, s.bucket, [w], rest.waits);
    assert [w][..0] == [];
    assert ([w] + rest.waits)[1..] == rest.waits;
  }

  lemma OneServed(c: RL.Config, b: RL.Bucket, w: RL.Call)
    requires c.refillRate > 0
    ensures RL.Serve(c, b, [w]) == RL.After(c, b, w)
    ensures CallsGranted(c, b, [w]) == if RL.Granted(c, b, w) then 1 else 0
  {
    assert [w][..0] == [] && [w][1..] == [];
  }

  lemma AttemptAccounted(c: Config, s: Resources, t: Try, h: seq<CB.Event>)
    requires c.limiter.refillRate > 0 && s.breaker == CB.Replay(c.breaker, h)
    ensures if Admitted(c, s, t) then Accounted(c, s, h, Here(c, s, t))
            else AfterAttempt(c, s, t).breaker == CB.Replay(c.breaker, h + [CB.Attempt(t.asked)])
  {
    ReplayTwo(c.breaker, h, CB.Attempt(t.asked), Report(BodyResult(c, s, t), t.finished));
    OneServed(c.limiter, s.bucket, t.wait);
  }

  lemma {:induction false} AccountsFrom(
      c: Config, s: Resources, env: seq<Try>, k: nat, w: Backoffs, h: seq<CB.Event>)
    requires Ready(c, env) && k <= c.maxRetries + 1
    requires s.breaker == CB.Replay(c.breaker, h)
    ensures Accounted(c, s, h, ScoreFrom(c, s, env, k, w))
    decreases c.maxRetries + 1 - k
  {
    if k > c.maxRetries {
      assert h + [] == h;
    } else {
      var t := env[k];
      var here := Here(c, s, t);
      AttemptAccounted(c, s, t, h);
      var whole := ScoreFrom(c, s, env, k, w);
      if whole.sleeps != [] {
        AccountsFrom(c, here.after, env, k + 1, w.Next(t.reply), h + here.events);
        JoinAccounts(c, s, h, here, w.Delay(t.reply), ScoreFrom(c, here.after, env, k + 1, w.Next(t.reply)), t.wait);
      }
    }
  }

  /** Every API call is paid for by a token of its own, the semaphore is as it was, and breaker and limiter
      are exactly where the recorded attempts, completions and waits take them. */
  lemma EveryCallHasItsToken(c: Config, s: Resources, env: seq<Try>, h: seq<CB.Event>)
    requires Ready(c, env) && s.breaker == CB.Replay(c.breaker, h)
    ensures Accounted(c, s, h, ScoreTrace(c, s, env))
  {
    AccountsFrom(c, s, env, 0, Backoffs(c.retryBackoff, 60 * SECOND), h);
  }

  /** While the breaker cools down `Score` fails at once: no API call, no token and no slot taken. */
  lemma CoolDownStopsScore(c: Config, s: Resources, env: seq<Try>, h: seq<CB.Event>, i: int)
    requires Ready(c, env) && c.breaker.Sane()
    requires s.breaker == CB.Replay(c.breaker, h) && CB.Opens(c.breaker, h, i)
    requires CB.Chronological(h + [CB.Attempt(env[0].asked)])
    requires env[0].asked < h[i].at + c.breaker.timeout
    ensures ScoreTrace(c, s, env) == Trace(Fails(CircuitOpen), s, 0, [], [], [CB.Attempt(env[0].asked)])
  {
    var g := h + [CB.Attempt(env[0].asked)];
    forall k | 0 <= k <= |h| ensures g[..k] == h[..k] {}
    assert h[..|h|] == h;
    CB.NoAdmissionDuringCoolDown(c.breaker, g, i, |h|);
  }

  // ------------------------------------------------------------------ many calls of `Score` in a row

  /** History `g` continues `h`; one caller uses the breaker throughout and is idle at both ends; and the
      continuation admits at least `n` calls. */
  ghost predicate Block(c: CB.Config, h: seq<CB.Event>, g: seq<CB.Event>, n: nat) {
    && |h| <= |g| && g[..|h|] == h
    && CB.Serial(c, g) && CB.InFlight(c, g) == 0
    && n <= CB.Admissions(c, g, |h|, |g|)
  }

  lemma {:induction false} AdmissionsSplit(c: CB.Config, h: seq<CB.Event>, i: nat, m: nat, j: nat)
    requires i <= m <= j <= |h|
    ensures CB.Admissions(c, h, i, j) == CB.Admissions(c, h, i, m) + CB.Admissions(c, h, m, j)
    decreases j
  {
    if m == j {
    } else {
      AdmissionsSplit(c, h, i, m, j - 1);
    }
  }

  lemma {:induction false} AdmissionsIgnoreLater(c: CB.Config, h: seq<CB.Event>, g: seq<CB.Event>, i: nat, j: nat)
    requires i <= j <= |h| <= |g| && g[..|h|] == h
    ensures CB.Admissions(c, g, i, j) == CB.Admissions(c, h, i, j)
    decreases j
  {
    if i == j {
    } else {
      AdmissionsIgnoreLater(c, h, g, i, j - 1);
      assert g[..j - 1] == h[..j - 1];
      assert g[j - 1] == h[j - 1];
    }
  }

  lemma BlocksChain(c: CB.Config, h: seq<CB.Event>, g: seq<CB.Event>, f: seq<CB.Event>, n: nat, m: nat)
    requires Block(c, h, g, n) && Block(c, g, f, m)
    ensures Block(c, h, f, n + m)
  {
    assert f[..|h|] == f[..|g|][..|h|];
    AdmissionsIgnoreLater(c, g, f, |h|, |g|);
    AdmissionsSplit(c, f, |h|, |g|, |f|);
  }

  lemma EventsChain(c: CB.Config, h: seq<CB.Event>, xs: seq<CB.Event>, ys: seq<CB.Event>, n: nat, m: nat)
    requires Block(c, h, h + xs, n) && Block(c, h + xs, h + xs + ys, m)
    ensures Block(c, h, h + (xs + ys), n + m)
  {
    Regrouped(h, xs, ys);
    BlocksChain(c, h, h + xs, h + xs + ys, n, m);
  }

  lemma Regrouped(h: seq<CB.Event>, xs: seq<CB.Event>, ys: seq<CB.Event>)
    ensures h + xs + ys == h + (xs + ys)
  {
  }

  lemma SerialAppend(c: CB.Config, h: seq<CB.Event>, e: CB.Event)
    requires CB.Serial(c, h) && CB.InFlight(c, h) == if e.Attempt? then 0 else 1
    ensures CB.Serial(c, h + [e])
    ensures CB.InFlight(c, h + [e])
            == if e.Attempt? && CB.Admits(c, CB.Replay(c, h), e.at) then 1 else 0
  {
    var g := h + [e];
    assert g[..|h|] == h;
    forall k | 0 <= k < |g| ensures CB.InFlight(c, g[..k]) == if g[k].Attempt? then 0 else 1 {
      if k < |h| {
        assert g[..k] == h[..k];
      }
    }
  }

  lemma RefusedBlock(c: CB.Config, h: seq<CB.Event>, ask: CB.Event)
    requires Block(c, h, h, 0) && ask.Attempt? && !CB.Admits(c, CB.Replay(c, h), ask.at)
    ensures Block(c, h, h + [ask], 0)
  {
    SerialAppend(c, h, ask);
  }

  lemma AdmittedBlock(c: CB.Config, h: seq<CB.Event>, ask: CB.Event, done: CB.Event)
    requires Block(c, h, h, 0) && ask.Attempt? && CB.Admits(c, CB.Replay(c, h), ask.at) && done.Done?
    ensures Block(c, h, h + [ask, done], 1)
  {
    SerialAppend(c, h, ask);
    SerialAppend(c, h + [ask], done);
    var g := h + [ask, done];
    assert h + [ask] + [done] == g;
    assert g[..|h|] == h && g[|h|] == ask;
    assert CB.Admissions(c, g, |h|, |h| + 1) == 1;
  }

  lemma AdmittedStep(c: Config, s: Resources, t: Try, h: seq<CB.Event>)
    requires c.limiter.refillRate > 0
    requires s.breaker == CB.Replay(c.breaker, h) && Block(c.breaker, h, h, 0) && Admitted(c, s, t)
    ensures var here := Here(c, s, t);
            && here.after.breaker == CB.Replay(c.breaker, h + here.events)
            && Block(c.breaker, h, h + here.events, here.calls)
            && Block(c.breaker, h + here.events, h + here.events, 0)
  {
    var here := Here(c, s, t);
    AdmittedBlock(c.breaker, h, here.events[0], here.events[1]);
    ReplayTwo(c.breaker, h, here.events[0], here.events[1]);
    Idle(c.breaker, h, h + here.events, 1);
  }

  /** The breaker sees one caller: each admitted attempt is followed by its completion, and every API call
      is one of the admitted attempts. */
  lemma {:induction false} OneCallerFrom(c: Config, s: Resources, env: seq<Try>, k: nat, w: Backoffs, h: seq<CB.Event>)
    requires Ready(c, env) && k <= c.maxRetries + 1
    requires s.breaker == CB.Replay(c.breaker, h) && Block(c.breaker, h, h, 0)
    ensures var t := ScoreFrom(c, s, env, k, w);
            Block(c.breaker, h, h + t.events, t.calls)
    decreases c.maxRetries + 1 - k
  {
    if k > c.maxRetries {
      assert h + [] == h;
    } else if !Admitted(c, s, env[k]) {
      RefusedBlock(c.breaker, h, CB.Attempt(env[k].asked));
    } else {
      var t := env[k];
      var here := Here(c, s, t);
      AdmittedStep(c, s, t, h);
      if ReturnsWith(c, s, t, k).None? {
        OneCallerFrom(c, here.after, env, k + 1, w.Next(t.reply), h + here.events);
        var rest := ScoreFrom(c, here.after, env, k + 1, w.Next(t.reply));
        EventsChain(c.breaker, h, here.events, rest.events, here.calls, rest.calls);
      }
    }
  }

  lemma Idle(c: CB.Config, h: seq<CB.Event>, g: seq<CB.Event>, n: nat)
    requires Block(c, h, g, n)
    ensures Block(c, g, g, 0)
  {
    assert g[..|g|] == g;
  }

  lemma ScoreStep(c: Config, s: Resources, env: seq<Try>, h: seq<CB.Event>)
    requires Ready(c, env)
    requires s.breaker == CB.Replay(c.breaker, h) && Block(c.breaker, h, h, 0)
    ensures var t := ScoreTrace(c, s, env);
            && t.after.breaker == CB.Replay(c.breaker, h + t.events)
            && Block(c.breaker, h, h + t.events, t.calls)
            && Block(c.breaker, h + t.events, h + t.events, 0)
  {
    var t := ScoreTrace(c, s, env);
    OneCallerFrom(c, s, env, 0, Backoffs(c.retryBackoff, 60 * SECOND), h);
    EveryCallHasItsToken(c, s, env, h);
    Idle(c.breaker, h, h + t.events, t.calls);
  }

  /** Several `Score` calls made one after the other. */
  function ScoreAll(c: Config, s: Resources, envs: seq<seq<Try>>): (r: (nat, seq<CB.Event>))
    requires c.limiter.refillRate > 0 && forall e :: e in envs ==> |e| > c.maxRetries
    decreases |envs|
  {
    if envs == [] then (0, [])
    else
      var t := ScoreTrace(c, s, envs[0]);
      var rest := ScoreAll(c, t.after, envs[1..]);
      (t.calls + rest.0, t.events + rest.1)
  }

  lemma {:induction false} OneCaller(c: Config, s: Resources, envs: seq<seq<Try>>, h: seq<CB.Event>)
    requires c.limiter.refillRate > 0 && c.maxRetries >= 0 && forall e :: e in envs ==> |e| > c.maxRetries
    requires s.breaker == CB.Replay(c.breaker, h) && Block(c.breaker, h, h, 0)
    ensures var r := ScoreAll(c, s, envs);
            Block(c.breaker, h, h + r.1, r.0)
    decreases |envs|
  {
    if envs == [] {
      assert h + [] == h;
    } else {
      var t := ScoreTrace(c, s, envs[0]);
      ScoreStep(c, s, envs[0], h);
      OneCaller(c, t.after, envs[1..], h + t.events);
      var rest := ScoreAll(c, t.after, envs[1..]);
      EventsChain(c.breaker, h, t.events, rest.1, t.calls, rest.0);
    }
  }

  /** An outage seen from the API: any number of `Score` calls made one after the other, all of whose API
      calls fail and fall into a window of length `T`, make at most `failureThreshold + T / timeout` of them,
      however often they retry and whatever state the breaker was in. */
  lemma OutageCallsBounded(
      c: Config, s: Resources, envs: seq<seq<Try>>, h: seq<CB.Event>, start: Time, end: Time)
    requires c.limiter.refillRate > 0 && c.maxRetries >= 0 && forall e :: e in envs ==> |e| > c.maxRetries
    requires c.breaker.Sane() && s.breaker == CB.Replay(c.breaker, h)
    requires CB.Serial(c.breaker, h) && CB.InFlight(c.breaker, h) == 0
    requires var events := ScoreAll(c, s, envs).1;
             && CB.Chronological(h + events) && CB.AllFail(events)
             && start <= end && forall e :: e in events ==> start <= e.at <= end
    ensures ScoreAll(c, s, envs).0 <= c.breaker.failureThreshold + (end - start) / c.breaker.timeout
  {
    var events := ScoreAll(c, s, envs).1;
    var all := h + events;
    assert h[..|h|] == h;
    OneCaller(c, s, envs, h);
    BoundedBlock(c.breaker, h, all, ScoreAll(c, s, envs).0, events, start, end);
  }

  lemma BoundedBlock(c: CB.Config, h: seq<CB.Event>, all: seq<CB.Event>, n: nat, events: seq<CB.Event>,
                     start: Time, end: Time)
    requires c.Sane() && Block(c, h, all, n) && all == h + events
    requires CB.Chronological(all) && CB.AllFail(events)
    requires start <= end && forall e :: e in events ==> start <= e.at <= end
    ensures n <= c.failureThreshold + (end - start) / c.timeout
  {
    assert all[|h|..|all|] == events;
    forall k | |h| <= k < |all| ensures start <= all[k].at <= end {
      assert all[k] == events[k - |h|];
      assert events[k - |h|] in events;
    }
    CB.OutageAdmissionsBounded(c, all, |h|, |all|, start, end);
  }
}
