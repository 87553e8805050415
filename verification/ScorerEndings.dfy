/** How a call of `Score` ends, told by what the environment does: which attempt is the last, and what comes back. */
module ScoringEndings {
  import opened Scoring
  import opened Model
  import CB = CircuitBreaking
  import RL = RateLimiting
  import opened ScoringTheorems

  /** The resources before attempt `n`, if `Score` gets that far. */
  function StateAt(c: Config, s: Resources, env: seq<Try>, k: nat, n: nat): Resources
    requires c.limiter.refillRate > 0 && k <= n <= |env|
    decreases n - k
  {
    if k == n then s else StateAt(c, AfterAttempt(c, s, env[k]), env, k + 1, n)
  }

  /** Attempts `k` up to `n` are retried. */
  predicate RetriedUpTo(c: Config, s: Resources, env: seq<Try>, k: nat, n: nat)
    requires c.limiter.refillRate > 0 && k <= n <= |env|
    decreases n - k
  {
    k == n || (Retried(c, s, env[k]) && RetriedUpTo(c, AfterAttempt(c, s, env[k]), env, k + 1, n))
  }

  lemma {:induction false} RetriedAt(c: Config, s: Resources, env: seq<Try>, k: nat, m: nat, n: nat)
    requires c.limiter.refillRate > 0 && k <= m < n <= |env| && RetriedUpTo(c, s, env, k, n)
    ensures Retried(c, StateAt(c, s, env, k, m), env[m])
    decreases m - k
  {
    if k == m {
    } else {
      RetriedAt(c, AfterAttempt(c, s, env[k]), env, k + 1, m, n);
    }
  }

  /** What comes back from an attempt that is not retried; `last` if none is left. */
  predicate EndsAs(c: Config, s: Resources, t: Try, last: bool, r: Result)
    requires c.limiter.refillRate > 0
  {
    if !CB.Admits(c.breaker, s.breaker, t.asked) then r == Fails(CircuitOpen)
    else if !(RL.Granted(c.limiter, s.bucket, t.wait) && t.slot) then r == Fails(ContextDone)
    else match t.reply
      case Verdict(flag) => r == Scored(flag)
      case OtherError => if last then r == Fails(Transient) else t.resumed.Cancelled? && r == Fails(ContextDone)
      case HttpError(status, body) =>
        if last || (400 <= status < 500 && status != 429) then r == Fails(Http(status, body))
        else if status == 429 && Exhausted(body) then r == Fails(DailyQuota)
        else t.resumed.Cancelled? && r == Fails(ContextDone)
  }

  /** `Score` from attempt `k` on ends with attempt `n`. */
  ghost predicate EndsAt(c: Config, s: Resources, env: seq<Try>, k: nat, n: nat, t: Trace)
    requires Ready(c, env) && k <= n <= c.maxRetries
  {
    var here := StateAt(c, s, env, k, n);
    && RetriedUpTo(c, s, env, k, n) && (n < c.maxRetries ==> !Retried(c, here, env[n]))
    && EndsAs(c, here, env[n], n == c.maxRetries, t.result)
    && t.calls == (n - k) + (if CallsApi(c, here, env[n]) then 1 else 0) && |t.sleeps| == n - k
    && t.after == AfterAttempt(c, here, env[n])
  }

  lemma EndsHere(c: Config, s: Resources, env: seq<Try>, k: nat, w: Backoffs)
    requires Ready(c, env) && k <= c.maxRetries && (Retried(c, s, env[k]) ==> k == c.maxRetries)
    ensures EndsAt(c, s, env, k, k, ScoreFrom(c, s, env, k, w))
  {
  }

  lemma GoesOn(c: Config, s: Resources, env: seq<Try>, k: nat, w: Backoffs)
    requires Ready(c, env) && k < c.maxRetries && Retried(c, s, env[k])
    ensures var t := ScoreFrom(c, s, env, k, w);
            var rest := ScoreFrom(c, AfterAttempt(c, s, env[k]), env, k + 1, w.Next(env[k].reply));
            && t.result == rest.result && t.after == rest.after && t.calls == 1 + rest.calls
            && |t.sleeps| == 1 + |rest.sleeps|
  {
  }

  lemma {:induction false} EndFrom(c: Config, s: Resources, env: seq<Try>, k: nat, w: Backoffs) returns (n: nat)
    requires Ready(c, env) && k <= c.maxRetries
    ensures k <= n <= c.maxRetries && EndsAt(c, s, env, k, n, ScoreFrom(c, s, env, k, w))
    decreases c.maxRetries - k
  {
    if k < c.maxRetries && Retried(c, s, env[k]) {
      GoesOn(c, s, env, k, w);
      n := EndFrom(c, AfterAttempt(c, s, env[k]), env, k + 1, w.Next(env[k].reply));
    } else {
      n := k;
      EndsHere(c, s, env, k, w);
    }
  }

  /** The whole of `Score`, whatever the environment does: it ends with the first attempt that the environment does not
      have it retry, or the last one it has, and the result is what that attempt meets with. */
  lemma ScoreEnds(c: Config, s: Resources, env: seq<Try>) returns (n: nat)
    requires Ready(c, env)
    ensures n <= c.maxRetries && EndsAt(c, s, env, 0, n, ScoreTrace(c, s, env))
  {
    n := EndFrom(c, s, env, 0, Backoffs(c.retryBackoff, 60 * SECOND));
  }

  lemma EndIsUnique(c: Config, s: Resources, env: seq<Try>, n: nat, m: nat)
    requires Ready(c, env) && n <= c.maxRetries && m <= c.maxRetries
    requires RetriedUpTo(c, s, env, 0, n) && !Retried(c, StateAt(c, s, env, 0, n), env[n])
    requires EndsAt(c, s, env, 0, m, ScoreTrace(c, s, env))
    ensures n == m
  {
    if m < n {
      RetriedAt(c, s, env, 0, m, n);
    } else if n < m {
      RetriedAt(c, s, env, 0, n, m);
    }
  }

  /** Attempts before `n` are retried, and attempt `n` reaches the API and is answered with `reply`. */
  ghost predicate AnsweredAt(c: Config, s: Resources, env: seq<Try>, n: nat, reply: Reply)
    requires Ready(c, env) && n <= c.maxRetries
  {
    && RetriedUpTo(c, s, env, 0, n) && CallsApi(c, StateAt(c, s, env, 0, n), env[n])
    && env[n].reply == reply
  }

  ghost predicate AnsweredBy(c: Config, s: Resources, env: seq<Try>, reply: Reply)
    requires Ready(c, env)
  {
    exists n :: 0 <= n <= c.maxRetries && AnsweredAt(c, s, env, n, reply)
  }

  /** `Score` returns a verdict exactly if the API gives that verdict in answer to an attempt that comes after retried
      ones only. */
  lemma ScoredIff(c: Config, s: Resources, env: seq<Try>, flag: bool)
    requires Ready(c, env)
    ensures ScoreTrace(c, s, env).result == Scored(flag) <==> AnsweredBy(c, s, env, Verdict(flag))
  {
    var m := ScoreEnds(c, s, env);
    if ScoreTrace(c, s, env).result == Scored(flag) {
      assert AnsweredAt(c, s, env, m, Verdict(flag));
    }
    if n :| 0 <= n <= c.maxRetries && AnsweredAt(c, s, env, n, Verdict(flag)) {
      EndIsUnique(c, s, env, n, m);
    }
  }

  /** An attempt answered with a status from 400 to 499 other than 429 is the last, and its status and body come back.
      A closed breaker opens at once if the status is 401, 403 or 404, and else only with the last failure it bears. */
  lemma PermanentErrorEndsScore(c: Config, s: Resources, env: seq<Try>, n: nat, status: int, body: string)
    requires Ready(c, env) && n <= c.maxRetries && AnsweredAt(c, s, env, n, HttpError(status, body))
    requires 400 <= status < 500 && status != 429
    ensures var t, b := ScoreTrace(c, s, env), StateAt(c, s, env, 0, n).breaker;
            && t.result == Fails(Http(status, body)) && t.calls == n + 1 && |t.sleeps| == n
            && (b.mode == CB.Closed ==>
                  (t.after.breaker.mode == CB.Open
                   <==> status in {401, 403, 404} || b.failures + 1 >= c.breaker.failureThreshold))
            && (b.mode != CB.Closed ==> t.after.breaker.mode == CB.Open)
  {
    var m := ScoreEnds(c, s, env);
    EndIsUnique(c, s, env, n, m);
  }

  /** The texts that tell a spent quota. */
  lemma ExhaustedIff(body: string)
    ensures Exhausted(body)
            <==> exists before, text, after :: Wraps(body, before, text, after)
                   && text in {"RESOURCE_EXHAUSTED", "quota exceeded", "Quota exceeded", "daily quota", "Daily quota"}
  {
    ContainsIff(body, "RESOURCE_EXHAUSTED");
    ContainsIff(body, "quota exceeded");
    ContainsIff(body, "Quota exceeded");
    ContainsIff(body, "daily quota");
    ContainsIff(body, "Daily quota");
  }
}
