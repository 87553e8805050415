/** The scorer's retry loop: circuit breaker around rate limiter, semaphore and API call, with two
  independent back-off schedules.  What the environment decides (clock readings, cancellations, the API's
  replies) is a sequence with one `Try` per attempt; every theorem is over all such sequences. */
module Scoring {
  import opened Model
  import CB = CircuitBreaking
  import RL = RateLimiting

  type Time = int

  const SECOND := 1_000_000_000
  const SLOTS := 10

  datatype Config = Config(breaker: CB.Config, limiter: RL.Config, maxRetries: int, retryBackoff: int)

  datatype Reply = Verdict(flag: bool) | HttpError(status: int, body: string) | OtherError

  datatype ScoreError =
    | CircuitOpen
    | ContextDone
    | Http(status: int, body: string)
    | Transient
    | DailyQuota
    | MaxRetriesExceeded

  datatype Result = Scored(flag: bool) | Fails(error: ScoreError)

  /** One attempt as the environment plays it.  `slot` is false if the context ended while the semaphore was
      full; `resumed` is when the back-off sleep ended, or its cancellation. */
  datatype Try = Try(
    asked: Time,
    wait: RL.Call,
    slot: bool,
    reply: Reply,
    finished: Time,
    resumed: RL.Cancellable)

  /** The three shared resources. */
  datatype Resources = Resources(breaker: CB.Core, bucket: RL.Bucket, inUse: nat)

  predicate Critical(e: ScoreError) {
    e.Http? && (e.status == 401 || e.status == 404 || e.status == 403)
  }

  predicate Permanent(e: ScoreError) {
    e.Http? && 400 <= e.status < 500 && e.status != 429
  }

  /** The texts by which a spent daily quota is told from a burst limit; both come as status 429. */
  predicate Exhausted(body: string) {
    || Contains(body, "RESOURCE_EXHAUSTED")
    || Contains(body, "quota exceeded")
    || Contains(body, "Quota exceeded")
    || Contains(body, "daily quota")
    || Contains(body, "Daily quota")
  }

  predicate IsRateLimit(r: Reply) {
    r.HttpError? && r.status == 429
  }

  predicate SpentQuota(r: Reply) {
    IsRateLimit(r) && Exhausted(r.body)
  }

  function Outcome(r: Reply): Result {
    match r
    case Verdict(flag) => Scored(flag)
    case HttpError(status, body) => Fails(Http(status, body))
    case OtherError => Fails(Transient)
  }

  /** Whether the guarded body gets as far as the API. */
  predicate ReachesApi(c: Config, s: Resources, t: Try)
    requires c.limiter.refillRate > 0
  {
    RL.Granted(c.limiter, s.bucket, t.wait) && t.slot
  }

  /** The result of the guarded body. */
  function BodyResult(c: Config, s: Resources, t: Try): Result
    requires c.limiter.refillRate > 0
  {
    if ReachesApi(c, s, t) then Outcome(t.reply) else Fails(ContextDone)
  }

  predicate Admitted(c: Config, s: Resources, t: Try) {
    CB.Admits(c.breaker, s.breaker, t.asked)
  }

  /** The completion the breaker is told of. */
  function Report(r: Result, at: Time): CB.Event {
    CB.Done(r.Fails?, r.Fails? && Critical(r.error), at)
  }

  /** The resources after one attempt; the semaphore slot is given back when the body returns. */
  function AfterAttempt(c: Config, s: Resources, t: Try): Resources
    requires c.limiter.refillRate > 0
  {
    var b := CB.Attempted(c.breaker, s.breaker, t.asked);
    if !Admitted(c, s, t) then s.(breaker := b)
    else Resources(CB.Next(c.breaker, b, Report(BodyResult(c, s, t), t.finished)),
                   RL.After(c.limiter, s.bucket, t.wait),
                   s.inUse)
  }

  /** What one call of `Score` did: its result, the resources it left, the API calls it made, the back-off
      sleeps it completed, and what it asked of the limiter and of the breaker. */
  datatype Trace = Trace(
    result: Result,
    after: Resources,
    calls: nat,
    sleeps: seq<int>,
    waits: seq<RL.Call>,
    events: seq<CB.Event>)

  /** An admitted attempt taken by itself. */
  function Here(c: Config, s: Resources, t: Try): Trace
    requires c.limiter.refillRate > 0
  {
    var r := BodyResult(c, s, t);
    Trace(r, AfterAttempt(c, s, t), if ReachesApi(c, s, t) then 1 else 0, [], [t.wait],
          [CB.Attempt(t.asked), Report(r, t.finished)])
  }

  /** The result with which `Score` returns from admitted attempt `k`, or `None` if it sleeps and retries. */
  function ReturnsWith(c: Config, s: Resources, t: Try, k: nat): Option<Result>
    requires c.limiter.refillRate > 0
  {
    var r := BodyResult(c, s, t);
    if r.Scored? || r.error == ContextDone || Permanent(r.error) || k >= c.maxRetries then Some(r)
    else if SpentQuota(t.reply) then Some(Fails(DailyQuota))
    else if t.resumed.Cancelled? then Some(Fails(ContextDone))
    else None
  }

  /** The two back-offs: which one is slept, and how they change. */
  datatype Backoffs = Backoffs(other: int, rate: int) {
    function Delay(r: Reply): int {
      if IsRateLimit(r) then rate else other
    }

    function Next(r: Reply): Backoffs {
      if IsRateLimit(r) then Backoffs(other, RL.Min(2 * rate, 300 * SECOND)) else Backoffs(2 * other, rate)
    }
  }

  /** `Score` from attempt `k` on, with the two back-offs as they then stand. */
  function ScoreFrom(c: Config, s: Resources, env: seq<Try>, k: nat, w: Backoffs): Trace
    requires c.limiter.refillRate > 0 && |env| > c.maxRetries
    decreases |env| - k
  {
    if k > c.maxRetries then Trace(Fails(MaxRetriesExceeded), s, 0, [], [], [])
    else
      var t := env[k];
      if !Admitted(c, s, t) then Trace(Fails(CircuitOpen), AfterAttempt(c, s, t), 0, [], [], [CB.Attempt(t.asked)])
      else
        var here := Here(c, s, t);
        match ReturnsWith(c, s, t, k)
        case Some(result) => here.(result := result)
        case None => Then(here, w.Delay(t.reply), ScoreFrom(c, here.after, env, k + 1, w.Next(t.reply)))
  }

  /** One attempt, a completed sleep, and the rest. */
  function Then(here: Trace, delay: int, rest: Trace): Trace {
    Trace(rest.result, rest.after, here.calls + rest.calls, [delay] + rest.sleeps,
          here.waits + rest.waits, here.events + rest.events)
  }

  /** `Score` as a function of the resources and of what the environment does. */
  function ScoreTrace(c: Config, s: Resources, env: seq<Try>): Trace
    requires c.limiter.refillRate > 0 && |env| > c.maxRetries
  {
    ScoreFrom(c, s, env, 0, Backoffs(c.retryBackoff, 60 * SECOND))
  }

  class GeminiScorer {
    const config: Config
    const breaker: CB.CircuitBreaker
    const limiter: RL.RateLimiter
    var inUse: nat
    var criteria: Criteria

    ghost predicate Valid()
      reads this, breaker, limiter
    {
      && breaker.Valid() && limiter.Valid()
      && breaker.config == config.breaker && limiter.config == config.limiter
      && inUse < SLOTS
    }

    ghost function View(): Resources
      reads this, breaker, limiter
    {
      Resources(breaker.View(), limiter.View(), inUse)
    }

    constructor (config: Config, now: Time)
      requires config.limiter.Sane()
      ensures Valid() && fresh(breaker) && fresh(limiter)
      ensures this.config == config && criteria == DEFAULT_CRITERIA
      ensures View() == Resources(CB.FRESH, RL.Bucket(config.limiter.maxTokens, now), 0)
    {
      this.config := config;
      breaker := new CB.CircuitBreaker(config.breaker);
      limiter := new RL.RateLimiter(config.limiter, now);
      inUse := 0;
      criteria := DEFAULT_CRITERIA;
    }

    /** A missing criteria leaves the one in force. */
    method SetCriteria(wanted: Option<Criteria>)
      modifies this`criteria
      ensures criteria == match wanted { case Some(it) => it case None => old(criteria) }
    {
      if wanted.Some? {
        criteria := wanted.value;
      }
    }

    /** One attempt behind the breaker.  `None` means that the breaker refused it. */
    method CallWithCriticalError(t: Try) returns (outcome: Option<Result>, called: bool)
      requires Valid()
      modifies this`inUse, breaker, limiter
      ensures Valid()
      ensures View() == AfterAttempt(config, old(View()), t)
      ensures outcome.Some? == Admitted(config, old(View()), t)
      ensures outcome.Some? ==> outcome.value == BodyResult(config, old(View()), t)
      ensures called == (outcome.Some? && ReachesApi(config, old(View()), t))
      ensures breaker.history == old(breaker.history)
              + (if outcome.Some? then [CB.Attempt(t.asked), Report(outcome.value, t.finished)]
                 else [CB.Attempt(t.asked)])
    {
      called := false;
      var admitted := breaker.BeforeCall(t.asked);
      if !admitted {
        return None, false;
      }
      var result := Fails(ContextDone);
      var granted := limiter.Wait(t.wait.now, t.wait.wake);
      assert RL.Call(t.wait.now, t.wait.wake) == t.wait;
      if granted && t.slot {
        inUse := inUse + 1;
        called := true;
        result := Outcome(t.reply);
        inUse := inUse - 1;
      }
      breaker.AfterCall(result.Fails?, result.Fails? && Critical(result.error), t.finished);
      outcome := Some(result);
    }

    /** `prompted` is the criteria the prompt was built with; the ghost result is what was done. */
    method Score(env: seq<Try>) returns (result: Result, calls: nat, prompted: Criteria, ghost trace: Trace)
      requires Valid() && |env| > config.maxRetries
      modifies this`inUse, breaker, limiter
      ensures Valid() && prompted == old(criteria)
      ensures trace == ScoreTrace(config, old(View()), env)
      ensures result == trace.result && calls == trace.calls
      ensures View() == trace.after
      ensures breaker.history == old(breaker.history) + trace.events
    {
      prompted := criteria;
      trace := ScoreTrace(config, View(), env);
      ghost var past := Past(0, [], [], []);
      var backoff := config.retryBackoff;
      var rateLimitBackoff := 60 * SECOND;
      calls := 0;
      var attempt := 0;
      Beginning(trace);
      while attempt <= config.maxRetries
        invariant 0 <= attempt && Valid() && calls == past.calls
        invariant breaker.history == old(breaker.history) + past.events
        invariant trace == Resumed(past, ScoreFrom(config, View(), env, attempt, Backoffs(backoff, rateLimitBackoff)))
        decreases config.maxRetries - attempt
      {
        var t := env[attempt];
        ghost var before, w := View(), Backoffs(backoff, rateLimitBackoff);
        var outcome, called := CallWithCriticalError(t);
        calls := calls + if called then 1 else 0;
        if outcome.None? {
          return Fails(CircuitOpen), calls, prompted, trace;
        }
        result := outcome.value;
        ghost var here := Here(config, before, t);
        Recorded(old(breaker.history), past, here);
        assert result == BodyResult(config, before, t) && View() == here.after;
        if result.Scored? || result.error == ContextDone || Permanent(result.error) || attempt >= config.maxRetries {
          Returns(config, before, env, attempt, w, result);
          return;
        }
        var retryDelay := backoff;
        if IsRateLimit(t.reply) {
          if Exhausted(t.reply.body) {
            Returns(config, before, env, attempt, w, Fails(DailyQuota));
            return Fails(DailyQuota), calls, prompted, trace;
          }
          retryDelay := rateLimitBackoff;
          rateLimitBackoff := RL.Min(2 * rateLimitBackoff, 300 * SECOND);
        } else {
          backoff := 2 * backoff;
        }
        if t.resumed.Cancelled? {
          Returns(config, before, env, attempt, w, Fails(ContextDone));
          return Fails(ContextDone), calls, prompted, trace;
        }
        Retries(config, before, env, attempt, w);
        ghost var rest := ScoreFrom(config, here.after, env, attempt + 1, w.Next(t.reply));
        Continued(past, here, retryDelay, rest);
        past := Extended(past, here, retryDelay);
        attempt := attempt + 1;
      }
      result := Fails(MaxRetriesExceeded);
    }
  }

  /** What the attempts before the current one did. */
  datatype Past = Past(calls: nat, sleeps: seq<int>, waits: seq<RL.Call>, events: seq<CB.Event>)

  function Resumed(p: Past, rest: Trace): Trace {
    rest.(calls := p.calls + rest.calls, sleeps := p.sleeps + rest.sleeps,
          waits := p.waits + rest.waits, events := p.events + rest.events)
  }

  function Extended(p: Past, here: Trace, delay: int): Past {
    Past(p.calls + here.calls, p.sleeps + [delay], p.waits + here.waits, p.events + here.events)
  }

  lemma Returns(c: Config, s: Resources, env: seq<Try>, k: nat, w: Backoffs, r: Result)
    requires c.limiter.refillRate > 0 && |env| > c.maxRetries && k <= c.maxRetries && Admitted(c, s, env[k])
    requires ReturnsWith(c, s, env[k], k) == Some(r)
    ensures ScoreFrom(c, s, env, k, w) == Here(c, s, env[k]).(result := r)
  {
  }

  lemma Retries(c: Config, s: Resources, env: seq<Try>, k: nat, w: Backoffs)
    requires c.limiter.refillRate > 0 && |env| > c.maxRetries && k <= c.maxRetries && Admitted(c, s, env[k])
    requires ReturnsWith(c, s, env[k], k) == None
    ensures var t, here := env[k], Here(c, s, env[k]);
            ScoreFrom(c, s, env, k, w)
            == Then(here, w.Delay(t.reply), ScoreFrom(c, here.after, env, k + 1, w.Next(t.reply)))
  {
  }

  lemma Beginning(t: Trace)
    ensures Resumed(Past(0, [], [], []), t) == t
  {
  }

  lemma Continued(p: Past, here: Trace, delay: int, rest: Trace)
    ensures Resumed(p, Then(here, delay, rest)) == Resumed(Extended(p, here, delay), rest)
  {
  }

  lemma Recorded(history: seq<CB.Event>, p: Past, here: Trace)
    ensures history + p.events + here.events == history + (p.events + here.events)
  {
  }
}
