/** The token bucket in front of the Gemini API.

  `Wait` has two refill paths: on entry it adds one token per elapsed interval, and when the bucket is
  empty it sleeps until the next interval and then sets the bucket to full, less its own token.  The two
  locked sections are `Enter` and `Awake`; between them other callers may run.  The clock is an argument. */
module RateLimiting {
  import Quotients

  type Time = int

  datatype Config = Config(maxTokens: int, refillRate: int) {
    predicate Sane() {
      maxTokens >= 1 && refillRate > 0
    }
  }

  datatype Bucket = Bucket(tokens: int, lastRefill: Time)

  function Min(a: int, b: int): int {
    if a < b then a else b
  }

  function Refilled(c: Config, b: Bucket, now: Time): Bucket
    requires c.refillRate > 0
  {
    var tokensToAdd := (now - b.lastRefill) / c.refillRate;
    if tokensToAdd > 0 then Bucket(Min(b.tokens + tokensToAdd, c.maxTokens), now) else b
  }

  /** The first locked section takes a token at once exactly when the refilled bucket has one. */
  predicate TakesAtOnce(c: Config, b: Bucket, now: Time)
    requires c.refillRate > 0
  {
    Refilled(c, b, now).tokens > 0
  }

  function Enter(c: Config, b: Bucket, now: Time): Bucket
    requires c.refillRate > 0
  {
    var r := Refilled(c, b, now);
    if r.tokens > 0 then r.(tokens := r.tokens - 1) else r
  }

  /** How long the caller sleeps when it found the bucket empty at `now`. */
  function Delay(c: Config, b: Bucket, now: Time): int {
    c.refillRate - (now - b.lastRefill)
  }

  /** The second locked section, after the sleep. */
  function Awake(c: Config, now: Time): Bucket {
    Bucket(c.maxTokens - 1, now)
  }

  /** One complete call: entered at `now`; if it had to sleep, it woke at `wake`, or was cancelled. */
  datatype Call = Call(now: Time, wake: Cancellable)
  datatype Cancellable = At(time: Time) | Cancelled

  predicate Timely(c: Config, b: Bucket, w: Call)
    requires c.refillRate > 0
  {
    && b.lastRefill <= w.now
    && (!TakesAtOnce(c, b, w.now) && w.wake.At? ==> w.wake.time >= w.now + Delay(c, b, w.now))
  }

  predicate Granted(c: Config, b: Bucket, w: Call)
    requires c.refillRate > 0
  {
    TakesAtOnce(c, b, w.now) || w.wake.At?
  }

  function After(c: Config, b: Bucket, w: Call): Bucket
    requires c.refillRate > 0
  {
    if !TakesAtOnce(c, b, w.now) && w.wake.At? then Awake(c, w.wake.time) else Enter(c, b, w.now)
  }

  /** When the call returns; a cancelled call returns no later than it would have woken. */
  function Finished(c: Config, b: Bucket, w: Call): Time
    requires c.refillRate > 0
  {
    if !TakesAtOnce(c, b, w.now) && w.wake.At? then w.wake.time else w.now
  }

  class RateLimiter {
    const config: Config
    var tokens: int
    var lastRefill: Time
    ghost var grants: seq<Time>

    ghost function View(): Bucket
      reads this
    {
      Bucket(tokens, lastRefill)
    }

    ghost predicate Valid()
      reads this
    {
      config.Sane() && Holds(config, View())
    }

    constructor (config: Config, now: Time)
      requires config.Sane()
      ensures Valid() && this.config == config && grants == []
      ensures View() == Bucket(config.maxTokens, now)
    {
      this.config := config;
      tokens, lastRefill, grants := config.maxTokens, now, [];
    }

    /** `wake` is when the timer fired, or the cancellation of the caller's context; it plays no part when
        a token was there at once. */
    method Wait(now: Time, wake: Cancellable) returns (granted: bool)
      requires Valid()
      modifies this
      ensures Valid()
      ensures granted == Granted(config, old(View()), Call(now, wake))
      ensures View() == After(config, old(View()), Call(now, wake))
      ensures grants == if granted then old(grants) + [Finished(config, old(View()), Call(now, wake))]
                        else old(grants)
    {
      EnterKeepsBounds(config, View(), now);
      var elapsed := now - lastRefill;
      var tokensToAdd := elapsed / config.refillRate;
      if tokensToAdd > 0 {
        tokens := Min(tokens + tokensToAdd, config.maxTokens);
        lastRefill := now;
      }
      if tokens > 0 {
        tokens := tokens - 1;
        grants := grants + [now];
        return true;
      }
      match wake {
        case Cancelled => granted := false;
        case At(time) =>
          tokens := config.maxTokens - 1;
          lastRefill := time;
          grants := grants + [time];
          granted := true;
      }
    }
  }

  // ------------------------------------------------------------------ every interleaving

  ghost predicate Holds(c: Config, b: Bucket) {
    0 <= b.tokens <= c.maxTokens
  }

  lemma EnterKeepsBounds(c: Config, b: Bucket, now: Time)
    requires c.Sane() && Holds(c, b)
    ensures Holds(c, Enter(c, b, now)) && Holds(c, Refilled(c, b, now))
  {
  }

  /** One locked section of some caller. */
  datatype Section = Entering(at: Time) | Waking(at: Time)

  function Exec(c: Config, b: Bucket, run: seq<Section>): Bucket
    requires c.refillRate > 0
  {
    if run == [] then b
    else
      var before := Exec(c, b, run[..|run| - 1]);
      match run[|run| - 1]
      case Entering(at) => Enter(c, before, at)
      case Waking(at) => Awake(c, at)
  }

  /** With any number of concurrent callers only the range of the counter survives. */
  lemma {:induction false} BucketStaysInRange(c: Config, b: Bucket, run: seq<Section>)
    requires c.Sane() && Holds(c, b)
    ensures Holds(c, Exec(c, b, run))
  {
    if run == [] {
    } else {
      BucketStaysInRange(c, b, run[..|run| - 1]);
    }
  }

  /** Grants made by the sections of a run: an entry that finds a token, and every waking. */
  function SectionGrants(c: Config, b: Bucket, run: seq<Section>): nat
    requires c.refillRate > 0
  {
    if run == [] then 0
    else
      var init := run[..|run| - 1];
      var last := run[|run| - 1];
      SectionGrants(c, b, init) + if last.Waking? || TakesAtOnce(c, Exec(c, b, init), last.at) then 1 else 0
  }

  function Repeat<T>(x: T, n: nat): (r: seq<T>)
    ensures |r| == n && forall k :: 0 <= k < n ==> r[k] == x
  {
    if n == 0 then [] else Repeat(x, n - 1) + [x]
  }

  /** Why the window bounds below need a single caller: `n` callers that find the bucket empty all wake at
      the next interval, and all `n` are granted at that one instant, however small the bucket. */
  lemma {:induction false} ConcurrentBurst(c: Config, t: Time, n: nat)
    requires c.Sane()
    ensures var b, run := Bucket(0, t), Repeat(Entering(t), n) + Repeat(Waking(t + c.refillRate), n);
            && Exec(c, b, Repeat(Entering(t), n)) == b
            && Delay(c, b, t) == c.refillRate
            && SectionGrants(c, b, run) == n
  {
    EmptyStaysEmpty(c, t, n);
    WakingsAllGranted(c, t, n, n);
  }

  lemma EmptyAtOnce(c: Config, t: Time)
    requires c.Sane()
    ensures Enter(c, Bucket(0, t), t) == Bucket(0, t) && !TakesAtOnce(c, Bucket(0, t), t)
  {
  }

  lemma {:induction false} EmptyStaysEmpty(c: Config, t: Time, n: nat)
    requires c.Sane()
    ensures Exec(c, Bucket(0, t), Repeat(Entering(t), n)) == Bucket(0, t)
    ensures SectionGrants(c, Bucket(0, t), Repeat(Entering(t), n)) == 0
  {
    if n == 0 {
    } else {
      EmptyStaysEmpty(c, t, n - 1);
      EmptyAtOnce(c, t);
      var run := Repeat(Entering(t), n);
      assert run[..|run| - 1] == Repeat(Entering(t), n - 1) && run[|run| - 1] == Entering(t);
    }
  }

  lemma {:induction false} WakingsAllGranted(c: Config, t: Time, n: nat, m: nat)
    requires c.Sane()
    ensures SectionGrants(c, Bucket(0, t), Repeat(Entering(t), n) + Repeat(Waking(t + c.refillRate), m)) == m
  {
    var run := Repeat(Entering(t), n) + Repeat(Waking(t + c.refillRate), m);
    if m == 0 {
      EmptyStaysEmpty(c, t, n);
      assert run == Repeat(Entering(t), n);
    } else {
      WakingsAllGranted(c, t, n, m - 1);
      assert run[..|run| - 1] == Repeat(Entering(t), n) + Repeat(Waking(t + c.refillRate), m - 1);
    }
  }

  // ------------------------------------------------------------------ one caller

  /** The bucket after a sequence of calls made one after the other. */
  function Serve(c: Config, b: Bucket, calls: seq<Call>): Bucket
    requires c.refillRate > 0
  {
    if calls == [] then b else After(c, Serve(c, b, calls[..|calls| - 1]), calls[|calls| - 1])
  }

  /** Each call starts after the one before it returned, and no timer fires early. */
  ghost predicate Serial(c: Config, b: Bucket, start: Time, calls: seq<Call>)
    requires c.refillRate > 0
  {
    calls == [] ||
    var init, last := calls[..|calls| - 1], calls[|calls| - 1];
    && Serial(c, b, start, init)
    && Timely(c, Serve(c, b, init), last)
    && Clock(c, b, start, init) <= last.now
  }

  /** The time at which the last of the calls returned. */
  function Clock(c: Config, b: Bucket, start: Time, calls: seq<Call>): Time
    requires c.refillRate > 0
  {
    if calls == [] then start
    else Finished(c, Serve(c, b, calls[..|calls| - 1]), calls[|calls| - 1])
  }

  /** Tokens granted at times in the closed window from `from` to `to`. */
  function GrantsIn(c: Config, b: Bucket, calls: seq<Call>, from: Time, to: Time): nat
    requires c.refillRate > 0
  {
    if calls == [] then 0
    else
      var init, last := calls[..|calls| - 1], calls[|calls| - 1];
      var before := Serve(c, b, init);
      GrantsIn(c, b, init, from, to)
      + if Granted(c, before, last) && from <= Finished(c, before, last) <= to then 1 else 0
  }

  /** The most tokens one caller can still be granted up to `to`, given the bucket at time `now`: what is
      in it, and `maxTokens` for each refill, of which the next is due a full interval after the last. */
  function Budget(c: Config, b: Bucket, now: Time, to: Time): int
    requires c.refillRate > 0
  {
    var due := if now >= b.lastRefill + c.refillRate then now else b.lastRefill + c.refillRate;
    b.tokens + if due <= to then c.maxTokens * (1 + (to - due) / c.refillRate) else 0
  }

  /** Both refill paths are at least an interval after the refill before. */
  lemma RefillsAreSpaced(c: Config, b: Bucket, w: Call)
    requires c.Sane() && Holds(c, b) && Timely(c, b, w)
    ensures After(c, b, w).lastRefill == b.lastRefill
            || After(c, b, w).lastRefill == Finished(c, b, w) >= b.lastRefill + c.refillRate
  {
    var q := (w.now - b.lastRefill) / c.refillRate;
    assert w.now - b.lastRefill == c.refillRate * q + (w.now - b.lastRefill) % c.refillRate;
    if q >= 1 {
      Quotients.AtLeastDivisor(c.refillRate, q);
    }
  }

  /** What the refills due from `due` on supply. */
  function Supply(c: Config, due: Time, to: Time): int
    requires c.refillRate > 0
  {
    if due <= to then c.maxTokens * (1 + (to - due) / c.refillRate) else 0
  }

  lemma SupplyShrinks(c: Config, due: Time, later: Time, to: Time)
    requires c.Sane() && due <= later
    ensures Supply(c, later, to) <= Supply(c, due, to)
  {
    if due <= to {
      Quotients.Monotone(0, to - due, c.refillRate);
      if later <= to {
        Quotients.Monotone(to - later, to - due, c.refillRate);
        Scale(c.maxTokens, 1 + (to - later) / c.refillRate, 1 + (to - due) / c.refillRate);
      } else {
        Scale(c.maxTokens, 0, 1 + (to - due) / c.refillRate);
      }
    }
  }

  lemma BudgetShrinks(c: Config, b: Bucket, now: Time, later: Time, to: Time)
    requires c.Sane() && now <= later
    ensures Budget(c, b, later, to) <= Budget(c, b, now, to)
  {
    var due := if now >= b.lastRefill + c.refillRate then now else b.lastRefill + c.refillRate;
    var due' := if later >= b.lastRefill + c.refillRate then later else b.lastRefill + c.refillRate;
    SupplyShrinks(c, due, due', to);
    assert Budget(c, b, now, to) == b.tokens + Supply(c, due, to);
    assert Budget(c, b, later, to) == b.tokens + Supply(c, due', to);
  }

  lemma Scale(m: int, x: int, y: int)
    requires m >= 0 && x <= y
    ensures m * x <= m * y
  {
  }

  /** A refill at time `u` pays for itself: the bucket it leaves, with the token it grants, costs no more
      than the refill the budget had set aside. */
  lemma RefillFitsBudget(c: Config, b: Bucket, now: Time, u: Time, left: int, to: Time)
    requires c.Sane() && Holds(c, b) && now <= u <= to
    requires u >= b.lastRefill + c.refillRate && left <= c.maxTokens - 1
    ensures Budget(c, Bucket(left, u), u, to) + 1 <= Budget(c, b, now, to)
  {
    var due := if now >= b.lastRefill + c.refillRate then now else b.lastRefill + c.refillRate;
    assert due <= u;
    Quotients.Monotone(to - u, to - due, c.refillRate);
    Quotients.LessDivisor(to - u, c.refillRate);
    Quotients.Monotone(0, to - u, c.refillRate);
    Scale(c.maxTokens, (to - u) / c.refillRate, (to - due) / c.refillRate);
    Distribute(c.maxTokens, (to - due) / c.refillRate);
    assert to - (u + c.refillRate) == to - u - c.refillRate;
    if u + c.refillRate <= to {
      assert Budget(c, Bucket(left, u), u, to) == left + c.maxTokens * ((to - u) / c.refillRate);
    } else {
      Scale(c.maxTokens, 0, (to - u) / c.refillRate);
    }
  }

  lemma Distribute(m: int, x: int)
    ensures m * (1 + x) == m + m * x
  {
  }

  lemma CallFitsBudget(c: Config, b: Bucket, now: Time, w: Call, to: Time)
    requires c.Sane() && Holds(c, b) && Timely(c, b, w) && now <= Finished(c, b, w) <= to
    ensures Budget(c, After(c, b, w), Finished(c, b, w), to) + (if Granted(c, b, w) then 1 else 0)
            <= Budget(c, b, now, to)
  {
    EnterKeepsBounds(c, b, w.now);
    RefillsAreSpaced(c, b, w);
    var done := Finished(c, b, w);
    if After(c, b, w).lastRefill == b.lastRefill {
      BudgetShrinks(c, b, now, done, to);
      NoRefillCase(c, b, w, to);
    } else {
      RefillFitsBudget(c, b, now, done, After(c, b, w).tokens, to);
    }
  }

  lemma NoRefillCase(c: Config, b: Bucket, w: Call, to: Time)
    requires c.Sane() && Holds(c, b) && Timely(c, b, w)
    requires After(c, b, w).lastRefill == b.lastRefill
    ensures Budget(c, After(c, b, w), Finished(c, b, w), to) + (if Granted(c, b, w) then 1 else 0)
            <= Budget(c, b, Finished(c, b, w), to)
  {
    var q := (w.now - b.lastRefill) / c.refillRate;
    assert w.now - b.lastRefill == c.refillRate * q + (w.now - b.lastRefill) % c.refillRate;
    if q >= 1 {
      Quotients.AtLeastDivisor(c.refillRate, q);
    }
  }

  /** One caller's sleep is positive and at most one interval. */
  lemma SleepAtMostOneInterval(c: Config, b: Bucket, w: Call)
    requires c.Sane() && Holds(c, b) && Timely(c, b, w)
    ensures !TakesAtOnce(c, b, w.now) ==> 0 < Delay(c, b, w.now) <= c.refillRate
    ensures w.now <= Finished(c, b, w)
  {
    var q := (w.now - b.lastRefill) / c.refillRate;
    assert w.now - b.lastRefill == c.refillRate * q + (w.now - b.lastRefill) % c.refillRate;
    if q < 1 {
      Quotients.MultiplesOrdered(c.refillRate, q, 0);
    }
  }

  lemma {:induction false} ServeStaysInRange(c: Config, b: Bucket, calls: seq<Call>)
    requires c.Sane() && Holds(c, b)
    ensures Holds(c, Serve(c, b, calls))
  {
    if calls == [] {
    } else {
      ServeStaysInRange(c, b, calls[..|calls| - 1]);
      EnterKeepsBounds(c, Serve(c, b, calls[..|calls| - 1]), calls[|calls| - 1].now);
    }
  }

  /** The bound for a window about whose beginning nothing is known. */
  function Ample(c: Config, from: Time, to: Time): int
    requires c.refillRate > 0
  {
    c.maxTokens * ((to - from) / c.refillRate + 2)
  }

  lemma AmpleBudget(c: Config, b: Bucket, from: Time, to: Time)
    requires c.Sane() && Holds(c, b) && from <= to
    ensures Budget(c, b, from, to) <= Ample(c, from, to)
    ensures 0 <= Budget(c, b, from, to)
  {
    var due := if from >= b.lastRefill + c.refillRate then from else b.lastRefill + c.refillRate;
    Quotients.Monotone(0, to - from, c.refillRate);
    Distribute(c.maxTokens, 1 + (to - from) / c.refillRate);
    Scale(c.maxTokens, 0, 1 + (to - from) / c.refillRate);
    if due <= to {
      Quotients.Monotone(to - due, to - from, c.refillRate);
      Quotients.Monotone(0, to - due, c.refillRate);
      Scale(c.maxTokens, 1 + (to - due) / c.refillRate, 1 + (to - from) / c.refillRate);
      Scale(c.maxTokens, 0, 1 + (to - due) / c.refillRate);
    }
  }

  function Max(a: int, b: int): int {
    if a < b then b else a
  }

  /** Granted so far in the window plus what is still possible does not exceed `cap`. */
  ghost predicate WithinCap(c: Config, b: Bucket, start: Time, calls: seq<Call>, from: Time, to: Time, cap: int)
    requires c.Sane()
  {
    var clock, grants := Clock(c, b, start, calls), GrantsIn(c, b, calls, from, to);
    && grants <= cap
    && (clock < from ==> grants == 0)
    && (clock <= to ==> grants + Budget(c, Serve(c, b, calls), Max(from, clock), to) <= cap)
  }

  lemma {:induction false} CallKeepsCap(
      c: Config, b: Bucket, start: Time, calls: seq<Call>, from: Time, to: Time, cap: int)
    requires c.Sane() && Holds(c, b) && Serial(c, b, start, calls) && from <= to && calls != []
    requires Clock(c, b, start, calls) >= from
    requires WithinCap(c, b, start, calls[..|calls| - 1], from, to, cap)
    ensures WithinCap(c, b, start, calls, from, to, cap)
  {
    var init, last := calls[..|calls| - 1], calls[|calls| - 1];
    var before := Serve(c, b, init);
    ServeStaysInRange(c, b, init);
    ServeStaysInRange(c, b, calls);
    SleepAtMostOneInterval(c, before, last);
    var clock := Finished(c, before, last);
    if clock <= to {
      CallFitsBudget(c, before, Max(from, Clock(c, b, start, init)), last, to);
      AmpleBudget(c, Serve(c, b, calls), clock, to);
    }
  }

  lemma BeforeTheWindow(c: Config, b: Bucket, start: Time, calls: seq<Call>, from: Time, to: Time, cap: int)
    requires c.Sane() && Holds(c, b) && Serial(c, b, start, calls) && from <= to && 0 <= cap
    requires calls == [] || Clock(c, b, start, calls) < from
    requires Ample(c, from, to) <= cap || (calls == [] && from == start && Budget(c, b, start, to) <= cap)
    ensures WithinCap(c, b, start, calls, from, to, cap)
  {
    var now := Serve(c, b, calls);
    ServeStaysInRange(c, b, calls);
    AmpleBudget(c, now, from, to);
    if Ample(c, from, to) <= cap {
      assert Budget(c, now, from, to) <= cap;
      if Clock(c, b, start, calls) >= from {
        BudgetShrinks(c, now, from, Clock(c, b, start, calls), to);
      }
    }
    if calls != [] {
      NothingGrantedYet(c, b, start, calls, from, to);
    }
  }

  lemma {:induction false} GrantsFitBudget(
      c: Config, b: Bucket, start: Time, calls: seq<Call>, from: Time, to: Time, cap: int)
    requires c.Sane() && Holds(c, b) && Serial(c, b, start, calls) && from <= to && 0 <= cap
    requires Ample(c, from, to) <= cap || (from == start && Budget(c, b, start, to) <= cap)
    ensures WithinCap(c, b, start, calls, from, to, cap)
  {
    ClockStartsLate(c, b, start, calls);
    if calls == [] || Clock(c, b, start, calls) < from {
      BeforeTheWindow(c, b, start, calls, from, to, cap);
    } else {
      GrantsFitBudget(c, b, start, calls[..|calls| - 1], from, to, cap);
      CallKeepsCap(c, b, start, calls, from, to, cap);
    }
  }

  lemma {:induction false} NothingGrantedYet(
      c: Config, b: Bucket, start: Time, calls: seq<Call>, from: Time, to: Time)
    requires c.Sane() && Holds(c, b) && Serial(c, b, start, calls)
    requires Clock(c, b, start, calls) < from
    ensures GrantsIn(c, b, calls, from, to) == 0
  {
    if calls == [] {
    } else {
      var init, last := calls[..|calls| - 1], calls[|calls| - 1];
      ServeStaysInRange(c, b, init);
      SleepAtMostOneInterval(c, Serve(c, b, init), last);
      NothingGrantedYet(c, b, start, init, from, to);
    }
  }

  lemma {:induction false} ClockStartsLate(c: Config, b: Bucket, start: Time, calls: seq<Call>)
    requires c.Sane() && Holds(c, b) && Serial(c, b, start, calls)
    ensures start <= Clock(c, b, start, calls)
  {
    if calls == [] {
    } else {
      var init, last := calls[..|calls| - 1], calls[|calls| - 1];
      ClockStartsLate(c, b, start, init);
      ServeStaysInRange(c, b, init);
      SleepAtMostOneInterval(c, Serve(c, b, init), last);
    }
  }

  /** One caller is granted at most `maxTokens * (T / refillRate + 2)` tokens in any window of length `T`,
      whatever happened before the window and whether or not a call was asleep when it began. */
  lemma WindowGrantsBounded(c: Config, b: Bucket, start: Time, calls: seq<Call>, from: Time, to: Time)
    requires c.Sane() && Holds(c, b) && Serial(c, b, start, calls) && from <= to
    ensures GrantsIn(c, b, calls, from, to) <= c.maxTokens * ((to - from) / c.refillRate + 2)
  {
    AmpleBudget(c, b, from, to);
    GrantsFitBudget(c, b, start, calls, from, to, Ample(c, from, to));
  }

  /** From its construction at `start` up to time `start + t` one caller is granted at most
      `maxTokens * (t / refillRate + 1)` tokens. */
  lemma GrantsSinceConstructionBounded(c: Config, start: Time, t: nat, calls: seq<Call>)
    requires c.Sane() && Serial(c, Bucket(c.maxTokens, start), start, calls)
    ensures GrantsIn(c, Bucket(c.maxTokens, start), calls, start, start + t)
            <= c.maxTokens * (t / c.refillRate + 1)
  {
    var full := Bucket(c.maxTokens, start);
    var cap := c.maxTokens * (t / c.refillRate + 1);
    Quotients.LessDivisor(t, c.refillRate);
    Quotients.Monotone(0, t, c.refillRate);
    Distribute(c.maxTokens, t / c.refillRate);
    Scale(c.maxTokens, 0, t / c.refillRate);
    assert start + t - (start + c.refillRate) == t - c.refillRate;
    assert 1 + (t - c.refillRate) / c.refillRate == t / c.refillRate;
    GrantsFitBudget(c, full, start, calls, start, start + t, cap);
  }
}
