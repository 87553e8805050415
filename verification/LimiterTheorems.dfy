/** When one caller of the rate limiter sleeps and when not: exactly how many calls go through at once after a sleep,
  after a refill on entry, and after construction. */
module LimiterTheorems {
  import opened RateLimiting
  import Quotients

  /** `q` whole intervals lie between the last refill and `at`. */
  predicate Intervals(c: Config, b: Bucket, at: Time, q: int) {
    c.refillRate * q <= at - b.lastRefill < c.refillRate * q + c.refillRate
  }

  /** The tokens a caller finds after `q` intervals. */
  predicate Finds(c: Config, b: Bucket, q: int, tokens: int) {
    tokens == if q >= 1 then (if b.tokens + q > c.maxTokens then c.maxTokens else b.tokens + q) else b.tokens
  }

  lemma FoundOnEntry(c: Config, b: Bucket, at: Time, q: int, n: int)
    requires c.Sane() && Holds(c, b) && b.lastRefill <= at && Intervals(c, b, at, q) && Finds(c, b, q, n)
    ensures Refilled(c, b, at) == Bucket(n, if q >= 1 then at else b.lastRefill)
  {
    Quotients.Unique(at - b.lastRefill, c.refillRate, q, at - b.lastRefill - c.refillRate * q);
  }

  /** Within an interval of the last refill nothing is added. */
  lemma NothingAdded(c: Config, b: Bucket, at: Time)
    requires c.Sane() && b.lastRefill <= at < b.lastRefill + c.refillRate
    ensures Refilled(c, b, at) == b
  {
    Quotients.Unique(at - b.lastRefill, c.refillRate, 0, at - b.lastRefill);
  }

  /** All enter less than an interval after `refill`. */
  ghost predicate EnterWithin(c: Config, calls: seq<Call>, refill: Time) {
    forall i :: 0 <= i < |calls| ==> refill <= calls[i].now < refill + c.refillRate
  }

  lemma {:induction false} TokensLeft(c: Config, b: Bucket, q: int, n: int, calls: seq<Call>, i: nat)
    requires c.Sane() && Holds(c, b) && calls != [] && b.lastRefill <= calls[0].now
    requires Intervals(c, b, calls[0].now, q) && Finds(c, b, q, n)
    requires EnterWithin(c, calls, if q >= 1 then calls[0].now else b.lastRefill)
    requires i <= |calls| && i <= n
    ensures Serve(c, b, calls[..i])
            == if i == 0 then b else Bucket(n - i, if q >= 1 then calls[0].now else b.lastRefill)
  {
    if i == 0 {
    } else {
      TokensLeft(c, b, q, n, calls, i - 1);
      assert calls[..i][..i - 1] == calls[..i - 1];
      if i == 1 {
        FoundOnEntry(c, b, calls[0].now, q, n);
      } else {
        NothingAdded(c, Serve(c, b, calls[..i - 1]), calls[i - 1].now);
      }
    }
  }

  /** Calls made one after the other, the first of them `q` whole intervals after the last refill, and all less than
      an interval after the refill that the first one makes or finds: exactly the first `n` go through without a
      sleep, where `n` is what the first one finds. */
  lemma AtOnceExactly(c: Config, b: Bucket, q: int, n: int, calls: seq<Call>, i: nat)
    requires c.Sane() && Holds(c, b) && calls != [] && b.lastRefill <= calls[0].now
    requires Intervals(c, b, calls[0].now, q) && Finds(c, b, q, n)
    requires EnterWithin(c, calls, if q >= 1 then calls[0].now else b.lastRefill)
    requires i < |calls| && i <= n
    ensures TakesAtOnce(c, Serve(c, b, calls[..i]), calls[i].now) <==> i < n
  {
    TokensLeft(c, b, q, n, calls, i);
    if i == 0 {
      FoundOnEntry(c, b, calls[0].now, q, n);
    } else {
      NothingAdded(c, Serve(c, b, calls[..i]), calls[i].now);
    }
  }

  lemma NoInterval(c: Config, b: Bucket, at: Time)
    requires c.Sane() && b.lastRefill <= at < b.lastRefill + c.refillRate
    ensures Intervals(c, b, at, 0) && Finds(c, b, 0, b.tokens)
  {
  }

  /** A call that sleeps and wakes at `t` leaves `maxTokens - 1` tokens: of the calls that enter before the next
      interval is over exactly so many go through at once, and the one after them sleeps. */
  lemma AfterSleep(c: Config, b: Bucket, w: Call, calls: seq<Call>, i: nat)
    requires c.Sane() && Holds(c, b) && Timely(c, b, w) && !TakesAtOnce(c, b, w.now) && w.wake.At?
    requires EnterWithin(c, calls, w.wake.time) && i < |calls| && i < c.maxTokens
    ensures TakesAtOnce(c, Serve(c, After(c, b, w), calls[..i]), calls[i].now) <==> i < c.maxTokens - 1
  {
    var full := After(c, b, w);
    NoInterval(c, full, calls[0].now);
    AtOnceExactly(c, full, 0, full.tokens, calls, i);
  }

  /** From construction at `start` the first `maxTokens` calls of the first interval go through at once, and the next
      one sleeps. */
  lemma SinceConstruction(c: Config, start: Time, calls: seq<Call>, i: nat)
    requires c.Sane() && EnterWithin(c, calls, start) && i < |calls| && i <= c.maxTokens
    ensures TakesAtOnce(c, Serve(c, Bucket(c.maxTokens, start), calls[..i]), calls[i].now) <==> i < c.maxTokens
  {
    var full := Bucket(c.maxTokens, start);
    NoInterval(c, full, calls[0].now);
    AtOnceExactly(c, full, 0, c.maxTokens, calls, i);
  }

  /** A call sleeps exactly if the bucket is empty and less than an interval has passed since the last refill; it then
      sleeps until the interval is over. */
  lemma SleepsExactly(c: Config, b: Bucket, w: Call)
    requires c.Sane() && Holds(c, b) && b.lastRefill <= w.now
    ensures !TakesAtOnce(c, b, w.now) <==> b.tokens == 0 && w.now < b.lastRefill + c.refillRate
    ensures w.now + Delay(c, b, w.now) == b.lastRefill + c.refillRate
  {
    if w.now < b.lastRefill + c.refillRate {
      NothingAdded(c, b, w.now);
    } else {
      Quotients.Monotone(c.refillRate, w.now - b.lastRefill, c.refillRate);
      Quotients.Unique(c.refillRate, c.refillRate, 1, 0);
    }
  }
}
