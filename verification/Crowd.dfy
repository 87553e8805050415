/** The rate limiter with several callers at once: the bound on grants in a window, for any interleaving of their
  locked sections. */
module CrowdLimiting {
  import opened Model
  import opened RateLimiting
  import Quotients

  /** A caller enters `Wait`, or wakes from its sleep, or is cancelled in it. */
  datatype Move = Comes(who: nat, at: Time) | Wakes(who: nat, at: Time) | GivesUp(who: nat, at: Time)

  /** The bucket, when each sleeping caller is due, and the time of the last move. */
  datatype Crowd = Crowd(bucket: Bucket, due: map<nat, Time>, clock: Time)

  /** Moves come in the order of their times; timers do not fire early; a caller in `Wait` does not call it. */
  predicate Legal(k: nat, s: Crowd, m: Move) {
    && m.who < k && s.clock <= m.at
    && match m
       case Comes(who, _) => who !in s.due
       case Wakes(who, at) => who in s.due && s.due[who] <= at
       case GivesUp(who, _) => who in s.due
  }

  function Moved(c: Config, s: Crowd, m: Move): Crowd
    requires c.refillRate > 0
  {
    match m
    case Comes(who, at) =>
      Crowd(Enter(c, s.bucket, at),
            if TakesAtOnce(c, s.bucket, at) then s.due else s.due[who := at + Delay(c, s.bucket, at)], at)
    case Wakes(who, at) => Crowd(Awake(c, at), s.due - {who}, at)
    case GivesUp(who, at) => Crowd(s.bucket, s.due - {who}, at)
  }

  function Play(c: Config, s: Crowd, moves: seq<Move>): Crowd
    requires c.refillRate > 0
  {
    if moves == [] then s else Moved(c, Play(c, s, moves[..|moves| - 1]), moves[|moves| - 1])
  }

  ghost predicate Legally(c: Config, k: nat, s: Crowd, moves: seq<Move>)
    requires c.refillRate > 0
  {
    moves == [] ||
    (Legally(c, k, s, moves[..|moves| - 1]) && Legal(k, Play(c, s, moves[..|moves| - 1]), moves[|moves| - 1]))
  }

  /** The move makes tokens. */
  predicate Refills(c: Config, s: Crowd, m: Move)
    requires c.refillRate > 0
  {
    match m
    case Comes(_, at) => (at - s.bucket.lastRefill) / c.refillRate > 0
    case Wakes(_, _) => true
    case GivesUp(_, _) => false
  }

  predicate Grants(c: Config, s: Crowd, m: Move)
    requires c.refillRate > 0
  {
    match m
    case Comes(_, at) => TakesAtOnce(c, s.bucket, at)
    case Wakes(_, _) => true
    case GivesUp(_, _) => false
  }

  /** Grants at times from `from` to `to`. */
  function GrantsWithin(c: Config, s: Crowd, moves: seq<Move>, from: Time, to: Time): nat
    requires c.refillRate > 0
  {
    if moves == [] then 0
    else
      var init, m := moves[..|moves| - 1], moves[|moves| - 1];
      GrantsWithin(c, s, init, from, to) + if from <= m.at <= to && Grants(c, Play(c, s, init), m) then 1 else 0
  }

  /** Refills by the callers numbered below `k`. */
  function RefillsWithin(c: Config, s: Crowd, moves: seq<Move>, from: Time, to: Time, k: nat): nat
    requires c.refillRate > 0
  {
    if moves == [] then 0
    else
      var init, m := moves[..|moves| - 1], moves[|moves| - 1];
      RefillsWithin(c, s, init, from, to, k)
      + if from <= m.at <= to && m.who < k && Refills(c, Play(c, s, init), m) then 1 else 0
  }

  // ------------------------------------------------------------------ grants come from refills

  lemma {:induction false} CrowdStaysInRange(c: Config, s: Crowd, moves: seq<Move>)
    requires c.Sane() && Holds(c, s.bucket)
    ensures Holds(c, Play(c, s, moves).bucket)
  {
    if moves == [] {
    } else {
      CrowdStaysInRange(c, s, moves[..|moves| - 1]);
    }
  }

  /** A move spends at most one token, and makes at most a bucketful. */
  lemma MoveSpends(c: Config, s: Crowd, m: Move)
    requires c.Sane() && Holds(c, s.bucket)
    ensures (if Grants(c, s, m) then 1 else 0) + Moved(c, s, m).bucket.tokens
            <= if Refills(c, s, m) then c.maxTokens else s.bucket.tokens
  {
  }

  ghost predicate Supplied(c: Config, k: nat, s: Crowd, moves: seq<Move>, from: Time, to: Time)
    requires c.Sane()
  {
    var now, grants := Play(c, s, moves), GrantsWithin(c, s, moves, from, to);
    var supply := c.maxTokens * (1 + RefillsWithin(c, s, moves, from, to, k));
    && grants <= supply
    && (now.clock < from ==> grants == 0)
    && (from <= now.clock <= to ==> grants + now.bucket.tokens <= supply)
  }

  lemma {:induction false} GrantsAreSupplied(c: Config, k: nat, s: Crowd, moves: seq<Move>, from: Time, to: Time)
    requires c.Sane() && Holds(c, s.bucket) && Legally(c, k, s, moves)
    ensures Supplied(c, k, s, moves, from, to)
  {
    CrowdStaysInRange(c, s, moves);
    if moves == [] {
    } else {
      var init, m := moves[..|moves| - 1], moves[|moves| - 1];
      var before := Play(c, s, init);
      GrantsAreSupplied(c, k, s, init, from, to);
      CrowdStaysInRange(c, s, init);
      MoveSpends(c, before, m);
      var r := RefillsWithin(c, s, init, from, to, k);
      Distribute(c.maxTokens, r);
      Distribute(c.maxTokens, 1 + r);
      Scale(c.maxTokens, 0, r);
    }
  }

  // ------------------------------------------------------------------ each caller's refills are an interval apart

  /** When the caller last made tokens, if it did. */
  function LastRefillBy(c: Config, s: Crowd, moves: seq<Move>, who: nat): Option<Time>
    requires c.refillRate > 0
  {
    if moves == [] then None
    else
      var init, m := moves[..|moves| - 1], moves[|moves| - 1];
      if m.who == who && Refills(c, Play(c, s, init), m) then Some(m.at) else LastRefillBy(c, s, init, who)
  }

  function RefillsBy(c: Config, s: Crowd, moves: seq<Move>, from: Time, to: Time, who: nat): nat
    requires c.refillRate > 0
  {
    if moves == [] then 0
    else
      var init, m := moves[..|moves| - 1], moves[|moves| - 1];
      RefillsBy(c, s, init, from, to, who)
      + if from <= m.at <= to && m.who == who && Refills(c, Play(c, s, init), m) then 1 else 0
  }

  /** The caller's next refill is an interval after its last. */
  ghost predicate Spaced(c: Config, s: Crowd, last: Option<Time>, who: nat) {
    && s.bucket.lastRefill <= s.clock
    && (last.Some? ==> last.value <= s.bucket.lastRefill)
    && (last.Some? && who in s.due ==> last.value + c.refillRate <= s.due[who])
  }

  lemma MoveSpaced(c: Config, k: nat, s: Crowd, m: Move, last: Option<Time>, who: nat)
    requires c.Sane() && Legal(k, s, m) && Spaced(c, s, last, who) && Holds(c, s.bucket)
    ensures Spaced(c, Moved(c, s, m), if m.who == who && Refills(c, s, m) then Some(m.at) else last, who)
    ensures last.Some? && m.who == who && Refills(c, s, m) ==> last.value + c.refillRate <= m.at
  {
    var q := if m.Comes? then (m.at - s.bucket.lastRefill) / c.refillRate else 0;
    assert m.Comes? ==> m.at - s.bucket.lastRefill == c.refillRate * q + (m.at - s.bucket.lastRefill) % c.refillRate;
    if q >= 1 {
      Quotients.AtLeastDivisor(c.refillRate, q);
    }
  }

  /** So many of one caller's refills fit in the window up to its last. */
  ghost predicate FewRefills(c: Config, last: Option<Time>, refills: nat, from: Time)
    requires c.refillRate > 0
  {
    if last.Some? && from <= last.value then refills <= (last.value - from) / c.refillRate + 1 else refills == 0
  }

  lemma OneMoreRefill(c: Config, last: Option<Time>, refills: nat, from: Time, at: Time)
    requires c.Sane() && FewRefills(c, last, refills, from) && from <= at
    requires last.Some? ==> last.value + c.refillRate <= at
    ensures FewRefills(c, Some(at), refills + 1, from)
  {
    Quotients.Monotone(0, at - from, c.refillRate);
    if last.Some? && from <= last.value {
      Quotients.Monotone(last.value - from, at - c.refillRate - from, c.refillRate);
      Quotients.LessDivisor(at - from, c.refillRate);
    }
  }

  lemma {:induction false} RefillsAreFew(c: Config, k: nat, s: Crowd, moves: seq<Move>, from: Time, to: Time, who: nat)
    requires c.Sane() && Holds(c, s.bucket) && s.bucket.lastRefill <= s.clock && Legally(c, k, s, moves) && from <= to
    ensures Spaced(c, Play(c, s, moves), LastRefillBy(c, s, moves, who), who)
    ensures RefillsBy(c, s, moves, from, to, who) <= (to - from) / c.refillRate + 1
    ensures Play(c, s, moves).clock <= to ==>
              FewRefills(c, LastRefillBy(c, s, moves, who), RefillsBy(c, s, moves, from, to, who), from)
  {
    Quotients.Monotone(0, to - from, c.refillRate);
    if moves == [] {
    } else {
      var init, m := moves[..|moves| - 1], moves[|moves| - 1];
      var last, n := LastRefillBy(c, s, init, who), RefillsBy(c, s, init, from, to, who);
      RefillsAreFew(c, k, s, init, from, to, who);
      CrowdStaysInRange(c, s, init);
      MoveSpaced(c, k, Play(c, s, init), m, last, who);
      if m.at <= to && from <= m.at && m.who == who && Refills(c, Play(c, s, init), m) {
        OneMoreRefill(c, last, n, from, m.at);
        Quotients.Monotone(m.at - from, to - from, c.refillRate);
      }
    }
  }

  // ------------------------------------------------------------------ all callers together

  lemma {:induction false} OneMoreCaller(c: Config, s: Crowd, moves: seq<Move>, from: Time, to: Time, k: nat)
    requires c.Sane()
    ensures RefillsWithin(c, s, moves, from, to, 0) == 0
    ensures RefillsWithin(c, s, moves, from, to, k + 1)
            == RefillsWithin(c, s, moves, from, to, k) + RefillsBy(c, s, moves, from, to, k)
  {
    if moves == [] {
    } else {
      OneMoreCaller(c, s, moves[..|moves| - 1], from, to, k);
    }
  }

  lemma {:induction false} AllRefillsAreFew(c: Config, k: nat, s: Crowd, moves: seq<Move>, from: Time, to: Time, j: nat)
    requires c.Sane() && Holds(c, s.bucket) && s.bucket.lastRefill <= s.clock && Legally(c, k, s, moves) && from <= to
    ensures RefillsWithin(c, s, moves, from, to, j) <= j * ((to - from) / c.refillRate + 1)
  {
    if j == 0 {
      OneMoreCaller(c, s, moves, from, to, 0);
    } else {
      AllRefillsAreFew(c, k, s, moves, from, to, j - 1);
      OneMoreCaller(c, s, moves, from, to, j - 1);
      RefillsAreFew(c, k, s, moves, from, to, j - 1);
      OneMoreTime((to - from) / c.refillRate + 1, j);
    }
  }

  lemma OneMoreTime(x: int, j: nat)
    requires j > 0
    ensures j * x == (j - 1) * x + x
  {
  }

  /** At most `k` callers at a time, in any interleaving, are granted at most
      `maxTokens * (k * (T / refillRate + 1) + 1)` tokens in any window of length `T`, whatever happened before it and
      whoever is asleep when it begins.  With one caller this is the bound of `WindowGrantsBounded`. */
  lemma CrowdGrantsBounded(c: Config, k: nat, s: Crowd, moves: seq<Move>, from: Time, to: Time)
    requires c.Sane() && Holds(c, s.bucket) && s.bucket.lastRefill <= s.clock && Legally(c, k, s, moves) && from <= to
    ensures GrantsWithin(c, s, moves, from, to) <= c.maxTokens * (k * ((to - from) / c.refillRate + 1) + 1)
  {
    GrantsAreSupplied(c, k, s, moves, from, to);
    AllRefillsAreFew(c, k, s, moves, from, to, k);
    Scale(c.maxTokens, 1 + RefillsWithin(c, s, moves, from, to, k), k * ((to - from) / c.refillRate + 1) + 1);
  }
}
