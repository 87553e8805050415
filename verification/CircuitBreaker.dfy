/** The three-state circuit breaker in front of the Gemini API.

  `Attempted` and `Completed` are the two lock-protected transitions.  A history is a sequence of
  attempts and completions, each with a clock reading; calls may overlap freely, so a completion can
  arrive in any state.  The class below is the mutable breaker; its ghost history ties it to `Replay`,
  about which the theorems are stated.  The half-open timeout is stored by the program and never read,
  so it has no counterpart here. */
module CircuitBreaking {
  import Quotients

  type Time = int

  datatype Mode = Closed | Open | HalfOpen

  datatype Config = Config(failureThreshold: int, successThreshold: int, timeout: int) {
    /** What the default configuration provides and the theorems need; nothing enforces it. */
    predicate Sane() {
      failureThreshold >= 1 && successThreshold >= 1 && timeout > 0
    }
  }

  datatype Core = Core(mode: Mode, failures: int, successes: int, lastFailure: Time)

  datatype Event =
    | Attempt(at: Time)
    | Done(failed: bool, critical: bool, at: Time)

  const FRESH := Core(Closed, 0, 0, 0)

  predicate Admits(c: Config, b: Core, now: Time) {
    b.mode != Open || now - b.lastFailure >= c.timeout
  }

  function Attempted(c: Config, b: Core, now: Time): Core {
    if b.mode == Open && Admits(c, b, now) then b.(mode := HalfOpen, successes := 0) else b
  }

  function Failed(c: Config, b: Core, critical: bool, now: Time): Core {
    match b.mode
    case Closed =>
      if critical then
        b.(mode := Open, lastFailure := now, failures := c.failureThreshold)
      else if b.failures + 1 >= c.failureThreshold then
        b.(mode := Open, lastFailure := now, failures := b.failures + 1)
      else
        b.(failures := b.failures + 1)
    case HalfOpen => Core(Open, c.failureThreshold, 0, now)
    case Open => b
  }

  function Succeeded(c: Config, b: Core): Core {
    match b.mode
    case Closed => b.(failures := 0)
    case HalfOpen =>
      if b.successes + 1 >= c.successThreshold
      then b.(mode := Closed, failures := 0, successes := 0)
      else b.(successes := b.successes + 1)
    case Open => b
  }

  function Completed(c: Config, b: Core, failed: bool, critical: bool, now: Time): Core {
    if failed then Failed(c, b, critical, now) else Succeeded(c, b)
  }

  function Next(c: Config, b: Core, e: Event): Core {
    match e
    case Attempt(at) => Attempted(c, b, at)
    case Done(failed, critical, at) => Completed(c, b, failed, critical, at)
  }

  /** The breaker after a history. */
  function Replay(c: Config, h: seq<Event>): Core {
    if h == [] then FRESH else Next(c, Replay(c, h[..|h| - 1]), h[|h| - 1])
  }

  /** The mutable breaker.  `history` is ghost: it records every locked section that ran. */
  class CircuitBreaker {
    const config: Config
    var mode: Mode
    var failures: int
    var successes: int
    var lastFailure: Time
    ghost var history: seq<Event>

    ghost function View(): Core
      reads this
    {
      Core(mode, failures, successes, lastFailure)
    }

    ghost predicate Valid()
      reads this
    {
      View() == Replay(config, history)
    }

    constructor (config: Config)
      ensures Valid() && history == [] && this.config == config && View() == FRESH
    {
      this.config := config;
      mode, failures, successes, lastFailure := Closed, 0, 0, 0;
      history := [];
    }

    method BeforeCall(now: Time) returns (admitted: bool)
      requires Valid()
      modifies this
      ensures Valid() && history == old(history) + [Attempt(now)]
      ensures admitted == Admits(config, old(View()), now)
      ensures View() == Attempted(config, old(View()), now)
    {
      ghost var was := history;
      history := history + [Attempt(now)];
      assert history[..|history| - 1] == was;
      match mode {
        case Closed => admitted := true;
        case Open =>
          admitted := now - lastFailure >= config.timeout;
          if admitted {
            mode := HalfOpen;
            successes := 0;
          }
        case HalfOpen => admitted := true;
      }
    }

    method AfterCall(failed: bool, critical: bool, now: Time)
      requires Valid()
      modifies this
      ensures Valid() && history == old(history) + [Done(failed, critical, now)]
      ensures View() == Completed(config, old(View()), failed, critical, now)
    {
      ghost var was := history;
      if failed {
        OnFailure(critical, now);
      } else {
        OnSuccess();
      }
      history := was + [Done(failed, critical, now)];
      assert history[..|history| - 1] == was;
    }

    method OnFailure(critical: bool, now: Time)
      modifies this
      ensures View() == Failed(config, old(View()), critical, now)
    {
      match mode {
        case Closed =>
          if critical {
            mode := Open;
            lastFailure := now;
            failures := config.failureThreshold;
          } else {
            failures := failures + 1;
            if failures >= config.failureThreshold {
              mode := Open;
              lastFailure := now;
            }
          }
        case HalfOpen =>
          mode := Open;
          lastFailure := now;
          failures := config.failureThreshold;
          successes := 0;
        case Open =>
      }
    }

    method OnSuccess()
      modifies this
      ensures View() == Succeeded(config, old(View()))
    {
      match mode {
        case Closed => failures := 0;
        case HalfOpen =>
          successes := successes + 1;
          if successes >= config.successThreshold {
            mode := Closed;
            failures := 0;
            successes := 0;
          }
        case Open =>
      }
    }
  }

  // ------------------------------------------------------------------ counters and history

  /** How many completions at the end of `h` failed, back to the last success. */
  function TrailingFailures(h: seq<Event>): nat {
    if h == [] then 0
    else match h[|h| - 1]
      case Attempt(_) => TrailingFailures(h[..|h| - 1])
      case Done(failed, _, _) => if failed then TrailingFailures(h[..|h| - 1]) + 1 else 0
  }

  function Completions(h: seq<Event>): nat {
    if h == [] then 0
    else Completions(h[..|h| - 1]) + if h[|h| - 1].Done? then 1 else 0
  }

  predicate AllSucceed(h: seq<Event>) {
    forall k :: 0 <= k < |h| && h[k].Done? ==> !h[k].failed
  }

  predicate AllFail(h: seq<Event>) {
    forall k :: 0 <= k < |h| && h[k].Done? ==> h[k].failed
  }

  /** Event `e` of `h` is the attempt that took the breaker from Open to HalfOpen, where it stayed. */
  ghost predicate EnteredAt(c: Config, h: seq<Event>, e: int) {
    && 0 <= e < |h|
    && Replay(c, h[..e]).mode == Open
    && forall k :: e < k <= |h| ==> Replay(c, h[..k]).mode == HalfOpen
  }

  /** Event `o` of `h` opened the breaker, which has stayed open. */
  ghost predicate OpenedAt(c: Config, h: seq<Event>, o: int) {
    && 0 <= o < |h|
    && h[o].Done? && h[o].failed
    && Replay(c, h[..o]).mode != Open
    && forall k :: o < k <= |h| ==> Replay(c, h[..k]).mode == Open
  }

  /** What the three counters mean, in terms of the history alone. */
  ghost predicate CountersExplained(c: Config, h: seq<Event>) {
    var b := Replay(c, h);
    match b.mode
    case Closed =>
      b.failures == TrailingFailures(h) < c.failureThreshold && b.successes == 0
    case Open =>
      && b.failures == c.failureThreshold
      && b.successes == 0
      && exists o :: OpenedAt(c, h, o) && b.lastFailure == h[o].at
    case HalfOpen =>
      && b.failures == c.failureThreshold
      && exists e :: ProbingSince(c, h, e)
  }

  /** Half-open since event `e`: `successes` counts the completions since, all of them successes. */
  ghost predicate ProbingSince(c: Config, h: seq<Event>, e: int) {
    && EnteredAt(c, h, e)
    && AllSucceed(h[e + 1..])
    && Replay(c, h).successes == Completions(h[e + 1..]) < c.successThreshold
  }

  lemma PrefixOfPrefix(h: seq<Event>, k: nat)
    requires k < |h|
    ensures h[..|h| - 1][..k] == h[..k]
  {
  }

  lemma OpenStillExplained(c: Config, h: seq<Event>, g: seq<Event>)
    requires c.Sane() && |h| > 0 && g == h[..|h| - 1]
    requires CountersExplained(c, g) && Replay(c, h).mode == Open
    ensures CountersExplained(c, h)
  {
    var a, b := Replay(c, g), Replay(c, h);
    assert h[..|h|] == h;
    forall k | 0 <= k < |h| ensures h[..k] == g[..k] {}
    if a.mode == Open {
      var o :| OpenedAt(c, g, o) && a.lastFailure == g[o].at;
      assert OpenedAt(c, h, o) && b.lastFailure == h[o].at;
    } else {
      assert OpenedAt(c, h, |h| - 1) && b.lastFailure == h[|h| - 1].at;
    }
  }

  lemma ProbingContinues(c: Config, h: seq<Event>, g: seq<Event>, e: int)
    requires c.Sane() && |h| > 0 && g == h[..|h| - 1]
    requires ProbingSince(c, g, e) && Replay(c, h).mode == HalfOpen && Replay(c, g).mode == HalfOpen
    ensures ProbingSince(c, h, e)
  {
    assert h[..|h|] == h;
    forall k | 0 <= k < |h| ensures h[..k] == g[..k] {}
    assert EnteredAt(c, h, e);
    var late := h[e + 1..];
    assert late[..|late| - 1] == g[e + 1..] && late[|late| - 1] == h[|h| - 1];
    forall k | 0 <= k < |late| && late[k].Done? ensures !late[k].failed {
      assert k < |late| - 1 ==> late[k] == g[e + 1..][k];
    }
  }

  lemma HalfOpenStillExplained(c: Config, h: seq<Event>, g: seq<Event>)
    requires c.Sane() && |h| > 0 && g == h[..|h| - 1]
    requires CountersExplained(c, g) && Replay(c, h).mode == HalfOpen
    ensures CountersExplained(c, h)
  {
    if Replay(c, g).mode == HalfOpen {
      var e :| ProbingSince(c, g, e);
      ProbingContinues(c, h, g, e);
    } else {
      assert h[..|h|] == h && h[|h|..] == [];
      assert EnteredAt(c, h, |h| - 1);
      assert ProbingSince(c, h, |h| - 1);
    }
  }

  /** The counters refine the history, for every interleaving of admissions and completions. */
  lemma {:induction false} CountersRefineHistory(c: Config, h: seq<Event>)
    requires c.Sane()
    ensures CountersExplained(c, h)
  {
    if h == [] {
    } else {
      var g := h[..|h| - 1];
      CountersRefineHistory(c, g);
      match Replay(c, h).mode {
        case Closed =>
        case Open => OpenStillExplained(c, h, g);
        case HalfOpen => HalfOpenStillExplained(c, h, g);
      }
    }
  }

  /** A half-open breaker closes exactly on the `successThreshold`-th completion since it was entered,
      and that completion and all before it are successes. */
  lemma ClosesExactlyAtThreshold(c: Config, h: seq<Event>, e: int, last: Event)
    requires c.Sane() && EnteredAt(c, h, e)
    ensures Replay(c, h + [last]).mode == Closed
            <==> last.Done? && !last.failed && Completions(h[e + 1..]) + 1 == c.successThreshold
    ensures AllSucceed(h[e + 1..])
  {
    CountersRefineHistory(c, h);
    assert h[..|h|] == h;
    var f :| ProbingSince(c, h, f);
    assert e == f;
    assert (h + [last])[..|h|] == h;
  }

  // ------------------------------------------------------------------ the open period

  ghost predicate Chronological(h: seq<Event>) {
    forall i, j :: 0 <= i < j < |h| ==> h[i].at <= h[j].at
  }

  /** The breaker was not open before event `i` and is open after it. */
  ghost predicate Opens(c: Config, h: seq<Event>, i: int) {
    0 <= i < |h| && Replay(c, h[..i]).mode != Open && Replay(c, h[..i + 1]).mode == Open
  }

  lemma {:induction false} FrozenWhileOpen(c: Config, h: seq<Event>, i: int, k: int)
    requires c.Sane() && Opens(c, h, i) && i < k <= |h|
    requires forall m :: i < m < k && h[m].Attempt? ==> h[m].at < h[i].at + c.timeout
    ensures Replay(c, h[..k]) == Replay(c, h[..i + 1])
    ensures Replay(c, h[..k]).lastFailure == h[i].at
    decreases k
  {
    PrefixOfPrefix(h[..k], k - 1);
    assert h[..k][..k - 1] == h[..k - 1];
    if k == i + 1 {
    } else {
      FrozenWhileOpen(c, h, i, k - 1);
    }
  }

  /** Cool-down: after an opening at time `t` (from Closed or again from HalfOpen) the first attempt at
      or after `t + timeout` is admitted, and every attempt before that time is refused, whatever
      completions of calls still in flight arrive in between. */
  lemma CoolDownIsExact(c: Config, h: seq<Event>, i: int, k: int)
    requires c.Sane() && Chronological(h) && Opens(c, h, i)
    requires i < k < |h| && h[k].Attempt?
    requires forall m :: i < m < k && h[m].Attempt? ==> h[m].at < h[i].at + c.timeout
    ensures Admits(c, Replay(c, h[..k]), h[k].at) <==> h[k].at >= h[i].at + c.timeout
  {
    FrozenWhileOpen(c, h, i, k);
  }

  lemma NoAdmissionDuringCoolDown(c: Config, h: seq<Event>, i: int, k: int)
    requires c.Sane() && Chronological(h) && Opens(c, h, i)
    requires i < k < |h| && h[k].Attempt? && h[k].at < h[i].at + c.timeout
    ensures !Admits(c, Replay(c, h[..k]), h[k].at)
  {
    forall m | i < m < k && h[m].Attempt? ensures h[m].at < h[i].at + c.timeout {
      assert h[m].at <= h[k].at;
    }
    FrozenWhileOpen(c, h, i, k);
  }

  // ------------------------------------------------------------------ outages

  /** Calls admitted and not yet completed, when at most one caller uses the breaker. */
  function InFlight(c: Config, h: seq<Event>): int {
    if h == [] then 0
    else
      var before := h[..|h| - 1];
      match h[|h| - 1]
      case Attempt(at) => InFlight(c, before) + if Admits(c, Replay(c, before), at) then 1 else 0
      case Done(_, _, _) => InFlight(c, before) - 1
  }

  /** One caller: an attempt only when no call is in flight, a completion only of the call in flight. */
  ghost predicate Serial(c: Config, h: seq<Event>) {
    forall k :: 0 <= k < |h| ==> InFlight(c, h[..k]) == if h[k].Attempt? then 0 else 1
  }

  /** Calls admitted by events `i` up to `j` of the history. */
  function Admissions(c: Config, h: seq<Event>, i: nat, j: nat): nat
    requires i <= j <= |h|
    decreases j
  {
    if i == j then 0
    else Admissions(c, h, i, j - 1)
         + if h[j - 1].Attempt? && Admits(c, Replay(c, h[..j - 1]), h[j - 1].at) then 1 else 0
  }

  lemma QuotientStep(x: int, y: int, d: int)
    requires d > 0 && x <= y
    ensures x / d <= y / d
    ensures (x - d) / d == x / d - 1
    ensures x >= 0 ==> x / d >= 0
  {
    Quotients.Monotone(x, y, d);
    Quotients.LessDivisor(x, d);
    Quotients.Monotone(0, if x >= 0 then x else 0, d);
  }

  /** The most admissions the breaker can still grant up to `end`, if every completion fails. */
  function Remaining(c: Config, b: Core, inFlight: int, now: Time, end: Time): int
    requires c.Sane()
  {
    match b.mode
    case Closed => c.failureThreshold - b.failures - inFlight + (end - now) / c.timeout
    case HalfOpen => 1 - inFlight + (end - now) / c.timeout
    case Open =>
      var next := if now >= b.lastFailure + c.timeout then now else b.lastFailure + c.timeout;
      if next <= end then 1 + (end - next) / c.timeout else 0
  }

  lemma RemainingDecreases(c: Config, b: Core, n: int, now: Time, end: Time, e: Event)
    requires c.Sane() && now <= e.at <= end
    requires b.mode == Closed ==> b.failures < c.failureThreshold
    requires n == if e.Attempt? then 0 else 1
    requires e.Done? ==> e.failed
    ensures var admitted := e.Attempt? && Admits(c, b, e.at);
            var m := if e.Done? then 0 else if admitted then 1 else 0;
            Remaining(c, Next(c, b, e), m, e.at, end) + (if admitted then 1 else 0)
            <= Remaining(c, b, n, now, end)
  {
    QuotientStep(end - e.at, end - now, c.timeout);
    if b.mode == Open {
      var next := if now >= b.lastFailure + c.timeout then now else b.lastFailure + c.timeout;
      var later := if e.at >= next then e.at else next;
      QuotientStep(end - later, end - next, c.timeout);
    }
  }

  lemma {:induction false} OutageBudget(c: Config, h: seq<Event>, i: nat, j: nat, start: Time, end: Time)
    requires c.Sane() && Chronological(h) && Serial(c, h) && i <= j <= |h|
    requires forall k :: i <= k < j ==> start <= h[k].at <= end
    requires AllFail(h[i..j])
    requires start <= end
    ensures var now := if j == i then start else h[j - 1].at;
            Admissions(c, h, i, j) + Remaining(c, Replay(c, h[..j]), InFlight(c, h[..j]), now, end)
            <= Remaining(c, Replay(c, h[..i]), InFlight(c, h[..i]), start, end)
    decreases j
  {
    if i == j {
      assert Admissions(c, h, i, j) == 0;
    } else {
      assert h[i..j - 1] == h[i..j][..j - 1 - i];
      assert AllFail(h[i..j - 1]);
      assert h[j - 1] == h[i..j][j - 1 - i];
      OutageBudget(c, h, i, j - 1, start, end);
      assert h[..j][..j - 1] == h[..j - 1];
      var now := if j - 1 == i then start else h[j - 2].at;
      CountersRefineHistory(c, h[..j - 1]);
      RemainingDecreases(c, Replay(c, h[..j - 1]), InFlight(c, h[..j - 1]), now, end, h[j - 1]);
    }
  }

  lemma {:induction false} InFlightBounds(c: Config, h: seq<Event>, k: nat)
    requires Serial(c, h) && k <= |h|
    ensures 0 <= InFlight(c, h[..k]) <= 1
  {
    if k > 0 {
      assert h[..k][..k - 1] == h[..k - 1];
      assert InFlight(c, h[..k - 1]) == if h[k - 1].Attempt? then 0 else 1;
    }
  }

  lemma RemainingFromAnywhere(c: Config, b: Core, n: int, now: Time, end: Time)
    requires c.Sane() && now <= end && 0 <= n <= 1
    requires b.failures >= 0
    ensures Remaining(c, b, n, now, end) <= c.failureThreshold + (end - now) / c.timeout
    ensures b.mode != Closed || n + b.failures <= c.failureThreshold ==> Remaining(c, b, n, now, end) >= 0
  {
    QuotientStep(end - now, end - now, c.timeout);
    if b.mode == Open && now < b.lastFailure + c.timeout {
      QuotientStep(end - (b.lastFailure + c.timeout), end - now, c.timeout);
      if b.lastFailure + c.timeout <= end {
        QuotientStep(0, end - (b.lastFailure + c.timeout), c.timeout);
      }
    }
  }

  /** Outage: however the breaker got into its state, while every completing call fails, one caller gets
      at most `failureThreshold + T / timeout` calls admitted in a window of length `T`. */
  lemma OutageAdmissionsBounded(c: Config, h: seq<Event>, i: nat, j: nat, start: Time, end: Time)
    requires c.Sane() && Chronological(h) && Serial(c, h) && i <= j <= |h|
    requires start <= end && forall k :: i <= k < j ==> start <= h[k].at <= end
    requires AllFail(h[i..j])
    ensures Admissions(c, h, i, j) <= c.failureThreshold + (end - start) / c.timeout
  {
    OutageBudget(c, h, i, j, start, end);
    CountersRefineHistory(c, h[..i]);
    CountersRefineHistory(c, h[..j]);
    InFlightBounds(c, h, i);
    InFlightBounds(c, h, j);
    RemainingFromAnywhere(c, Replay(c, h[..i]), InFlight(c, h[..i]), start, end);
    var now := if j == i then start else h[j - 1].at;
    RemainingFromAnywhere(c, Replay(c, h[..j]), InFlight(c, h[..j]), now, end);
  }
}
