/** When the breaker refuses, when it changes its mode, and how it recovers, told by its history. */
module CircuitTheorems {
  import opened CircuitBreaking

  lemma Step(c: Config, h: seq<Event>, e: Event)
    ensures Replay(c, h + [e]) == Next(c, Replay(c, h), e)
  {
    assert (h + [e])[..|h|] == h;
  }

  // ------------------------------------------------------------------ openings

  /** The opening at `i` lasts: no attempt since has come late enough to be admitted. */
  ghost predicate StillOpen(c: Config, h: seq<Event>, i: int) {
    Opens(c, h, i) && forall m :: i < m < |h| && h[m].Attempt? ==> h[m].at < h[i].at + c.timeout
  }

  lemma StillOpenIsOpen(c: Config, h: seq<Event>, i: int)
    requires c.Sane() && StillOpen(c, h, i)
    ensures Replay(c, h).mode == Open && Replay(c, h).lastFailure == h[i].at
  {
    FrozenWhileOpen(c, h, i, |h|);
    assert h[..|h|] == h;
  }

  lemma OpeningGrows(c: Config, h: seq<Event>, e: Event, i: int)
    requires StillOpen(c, h, i) && (e.Attempt? ==> e.at < h[i].at + c.timeout)
    ensures StillOpen(c, h + [e], i)
  {
    assert (h + [e])[..i] == h[..i] && (h + [e])[..i + 1] == h[..i + 1];
  }

  /** An open breaker has an opening that lasts. */
  lemma {:induction false} LastOpening(c: Config, h: seq<Event>) returns (i: int)
    requires c.Sane() && Replay(c, h).mode == Open
    ensures StillOpen(c, h, i)
  {
    var g, e := h[..|h| - 1], h[|h| - 1];
    assert g + [e] == h;
    if Replay(c, g).mode == Open {
      i := LastOpening(c, g);
      StillOpenIsOpen(c, g, i);
      OpeningGrows(c, g, e, i);
    } else {
      i := |h| - 1;
      assert h[..i] == g && h[..i + 1] == h;
    }
  }

  /** An attempt is refused exactly if there was an opening at some time `t`, none has been admitted since, and the
      clock reads less than `t + timeout`; so a closed breaker and a half-open one refuse nothing. */
  lemma RefusedIff(c: Config, h: seq<Event>, now: Time)
    requires c.Sane()
    ensures !Admits(c, Replay(c, h), now) <==> exists i :: StillOpen(c, h, i) && now < h[i].at + c.timeout
  {
    if !Admits(c, Replay(c, h), now) {
      var i := LastOpening(c, h);
      StillOpenIsOpen(c, h, i);
      assert now < h[i].at + c.timeout;
    }
    if i :| StillOpen(c, h, i) && now < h[i].at + c.timeout {
      StillOpenIsOpen(c, h, i);
    }
  }

  // ------------------------------------------------------------------ every change of mode

  /** What event `e` makes of a breaker with history `h`.  A closed breaker opens on a critical failure, or on the
      `failureThreshold`-th failure since the last success; an open one turns half-open on the first attempt after
      the cool-down; a half-open one opens on a failure, and closes on the `successThreshold`-th success. */
  ghost predicate ModeAfter(c: Config, h: seq<Event>, e: Event, m: Mode) {
    match Replay(c, h).mode
    case Closed =>
      var opens := e.Done? && e.failed && (e.critical || TrailingFailures(h) + 1 >= c.failureThreshold);
      m == if opens then Open else Closed
    case Open =>
      exists i :: StillOpen(c, h, i)
                  && m == if e.Attempt? && e.at >= h[i].at + c.timeout then HalfOpen else Open
    case HalfOpen =>
      exists i :: EnteredAt(c, h, i)
                  && m == if e.Attempt? then HalfOpen
                          else if e.failed then Open
                          else if Completions(h[i + 1..]) + 1 == c.successThreshold then Closed
                          else HalfOpen
  }

  lemma ModeChangesExactly(c: Config, h: seq<Event>, e: Event)
    requires c.Sane()
    ensures ModeAfter(c, h, e, Replay(c, h + [e]).mode)
  {
    Step(c, h, e);
    CountersRefineHistory(c, h);
    match Replay(c, h).mode {
      case Closed =>
      case Open =>
        var i := LastOpening(c, h);
        StillOpenIsOpen(c, h, i);
      case HalfOpen =>
        var i :| ProbingSince(c, h, i);
        ClosesExactlyAtThreshold(c, h, i, e);
    }
  }

  // ------------------------------------------------------------------ recovery

  /** From event `k`, the first attempt after a cool-down, on every completion is a success. */
  ghost predicate Recovering(c: Config, h: seq<Event>, k: int) {
    && 0 <= k < |h| && h[k].Attempt?
    && (exists i :: StillOpen(c, h[..k], i) && h[k].at >= h[i].at + c.timeout)
    && AllSucceed(h[k + 1..])
  }

  lemma {:induction false} CompletionsGrow(h: seq<Event>, e: Event)
    ensures Completions(h + [e]) == Completions(h) + if e.Done? then 1 else 0
  {
    assert (h + [e])[..|h|] == h;
  }

  lemma RecoveringBefore(c: Config, h: seq<Event>, e: Event, k: int)
    requires Recovering(c, h + [e], k) && k < |h|
    ensures Recovering(c, h, k) && (e.Done? ==> !e.failed)
    ensures (h + [e])[k + 1..] == h[k + 1..] + [e]
  {
    assert (h + [e])[..k] == h[..k] && (h + [e])[k + 1..] == h[k + 1..] + [e];
    var late, all := h[k + 1..], (h + [e])[k + 1..];
    forall m | 0 <= m < |late| && late[m].Done? ensures !late[m].failed {
      assert all[m] == late[m];
    }
    assert all[|late|] == e;
  }

  lemma {:induction false} RecoveryState(c: Config, h: seq<Event>, k: int)
    requires c.Sane() && Recovering(c, h, k)
    ensures var b, n := Replay(c, h), Completions(h[k + 1..]);
            if n >= c.successThreshold then b.mode == Closed && b.failures == 0
            else b.mode == HalfOpen && b.successes == n
  {
    var g, e := h[..|h| - 1], h[|h| - 1];
    assert g + [e] == h;
    Step(c, g, e);
    if k == |h| - 1 {
      var i :| StillOpen(c, h[..k], i) && h[k].at >= h[i].at + c.timeout;
      StillOpenIsOpen(c, g, i);
    } else {
      RecoveringBefore(c, g, e, k);
      RecoveryState(c, g, k);
      CompletionsGrow(g[k + 1..], e);
    }
  }

  /** Recovery: the first attempt after the cool-down is admitted; as long as no completion fails, so is every later
      one, and the breaker is closed exactly from the `successThreshold`-th success on. */
  lemma Recovers(c: Config, h: seq<Event>, k: int, now: Time)
    requires c.Sane() && Recovering(c, h, k)
    ensures Admits(c, Replay(c, h[..k]), h[k].at) && Admits(c, Replay(c, h), now)
    ensures Replay(c, h).mode == Closed <==> Completions(h[k + 1..]) >= c.successThreshold
  {
    RecoveryState(c, h, k);
    var i :| StillOpen(c, h[..k], i) && h[k].at >= h[i].at + c.timeout;
    StillOpenIsOpen(c, h[..k], i);
  }
}
