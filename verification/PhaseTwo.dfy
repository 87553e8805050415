/** Phase 2 as a whole: what becomes of each tweet depends on its text, the job's criteria, the policy and the mark on
  its row alone; and from that, position by position, what the loop leaves. */
module PhaseTwoTheorems {
  import opened Model
  import opened Pipeline
  import opened Workers
  import Filters

  /** Flagged by the filters, queued for the scorer, closed without one, or passed over since it could not be marked. */
  datatype Lot = Caught | Sent | Closed | Missed

  function LotOf(criteria: Option<Criteria>, t: Tweet, around: Surroundings, i: nat): Lot {
    if criteria.Some? && Filters.FilterVerdict(around.policy, t.text).Some? then Caught
    else if !around.hasScorer then Closed
    else if around.marks(i) then Sent
    else Missed
  }

  /** The positions before `n` with that lot, in order. */
  function With(lot: Lot, criteria: Option<Criteria>, tweets: seq<Tweet>, around: Surroundings, n: nat): seq<nat>
    requires n <= |tweets|
  {
    if n == 0 then []
    else
      With(lot, criteria, tweets, around, n - 1)
      + if LotOf(criteria, tweets[n - 1], around, n - 1) == lot then [n - 1] else []
  }

  predicate InRange(positions: seq<nat>, n: nat) {
    forall i :: 0 <= i < |positions| ==> positions[i] < n
  }

  function Queued(id: JobId, positions: seq<nat>): seq<Occurrence> {
    seq(|positions|, i requires 0 <= i < |positions| => Occ(id, positions[i]))
  }

  /** The flagged rows of those positions whose write succeeds. */
  function FlaggedAt(id: JobId, tweets: seq<Tweet>, around: Surroundings, positions: seq<nat>): seq<FlaggedRow>
    requires InRange(positions, |tweets|)
  {
    if positions == [] then []
    else
      var before, i := positions[..|positions| - 1], positions[|positions| - 1];
      FlaggedAt(id, tweets, around, before)
      + if around.saves(i) then [FlaggedRow(Occ(id, i), tweets[i].id, false)] else []
  }

  lemma {:induction false} WithInRange(lot: Lot, criteria: Option<Criteria>, tweets: seq<Tweet>, around: Surroundings,
                                       n: nat)
    requires n <= |tweets|
    ensures InRange(With(lot, criteria, tweets, around, n), n)
  {
    if n == 0 {
    } else {
      WithInRange(lot, criteria, tweets, around, n - 1);
    }
  }

  /** The loop has come to position `n` without waiting. */
  ghost predicate After(p: PhaseTwo, tweets: seq<Tweet>, around: Surroundings, n: nat, q: PhaseTwo)
    requires n <= |tweets|
  {
    var id, c := p.job.id, p.job.criteria;
    var caught, sent := With(Caught, c, tweets, around, n), With(Sent, c, tweets, around, n);
    && !q.blocked && q.next == n
    && q.flags == |caught| && q.needsGemini == |sent|
    && q.queue == p.queue + Queued(id, sent)
    && InRange(caught, |tweets|) && q.flagged == p.flagged + FlaggedAt(id, tweets, around, caught)
    && q.job == p.job.(processed := q.job.processed, flagged := q.job.flagged, updatedAt := q.job.updatedAt)
    && q.job.processed == p.job.processed + n - |With(Missed, c, tweets, around, n)|
  }

  /** One report for each multiple of 100 that the count has come to, and no other. */
  predicate ReportsFit(from: nat, to: int, reports: seq<Job>) {
    && |reports| == to / 100 - from / 100
    && forall i :: 0 <= i < |reports| ==> reports[i].processed == 100 * (from / 100 + 1 + i)
  }

  /** There has been room for all tweets sent. */
  predicate Roomy(p: PhaseTwo, around: Surroundings, sent: seq<nat>) {
    sent != [] ==> |p.queue| + |sent| <= around.queueSize
  }

  ghost predicate Start(p: PhaseTwo) {
    p.next == 0 && p.flags == 0 && p.needsGemini == 0 && p.reports == [] && !p.blocked && p.job.processed >= 0
  }

  lemma QueuedOn(id: JobId, positions: seq<nat>, i: nat)
    ensures Queued(id, positions + [i]) == Queued(id, positions) + [Occ(id, i)]
  {
  }

  lemma FlaggedOn(id: JobId, tweets: seq<Tweet>, around: Surroundings, positions: seq<nat>, i: nat)
    requires i < |tweets| && InRange(positions, |tweets|)
    ensures FlaggedAt(id, tweets, around, positions + [i])
            == FlaggedAt(id, tweets, around, positions)
               + if around.saves(i) then [FlaggedRow(Occ(id, i), tweets[i].id, false)] else []
  {
    assert (positions + [i])[..|positions|] == positions;
  }

  lemma TurnGoesOn(p: PhaseTwo, tweets: seq<Tweet>, around: Surroundings, n: nat, q: PhaseTwo)
    requires n < |tweets| && After(p, tweets, around, n, q) && !SendWaits(q, tweets[n], around)
    ensures After(p, tweets, around, n + 1, Turn(q, tweets[n], around))
  {
    var id, c := p.job.id, p.job.criteria;
    WithInRange(Caught, c, tweets, around, n + 1);
    QueuedOn(id, With(Sent, c, tweets, around, n), n);
    FlaggedOn(id, tweets, around, With(Caught, c, tweets, around, n), n);
    var caught, lot := With(Caught, c, tweets, around, n), LotOf(c, tweets[n], around, n);
    assert With(Caught, c, tweets, around, n + 1) == if lot == Caught then caught + [n] else caught;
    var rows := FlaggedAt(id, tweets, around, caught);
    assert p.flagged + (rows + [FlaggedRow(Occ(id, n), tweets[n].id, false)])
        == p.flagged + rows + [FlaggedRow(Occ(id, n), tweets[n].id, false)];
    assert rows + [] == rows;
    var sent := With(Sent, c, tweets, around, n);
    assert With(Sent, c, tweets, around, n + 1) == if lot == Sent then sent + [n] else sent;
    assert p.queue + (Queued(id, sent) + [Occ(id, n)]) == p.queue + Queued(id, sent) + [Occ(id, n)];
  }

  lemma TurnReports(from: nat, q: PhaseTwo, t: Tweet, around: Surroundings)
    requires ReportsFit(from, q.job.processed, q.reports) && from <= q.job.processed && !SendWaits(q, t, around)
    ensures var r := Turn(q, t, around); from <= r.job.processed && ReportsFit(from, r.job.processed, r.reports)
  {
    var x, y := q.job.processed, q.job.processed + 1;
    assert y / 100 == if y % 100 == 0 then x / 100 + 1 else x / 100;
    assert y % 100 == 0 ==> y == 100 * (y / 100);
    var r := Turn(q, t, around);
    if r.job.processed == y && y % 100 == 0 {
      assert r.reports == q.reports + [r.job];
    }
  }

  lemma WaitsIff(p: PhaseTwo, tweets: seq<Tweet>, around: Surroundings, n: nat, q: PhaseTwo)
    requires n < |tweets| && After(p, tweets, around, n, q)
    ensures SendWaits(q, tweets[n], around)
            <==> LotOf(p.job.criteria, tweets[n], around, n) == Sent
                 && |p.queue| + |With(Sent, p.job.criteria, tweets, around, n)| >= around.queueSize
  {
  }

  lemma {:induction false} MoreAreSent(criteria: Option<Criteria>, tweets: seq<Tweet>, around: Surroundings, n: nat)
    requires n < |tweets|
    ensures |With(Sent, criteria, tweets, around, n + 1)| >= |With(Sent, criteria, tweets, around, n)|
  {
  }

  lemma {:induction false} TurnsExactly(p: PhaseTwo, tweets: seq<Tweet>, around: Surroundings, n: nat)
    requires Start(p) && n <= |tweets|
    ensures var q, sent := Turns(p, tweets, around, n), With(Sent, p.job.criteria, tweets, around, n);
            && (q.blocked <==> !Roomy(p, around, sent))
            && p.job.processed <= q.job.processed && ReportsFit(p.job.processed, q.job.processed, q.reports)
            && (!q.blocked ==> After(p, tweets, around, n, q))
  {
    if n == 0 {
    } else {
      TurnsExactly(p, tweets, around, n - 1);
      LastTurn(p, tweets, around, n - 1);
      var q := Turns(p, tweets, around, n - 1);
      if !q.blocked {
        OneMoreTurn(p, tweets, around, n - 1, q);
      }
    }
  }

  lemma OneMoreTurn(p: PhaseTwo, tweets: seq<Tweet>, around: Surroundings, n: nat, q: PhaseTwo)
    requires Start(p) && n < |tweets| && After(p, tweets, around, n, q)
    requires Roomy(p, around, With(Sent, p.job.criteria, tweets, around, n))
    requires p.job.processed <= q.job.processed && ReportsFit(p.job.processed, q.job.processed, q.reports)
    ensures var r, sent := Turn(q, tweets[n], around), With(Sent, p.job.criteria, tweets, around, n + 1);
            && (r.blocked <==> !Roomy(p, around, sent))
            && p.job.processed <= r.job.processed && ReportsFit(p.job.processed, r.job.processed, r.reports)
            && (!r.blocked ==> After(p, tweets, around, n + 1, r))
  {
    WaitsIff(p, tweets, around, n, q);
    if !SendWaits(q, tweets[n], around) {
      TurnGoesOn(p, tweets, around, n, q);
      TurnReports(p.job.processed, q, tweets[n], around);
    }
  }

  /** Phase 2 of a job, position by position.  It waits exactly if the channel cannot take all that is to be sent.
      If it does not wait, the tweets that the filters catch are flagged, in order, where the write succeeds; those
      let pass are in the channel, in order; every tweet is counted but those that could not be marked; and there is
      one report for each multiple of 100 that the count comes to. */
  lemma PhaseTwoExactly(p: PhaseTwo, tweets: seq<Tweet>, around: Surroundings)
    requires Start(p)
    ensures var q, c, n := Turns(p, tweets, around, |tweets|), p.job.criteria, |tweets|;
            var caught, sent := With(Caught, c, tweets, around, n), With(Sent, c, tweets, around, n);
            && InRange(caught, n)
            && (q.blocked <==> sent != [] && |p.queue| + |sent| > around.queueSize)
            && ReportsFit(p.job.processed, q.job.processed, q.reports)
            && (!q.blocked ==>
                  && q.flags == |caught| && q.needsGemini == |sent| && q.queue == p.queue + Queued(p.job.id, sent)
                  && q.flagged == p.flagged + FlaggedAt(p.job.id, tweets, around, caught)
                  && q.job.processed == p.job.processed + n - |With(Missed, c, tweets, around, n)|)
  {
    TurnsExactly(p, tweets, around, |tweets|);
    WithInRange(Caught, p.job.criteria, tweets, around, |tweets|);
  }
}
