/** How many tweets of a job are left: all but those flagged by the filters, passed over, scored, or closed without a
  score. */
module FlowClosed {
  import opened Pipeline
  import opened PipelineLinks
  import opened PipelineFlow
  import opened FlowPlaces
  import opened FlowTally

  predicate IsClosed(place: map<Occurrence, Place>, o: Occurrence) {
    o in place && (place[o].Unscored? || place[o].ScoreFailed?)
  }

  /** Positions below `n` of tweets closed without a score. */
  function ClosedAt(place: map<Occurrence, Place>, id: JobId, n: nat): set<nat> {
    set i: nat | i < n && IsClosed(place, Occ(id, i))
  }

  ghost predicate ClosedCounted(v: Flow, id: JobId) {
    ClosedIn(v.closed, id) == |ClosedAt(v.place, id, Length(v, id))|
  }

  ghost predicate ClosedOk(v: Flow) {
    forall id {:trigger ClosedCounted(v, id)} :: ClosedCounted(v, id)
  }

  lemma ClosedAtStart(s: State)
    requires Init(s)
    ensures ClosedOk(FlowOf(s))
  {
    forall id ensures ClosedCounted(FlowOf(s), id) {
      assert ClosedAt(map[], id, 0) == {};
    }
  }

  /** No tweet is closed. */
  ghost predicate NoneClosed(v: Flow, v': Flow) {
    && v'.archive == v.archive && v'.closed == v.closed
    && forall o :: IsClosed(v'.place, o) <==> IsClosed(v.place, o)
  }

  lemma NoneClosedKeeps(v: Flow, v': Flow)
    requires ClosedOk(v) && NoneClosed(v, v')
    ensures ClosedOk(v')
  {
    forall id ensures ClosedCounted(v', id) {
      assert ClosedCounted(v, id);
      assert ClosedAt(v'.place, id, Length(v', id)) == ClosedAt(v.place, id, Length(v, id));
    }
  }

  lemma OneClosedKeeps(v: Flow, o: Occurrence, p: Place, v': Flow)
    requires ClosedOk(v) && o in v.place && !IsClosed(v.place, o) && (p.Unscored? || p.ScoreFailed?)
    requires v'.archive == v.archive && o.pos < Length(v, o.job) && v'.place == v.place[o := p]
    requires v'.closed == v.closed[o.job := ClosedIn(v.closed, o.job) + 1]
    ensures ClosedOk(v')
  {
    forall id ensures ClosedCounted(v', id) {
      assert ClosedCounted(v, id);
      assert ClosedAt(v'.place, id, Length(v', id))
          == ClosedAt(v.place, id, Length(v, id)) + if id == o.job then {o.pos} else {};
    }
  }

  lemma UnpackKeepsClosed(v: Flow, id: JobId, tweets: seq<Tweet>)
    requires Conserved(v) && ClosedOk(v) && Enabled(v, Unpack(id, tweets))
    ensures ClosedOk(Apply(v, Unpack(id, tweets)))
  {
    var v' := Apply(v, Unpack(id, tweets));
    forall k ensures ClosedCounted(v', k) {
      assert ClosedCounted(v, k);
      assert ClosedAt(v'.place, k, Length(v', k)) == ClosedAt(v.place, k, Length(v, k));
    }
  }

  lemma HandClosesNone(v: Flow, e: Event)
    requires Conserved(v) && Enabled(v, e) && (e.Take? || e.SendBack? || e.Abandon?)
    ensures NoneClosed(v, Apply(v, e))
  {
    var q := if e.Take? then v.tweetQ[0] else v.stage.q;
    assert q in v.place && PlaceFits(v.track, v.tweetQ, v.stage, q, v.place[q]);
  }

  /** A tweet that is not closed changes to a place that does not close it. */
  lemma NotClosing(v: Flow, o: Occurrence, p: Place, v': Flow)
    requires o in v.place && !IsClosed(v.place, o) && !p.Unscored? && !p.ScoreFailed?
    requires v'.archive == v.archive && v'.closed == v.closed && v'.place == v.place[o := p]
    ensures NoneClosed(v, v')
  {
  }

  lemma LoopClosesNone(v: Flow, e: Event)
    requires Conserved(v) && Enabled(v, e)
    requires e.FilterFlags? || e.FlagDone? || e.MarkForScorer? || e.PassOver? || e.Send?
    ensures NoneClosed(v, Apply(v, e))
  {
    var o := Current(v);
    assert PlaceFits(v.track, v.tweetQ, v.stage, o, v.place[o]);
    NotClosing(v, o, Apply(v, e).place[o], Apply(v, e));
  }

  lemma FinishKeepsClosed(v: Flow, ok: bool)
    requires Conserved(v) && ClosedOk(v) && Enabled(v, Finish(ok))
    ensures ClosedOk(Apply(v, Finish(ok)))
  {
    var q, v' := v.stage.q, Apply(v, Finish(ok));
    assert PlaceFits(v.track, v.tweetQ, v.stage, q, v.place[q]);
    if v.stage.Flagged? {
      NoneClosedKeeps(v, v');
    } else {
      OneClosedKeeps(v, q, ScoreFailed, v');
    }
  }

  lemma UnscoredKeepsClosed(v: Flow, ok: bool)
    requires Conserved(v) && ClosedOk(v) && Enabled(v, PassUnscored(ok))
    ensures ClosedOk(Apply(v, PassUnscored(ok)))
  {
    assert PlaceFits(v.track, v.tweetQ, v.stage, Current(v), v.place[Current(v)]);
    OneClosedKeeps(v, Current(v), Unscored, Apply(v, PassUnscored(ok)));
  }

  lemma EventKeepsClosed(v: Flow, e: Event)
    requires Conserved(v) && ClosedOk(v) && Enabled(v, e)
    ensures ClosedOk(Apply(v, e))
  {
    if e.Unpack? {
      UnpackKeepsClosed(v, e.id, e.tweets);
    } else if e.Finish? {
      FinishKeepsClosed(v, e.ok);
    } else if e.PassUnscored? {
      UnscoredKeepsClosed(v, e.ok);
    } else {
      if e.Take? || e.SendBack? || e.Abandon? {
        HandClosesNone(v, e);
      } else if e.FilterFlags? || e.FlagDone? || e.MarkForScorer? || e.PassOver? || e.Send? {
        LoopClosesNone(v, e);
      } else {
        assert Apply(v, e).place == v.place;
      }
      NoneClosedKeeps(v, Apply(v, e));
    }
  }

  // ------------------------------------------------------------------ what is left

  /** Phase 2 has yet to decide on the tweet, or it has still to be scored. */
  predicate IsLeft(place: map<Occurrence, Place>, o: Occurrence) {
    o in place && match place[o]
                  case Unfiltered => true
                  case InJobHand => true
                  case InChannel => true
                  case InTweetHand => true
                  case Dropped => true
                  case _ => false
  }

  function LeftAt(place: map<Occurrence, Place>, id: JobId, n: nat): set<nat> {
    set i: nat | i < n && IsLeft(place, Occ(id, i))
  }

  function One(b: bool): nat {
    if b then 1 else 0
  }

  lemma OneMoreOfKind(place: map<Occurrence, Place>, id: JobId, n: nat, kind: Kind)
    ensures |OfKind(place, id, 0, kind)| == 0
    ensures |OfKind(place, id, n + 1, kind)| == |OfKind(place, id, n, kind)| + One(IsKind(place, Occ(id, n), kind))
  {
    assert OfKind(place, id, 0, kind) == {};
    assert OfKind(place, id, n + 1, kind)
        == OfKind(place, id, n, kind) + if IsKind(place, Occ(id, n), kind) then {n} else {};
  }

  lemma OneMoreClosed(place: map<Occurrence, Place>, id: JobId, n: nat)
    ensures |ClosedAt(place, id, 0)| == 0
    ensures |ClosedAt(place, id, n + 1)| == |ClosedAt(place, id, n)| + One(IsClosed(place, Occ(id, n)))
  {
    assert ClosedAt(place, id, 0) == {};
    assert ClosedAt(place, id, n + 1) == ClosedAt(place, id, n) + if IsClosed(place, Occ(id, n)) then {n} else {};
  }

  lemma OneMoreLeft(place: map<Occurrence, Place>, id: JobId, n: nat)
    ensures |LeftAt(place, id, 0)| == 0
    ensures |LeftAt(place, id, n + 1)| == |LeftAt(place, id, n)| + One(IsLeft(place, Occ(id, n)))
  {
    assert LeftAt(place, id, 0) == {};
    assert LeftAt(place, id, n + 1) == LeftAt(place, id, n) + if IsLeft(place, Occ(id, n)) then {n} else {};
  }

  function Sorted(place: map<Occurrence, Place>, id: JobId, n: nat): nat {
    |OfKind(place, id, n, ByFilters)| + |OfKind(place, id, n, PassedOver)| + |OfKind(place, id, n, ByScorer)|
    + |ClosedAt(place, id, n)| + |LeftAt(place, id, n)|
  }

  /** The five sorts of tweets are all tweets. */
  lemma {:induction false} Partition(place: map<Occurrence, Place>, id: JobId, n: nat)
    requires forall i: nat :: i < n ==> Occ(id, i) in place
    ensures Sorted(place, id, n) == n
  {
    var m := if n == 0 then 0 else n - 1;
    OneMoreOfKind(place, id, m, ByFilters);
    OneMoreOfKind(place, id, m, PassedOver);
    OneMoreOfKind(place, id, m, ByScorer);
    OneMoreClosed(place, id, m);
    OneMoreLeft(place, id, m);
    if n == 0 {
    } else {
      Partition(place, id, m);
      assert Occ(id, m) in place;
    }
  }

  /** Of an archive of `n` tweets as many are left as its events leave. */
  lemma LeftCounted(v: Flow, id: JobId)
    requires Conserved(v) && TalliesOk(v) && ClosedOk(v) && id in v.archive
    ensures var t, n := v.tally[id], Length(v, id);
            |LeftAt(v.place, id, n)| + t.filterFlags + t.skipped + t.scored + ClosedIn(v.closed, id)
            == n + |HandScored(v.stage, id)|
  {
    Partition(v.place, id, Length(v, id));
    assert TalliedJob(v, id) && ClosedCounted(v, id);
    CurrentIsPlain(v, Stutter);
    assert OfKind(v.place, id, Length(v, id), ByScorer) !! HandScored(v.stage, id);
  }
}
