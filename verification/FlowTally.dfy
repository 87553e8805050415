/** The events counted for a job are the tweets of its archive in the places those events lead to. */
module FlowTally {
  import opened Pipeline
  import opened PipelineLinks
  import opened PipelineFlow
  import opened FlowPlaces

  datatype Kind = Plain | ByFilters | PassedOver | ByScorer

  function KindOf(p: Place): Kind {
    if p.Flagging? || p.FilterFlagged? then ByFilters
    else if p.Skipped? then PassedOver
    else if p.Scored? then ByScorer
    else Plain
  }

  predicate IsKind(place: map<Occurrence, Place>, o: Occurrence, kind: Kind) {
    o in place && KindOf(place[o]) == kind
  }

  /** Positions below `n` whose tweets are in places of a kind. */
  function OfKind(place: map<Occurrence, Place>, id: JobId, n: nat, kind: Kind): set<nat> {
    set i: nat | i < n && IsKind(place, Occ(id, i), kind)
  }

  /** The position scored in the tweet loop's hand. */
  function HandScored(stage: HandStage, id: JobId): set<nat> {
    if (stage.Unflagged? || stage.Flagged?) && stage.q.job == id then {stage.q.pos} else {}
  }

  /** How many tweets phase 2 has come past. */
  function Progress(track: JobTrack, id: JobId, n: nat): nat {
    if track.Saving? && track.id == id then 0
    else if track.Looping? && track.id == id then track.next
    else n
  }

  ghost predicate JobTallied(t: Tally, id: JobId, n: nat, place: map<Occurrence, Place>, track: JobTrack,
                             stage: HandStage) {
    && t.filterFlags == |OfKind(place, id, n, ByFilters)|
    && t.skipped == |OfKind(place, id, n, PassedOver)|
    && t.scoredAt == OfKind(place, id, n, ByScorer) + HandScored(stage, id)
    && t.scored == |t.scoredAt|
    && t.llmFlags <= t.scored
    && t.advanced + t.skipped == Progress(track, id, n)
  }

  ghost predicate TalliedJob(v: Flow, id: JobId) {
    id in v.tally && JobTallied(v.tally[id], id, Length(v, id), v.place, v.track, v.stage)
  }

  ghost predicate TalliesOk(v: Flow) {
    && v.archive.Keys <= v.tally.Keys
    && forall id {:trigger TalliedJob(v, id)} :: id in v.tally ==> TalliedJob(v, id)
  }

  lemma TalliedAtStart(s: State)
    requires Init(s)
    ensures TalliesOk(FlowOf(s))
  {
  }

  // ------------------------------------------------------------------ what a change of places does to the sets

  lemma Moved(place: map<Occurrence, Place>, o: Occurrence, p: Place, id: JobId, n: nat, kind: Kind)
    ensures var ps := OfKind(place, id, n, kind);
            OfKind(place[o := p], id, n, kind)
            == if o.job != id || o.pos >= n then ps else if KindOf(p) == kind then ps + {o.pos} else ps - {o.pos}
  {
  }

  ghost predicate SameKinds(place: map<Occurrence, Place>, place': map<Occurrence, Place>, id: JobId, n: nat) {
    forall i: nat, kind | i < n :: IsKind(place, Occ(id, i), kind) <==> IsKind(place', Occ(id, i), kind)
  }

  lemma JobLeft(t: Tally, id: JobId, n: nat, place: map<Occurrence, Place>, track: JobTrack, stage: HandStage,
                place': map<Occurrence, Place>, track': JobTrack, stage': HandStage)
    requires JobTallied(t, id, n, place, track, stage) && SameKinds(place, place', id, n)
    requires Progress(track', id, n) == Progress(track, id, n) && HandScored(stage', id) == HandScored(stage, id)
    ensures JobTallied(t, id, n, place', track', stage')
  {
    forall kind ensures OfKind(place', id, n, kind) == OfKind(place, id, n, kind) {
      forall i: nat | i < n ensures i in OfKind(place', id, n, kind) <==> i in OfKind(place, id, n, kind) {
        assert IsKind(place, Occ(id, i), kind) <==> IsKind(place', Occ(id, i), kind);
      }
    }
  }

  // ------------------------------------------------------------------ events

  /** Tweets may have changed places, but no event was counted or to be counted. */
  ghost predicate Alike(v: Flow, v': Flow) {
    && v'.tally == v.tally && v'.archive == v.archive
    && forall id ::
         && SameKinds(v.place, v'.place, id, Length(v, id))
         && Progress(v'.track, id, Length(v, id)) == Progress(v.track, id, Length(v, id))
         && HandScored(v'.stage, id) == HandScored(v.stage, id)
  }

  lemma AlikeKeeps(v: Flow, v': Flow)
    requires TalliesOk(v) && Alike(v, v')
    ensures TalliesOk(v')
  {
    forall id | id in v.tally ensures TalliedJob(v', id) {
      assert TalliedJob(v, id);
      JobLeft(v.tally[id], id, Length(v, id), v.place, v.track, v.stage, v'.place, v'.track, v'.stage);
    }
  }

  lemma Replaced(v: Flow, o: Occurrence, p: Place, v': Flow)
    requires o in v.place && KindOf(v.place[o]) == KindOf(p) && v'.place == v.place[o := p]
    requires v'.tally == v.tally && v'.archive == v.archive
    requires forall id :: Progress(v'.track, id, Length(v, id)) == Progress(v.track, id, Length(v, id))
    requires forall id :: HandScored(v'.stage, id) == HandScored(v.stage, id)
    ensures Alike(v, v')
  {
  }

  lemma ClosingAlike(v: Flow, e: Event)
    requires Conserved(v) && Enabled(v, e) && (e.FlagDone? || e.PassUnscored?)
    ensures Alike(v, Apply(v, e))
  {
    var o := Current(v);
    assert PlaceFits(v.track, v.tweetQ, v.stage, o, v.place[o]);
    Replaced(v, o, if e.FlagDone? then FilterFlagged else Unscored, Apply(v, e));
  }

  lemma QueueAlike(v: Flow, e: Event)
    requires Conserved(v) && Enabled(v, e) && (e.MarkForScorer? || e.Send?)
    ensures Alike(v, Apply(v, e))
  {
    var o := Current(v);
    assert PlaceFits(v.track, v.tweetQ, v.stage, o, v.place[o]);
    Replaced(v, o, if e.MarkForScorer? then InJobHand else InChannel, Apply(v, e));
  }

  lemma HandAlike(v: Flow, e: Event)
    requires Conserved(v) && Enabled(v, e) && (e.Take? || e.SendBack? || e.Abandon?)
    ensures Alike(v, Apply(v, e))
  {
    var v' := Apply(v, e);
    var q := if e.Take? then v.tweetQ[0] else v.stage.q;
    assert q in v.place && PlaceFits(v.track, v.tweetQ, v.stage, q, v.place[q]);
    Replaced(v, q, v'.place[q], v');
  }

  lemma PhaseAlike(v: Flow, e: Event)
    requires Enabled(v, e) && (e.SaveRow? || e.StartLoop? || e.EndLoop?)
    ensures Alike(v, Apply(v, e))
  {
  }

  lemma RestAlike(v: Flow, e: Event)
    requires Enabled(v, e)
    requires e.Stutter? || e.SaveRow? || e.StartLoop? || e.EndLoop? || e.NoFlagDue? || e.SaveFlag?
    ensures Alike(v, Apply(v, e))
  {
    if e.SaveRow? || e.StartLoop? || e.EndLoop? {
      PhaseAlike(v, e);
    }
  }

  // ------------------------------------------------------------------ events that count

  /** Nothing about the tweets of job `id` has changed. */
  ghost predicate JobAlike(v: Flow, id: JobId, v': Flow) {
    && id in v.tally && id in v'.tally && v'.tally[id] == v.tally[id] && Length(v', id) == Length(v, id)
    && SameKinds(v.place, v'.place, id, Length(v, id))
    && Progress(v'.track, id, Length(v, id)) == Progress(v.track, id, Length(v, id))
    && HandScored(v'.stage, id) == HandScored(v.stage, id)
  }

  /** One job's events are counted, all others are left alone. */
  lemma OneJobCounts(v: Flow, id: JobId, v': Flow)
    requires TalliesOk(v) && v'.archive.Keys <= v'.tally.Keys
    requires v'.tally.Keys == v.tally.Keys + {id} && TalliedJob(v', id)
    requires forall k {:trigger JobAlike(v, k, v')} :: k in v.tally && k != id ==> JobAlike(v, k, v')
    ensures TalliesOk(v')
  {
    forall k | k in v'.tally ensures TalliedJob(v', k) {
      if k != id {
        assert TalliedJob(v, k) && JobAlike(v, k, v');
        JobLeft(v.tally[k], k, Length(v, k), v.place, v.track, v.stage, v'.place, v'.track, v'.stage);
      } else {
        assert TalliedJob(v', id);
      }
    }
  }

  lemma OthersAlike(v: Flow, e: Event, id: JobId, k: JobId)
    requires Conserved(v) && Enabled(v, e) && k in v.tally && k != id
    requires match e
             case FilterFlags(_) => id == v.track.id
             case PassOver => id == v.track.id
             case LoopOn => id == v.track.id
             case Score(_) => id == v.stage.q.job
             case Finish(_) => id == v.stage.q.job
             case _ => false
    ensures JobAlike(v, k, Apply(v, e))
  {
  }

  /** A tweet gets into places of another kind, from places of no kind. */
  lemma KindGained(t: Tally, id: JobId, n: nat, place: map<Occurrence, Place>, track: JobTrack, stage: HandStage,
                   o: Occurrence, p: Place)
    requires JobTallied(t, id, n, place, track, stage)
    requires o.job == id && o.pos < n && IsKind(place, o, Plain) && KindOf(p) != Plain
    ensures forall kind :: OfKind(place[o := p], id, n, kind)
                           == OfKind(place, id, n, kind) + (if KindOf(p) == kind then {o.pos} else {})
                              - (if kind == Plain then {o.pos} else {})
    ensures o.pos !in OfKind(place, id, n, KindOf(p))
  {
    forall kind {
      Moved(place, o, p, id, n, kind);
    }
  }

  lemma FlagTallies(t: Tally, id: JobId, n: nat, place: map<Occurrence, Place>, track: JobTrack, stage: HandStage,
                    pos: nat, track': JobTrack)
    requires JobTallied(t, id, n, place, track, stage) && Progress(track', id, n) == Progress(track, id, n)
    requires pos < n && IsKind(place, Occ(id, pos), Plain)
    ensures JobTallied(t.(filterFlags := t.filterFlags + 1), id, n, place[Occ(id, pos) := Flagging], track', stage)
  {
    KindGained(t, id, n, place, track, stage, Occ(id, pos), Flagging);
  }

  lemma FlagCounts(v: Flow, ok: bool)
    requires TalliedJob(v, Current(v).job) && Enabled(v, FilterFlags(ok)) && IsKind(v.place, Current(v), Plain)
    ensures TalliedJob(Apply(v, FilterFlags(ok)), Current(v).job)
  {
    var id, i := v.track.id, v.track.next;
    FlagTallies(v.tally[id], id, Length(v, id), v.place, v.track, v.stage, i, Looping(id, i, FlagHand));
  }

  lemma SkipTallies(t: Tally, id: JobId, n: nat, place: map<Occurrence, Place>, track: JobTrack, stage: HandStage,
                    pos: nat, track': JobTrack)
    requires JobTallied(t, id, n, place, track, stage) && Progress(track', id, n) == Progress(track, id, n) + 1
    requires pos < n && IsKind(place, Occ(id, pos), Plain)
    ensures JobTallied(t.(skipped := t.skipped + 1), id, n, place[Occ(id, pos) := Skipped], track', stage)
  {
    KindGained(t, id, n, place, track, stage, Occ(id, pos), Skipped);
  }

  lemma PassOverCounts(v: Flow)
    requires TalliedJob(v, Current(v).job) && Enabled(v, PassOver) && IsKind(v.place, Current(v), Plain)
    ensures TalliedJob(Apply(v, PassOver), Current(v).job)
  {
    var id, i := v.track.id, v.track.next;
    SkipTallies(v.tally[id], id, Length(v, id), v.place, v.track, v.stage, i, Looping(id, i + 1, NoHand));
  }

  lemma LoopOnCounts(v: Flow)
    requires TalliedJob(v, Current(v).job) && Enabled(v, LoopOn)
    ensures TalliedJob(Apply(v, LoopOn), Current(v).job)
  {
  }

  lemma ScoreCounts(v: Flow, flag: bool)
    requires Enabled(v, Score(flag)) && TalliedJob(v, v.stage.q.job) && IsKind(v.place, v.stage.q, Plain)
    ensures TalliedJob(Apply(v, Score(flag)), v.stage.q.job)
  {
    var id := v.stage.q.job;
    ScoringTallies(v.tally[id], id, Length(v, id), v.place, v.track, v.stage.q, flag);
  }

  lemma ScoringTallies(t: Tally, id: JobId, n: nat, place: map<Occurrence, Place>, track: JobTrack, q: Occurrence,
                       flag: bool)
    requires JobTallied(t, id, n, place, track, Before(q)) && q.job == id && IsKind(place, q, Plain)
    ensures JobTallied(t.(scored := t.scored + 1, scoredAt := t.scoredAt + {q.pos},
                          llmFlags := t.llmFlags + if flag then 1 else 0), id, n, place, track, Unflagged(q))
  {
    assert q.pos !in t.scoredAt;
  }

  lemma ScoredTallies(t: Tally, id: JobId, n: nat, place: map<Occurrence, Place>, track: JobTrack, pos: nat)
    requires JobTallied(t, id, n, place, track, Flagged(Occ(id, pos)))
    requires pos < n && IsKind(place, Occ(id, pos), Plain)
    ensures JobTallied(t, id, n, place[Occ(id, pos) := Scored], track, Empty)
  {
    KindGained(t, id, n, place, track, Flagged(Occ(id, pos)), Occ(id, pos), Scored);
  }

  lemma UnscoredTallies(t: Tally, id: JobId, n: nat, place: map<Occurrence, Place>, track: JobTrack, o: Occurrence)
    requires JobTallied(t, id, n, place, track, Before(o)) && IsKind(place, o, Plain)
    ensures JobTallied(t, id, n, place[o := ScoreFailed], track, Empty)
  {
    JobLeft(t, id, n, place, track, Before(o), place[o := ScoreFailed], track, Empty);
  }

  lemma FinishCounts(v: Flow, ok: bool)
    requires Enabled(v, Finish(ok)) && TalliedJob(v, v.stage.q.job) && IsKind(v.place, v.stage.q, Plain)
    requires v.stage.q.pos < Length(v, v.stage.q.job)
    ensures TalliedJob(Apply(v, Finish(ok)), v.stage.q.job)
  {
    var q := v.stage.q;
    if v.stage.Flagged? {
      ScoredTallies(v.tally[q.job], q.job, Length(v, q.job), v.place, v.track, q.pos);
    } else {
      UnscoredTallies(v.tally[q.job], q.job, Length(v, q.job), v.place, v.track, q);
    }
  }

  lemma UnpackKeepsTallies(v: Flow, id: JobId, tweets: seq<Tweet>)
    requires Conserved(v) && TalliesOk(v) && Enabled(v, Unpack(id, tweets))
    ensures TalliesOk(Apply(v, Unpack(id, tweets)))
  {
    var v' := Apply(v, Unpack(id, tweets));
    assert TalliedJob(v, id);
    UnpackCounts(v, id, tweets);
    OneJobCounts(v, id, v');
  }

  lemma UnpackCounts(v: Flow, id: JobId, tweets: seq<Tweet>)
    requires TalliedJob(v, id) && Enabled(v, Unpack(id, tweets))
    ensures TalliedJob(Apply(v, Unpack(id, tweets)), id)
  {
    var v' := Apply(v, Unpack(id, tweets));
    forall kind | kind != Plain ensures OfKind(v'.place, id, |tweets|, kind) == {} == OfKind(v.place, id, 0, kind) {
    }
  }

  lemma CountedKeeps(v: Flow, e: Event)
    requires Conserved(v) && TalliesOk(v) && Enabled(v, e)
    requires e.FilterFlags? || e.PassOver? || e.LoopOn? || e.Score? || e.Finish?
    ensures TalliesOk(Apply(v, e))
  {
    var id := if e.Score? || e.Finish? then v.stage.q.job else v.track.id;
    CountedJobs(v, e, id);
    assert TalliedJob(v, id);
    CountedOnce(v, e, id);
    CountedAlone(v, e, id);
    OneJobCounts(v, id, Apply(v, e));
  }

  lemma CountedJobs(v: Flow, e: Event, id: JobId)
    requires Conserved(v) && v.archive.Keys <= v.tally.Keys && Enabled(v, e)
    requires e.FilterFlags? || e.PassOver? || e.LoopOn? || e.Score? || e.Finish?
    requires id == if e.Score? || e.Finish? then v.stage.q.job else v.track.id
    ensures id in v.tally && Apply(v, e).tally.Keys == v.tally.Keys + {id} && Apply(v, e).archive == v.archive
  {
  }

  lemma CountedAlone(v: Flow, e: Event, id: JobId)
    requires Conserved(v) && Enabled(v, e)
    requires e.FilterFlags? || e.PassOver? || e.LoopOn? || e.Score? || e.Finish?
    requires id == if e.Score? || e.Finish? then v.stage.q.job else v.track.id
    ensures forall k {:trigger JobAlike(v, k, Apply(v, e))} :: k in v.tally && k != id ==> JobAlike(v, k, Apply(v, e))
  {
    forall k | k in v.tally && k != id ensures JobAlike(v, k, Apply(v, e)) {
      OthersAlike(v, e, id, k);
    }
  }

  lemma CurrentIsPlain(v: Flow, e: Event)
    requires Conserved(v) && Enabled(v, e)
    ensures e.FilterFlags? || e.PassOver? ==> IsKind(v.place, Current(v), Plain)
    ensures !v.stage.Empty? ==> IsKind(v.place, v.stage.q, Plain) && v.stage.q.pos < Length(v, v.stage.q.job)
  {
  }

  lemma CountedOnce(v: Flow, e: Event, id: JobId)
    requires Conserved(v) && TalliedJob(v, id) && Enabled(v, e)
    requires e.FilterFlags? || e.PassOver? || e.LoopOn? || e.Score? || e.Finish?
    requires id == if e.Score? || e.Finish? then v.stage.q.job else v.track.id
    ensures TalliedJob(Apply(v, e), id)
  {
    CurrentIsPlain(v, e);
    if e.FilterFlags? {
      FlagCounts(v, e.ok);
    } else if e.PassOver? {
      PassOverCounts(v);
    } else if e.LoopOn? {
      LoopOnCounts(v);
    } else if e.Score? {
      ScoreCounts(v, e.flag);
    } else {
      FinishCounts(v, e.ok);
    }
  }

  lemma SubmitKeepsTallies(v: Flow, id: JobId)
    requires Conserved(v) && TalliesOk(v) && Enabled(v, Submit(id))
    ensures TalliesOk(Apply(v, Submit(id)))
  {
    OneJobCounts(v, id, Apply(v, Submit(id)));
  }

  lemma EventKeepsTallies(v: Flow, e: Event)
    requires Conserved(v) && TalliesOk(v) && Enabled(v, e)
    ensures TalliesOk(Apply(v, e))
  {
    if e.Submit? {
      SubmitKeepsTallies(v, e.id);
    } else if e.Unpack? {
      UnpackKeepsTallies(v, e.id, e.tweets);
    } else if e.FilterFlags? || e.PassOver? || e.LoopOn? || e.Score? || e.Finish? {
      CountedKeeps(v, e);
    } else {
      UncountedKeeps(v, e);
    }
  }

  lemma UncountedKeeps(v: Flow, e: Event)
    requires Conserved(v) && TalliesOk(v) && Enabled(v, e)
    requires !e.Submit? && !e.Unpack? && !e.FilterFlags? && !e.PassOver? && !e.LoopOn? && !e.Score? && !e.Finish?
    ensures TalliesOk(Apply(v, e))
  {
    if e.FlagDone? || e.PassUnscored? {
      ClosingAlike(v, e);
    } else if e.MarkForScorer? || e.Send? {
      QueueAlike(v, e);
    } else if e.Take? || e.SendBack? || e.Abandon? {
      HandAlike(v, e);
    } else {
      RestAlike(v, e);
    }
    AlikeKeeps(v, Apply(v, e));
  }

  // ------------------------------------------------------------------ bounds

  function Below(n: nat): (r: set<nat>)
    ensures |r| == n && forall i :: i in r <==> 0 <= i < n
  {
    if n == 0 then {} else Below(n - 1) + {n - 1}
  }

  lemma {:induction false} SmallerSet<T>(a: set<T>, b: set<T>)
    requires a <= b
    ensures |a| <= |b|
  {
    if a == {} {
    } else {
      var x :| x in a;
      SmallerSet(a - {x}, b - {x});
    }
  }

  lemma JobBounded(t: Tally, id: JobId, n: nat, place: map<Occurrence, Place>, track: JobTrack, stage: HandStage)
    requires JobTallied(t, id, n, place, track, stage)
    requires !stage.Empty? && stage.q.job == id ==> IsKind(place, stage.q, Plain) && stage.q.pos < n
    ensures t.scored <= n && t.filterFlags + t.llmFlags <= n
  {
    var byFilters := OfKind(place, id, n, ByFilters);
    assert byFilters !! t.scoredAt;
    SmallerSet(byFilters + t.scoredAt, Below(n));
  }

  /** No tweet is both flagged by the filters and scored, and none is scored twice. */
  lemma EventsBounded(v: Flow, id: JobId)
    requires Conserved(v) && TalliesOk(v) && id in v.tally
    ensures var t, n := v.tally[id], Length(v, id);
            t.scored <= n && t.filterFlags + t.llmFlags <= n && t.advanced + t.skipped <= n
  {
    assert TalliedJob(v, id);
    CurrentIsPlain(v, Stutter);
    JobBounded(v.tally[id], id, Length(v, id), v.place, v.track, v.stage);
  }
}
