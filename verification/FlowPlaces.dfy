/** Conservation of tweets: each occurrence of a parsed archive is in exactly one place, and the place says
  where it really is. */
module FlowPlaces {
  import opened Pipeline
  import opened PipelineLinks
  import opened PipelineFlow

  /** The occurrences of the archives parsed so far, and no others, have a place. */
  ghost predicate Located(archive: Archive, place: map<Occurrence, Place>) {
    forall o :: o in place <==> o.job in archive && o.pos < |archive[o.job]|
  }

  ghost predicate TrackFits(archive: Archive, track: JobTrack) {
    match track
    case NoTrack => true
    case Saving(id, i) => id in archive && i <= |archive[id]|
    case Looping(id, i, hand) => id in archive && i <= |archive[id]| && (hand != NoHand ==> i < |archive[id]|)
  }

  /** Phase 2 has not come to this tweet. */
  predicate Untouched(track: JobTrack, o: Occurrence) {
    || (track.Saving? && track.id == o.job)
    || (track.Looping? && track.id == o.job && (o.pos > track.next || (o.pos == track.next && track.hand == NoHand)))
  }

  predicate InHand(stage: HandStage, o: Occurrence) {
    !stage.Empty? && stage.q == o
  }

  predicate PlaceFits(track: JobTrack, tweetQ: seq<Occurrence>, stage: HandStage, o: Occurrence, p: Place) {
    && (p.Unfiltered? <==> Untouched(track, o))
    && (p.Flagging? <==> track == Looping(o.job, o.pos, FlagHand))
    && (p.InJobHand? <==> track == Looping(o.job, o.pos, MarkHand))
    && (p.InChannel? <==> o in tweetQ)
    && (p.InTweetHand? <==> InHand(stage, o))
  }

  ghost predicate AllFit(v: Flow) {
    forall o :: o in v.place ==> PlaceFits(v.track, v.tweetQ, v.stage, o, v.place[o])
  }

  ghost predicate Conserved(v: Flow) {
    && Located(v.archive, v.place) && TrackFits(v.archive, v.track) && AllFit(v)
    && (forall o :: o in v.tweetQ ==> o in v.place)
    && Distinct(v.tweetQ)
    && (v.stage.Empty? || v.stage.q in v.place)
  }

  lemma ConservedAtStart(s: State)
    requires Init(s)
    ensures Conserved(FlowOf(s))
  {
  }

  // ------------------------------------------------------------------ the job loop

  lemma UnpackConserves(v: Flow, id: JobId, tweets: seq<Tweet>)
    requires Conserved(v) && Enabled(v, Unpack(id, tweets))
    ensures Conserved(Apply(v, Unpack(id, tweets)))
  {
  }

  /** Places nothing else points to. */
  predicate Settled(p: Place) {
    p.FilterFlagged? || p.Unscored? || p.Skipped? || p.Scored? || p.ScoreFailed? || p.Dropped?
  }

  /** The tweet the phase-2 loop is at changes places within the loop. */
  lemma LoopStep(v: Flow, p: Place, hand: JobHand, v': Flow)
    requires Conserved(v) && v.track.Looping? && v.track.next < Length(v, v.track.id) && v.track.hand != Passed
    requires match hand
             case NoHand => false
             case FlagHand => p.Flagging?
             case MarkHand => p.InJobHand?
             case Passed => Settled(p)
    requires v'.archive == v.archive && v'.tweetQ == v.tweetQ && v'.stage == v.stage
    requires v'.place == v.place[Current(v) := p] && v'.track == Looping(v.track.id, v.track.next, hand)
    ensures Conserved(v')
  {
    assert PlaceFits(v.track, v.tweetQ, v.stage, Current(v), v.place[Current(v)]);
  }

  lemma FlagsConserve(v: Flow, e: Event)
    requires Conserved(v) && Enabled(v, e) && (e.FilterFlags? || e.FlagDone?)
    ensures Conserved(Apply(v, e))
  {
    if e.FilterFlags? {
      LoopStep(v, Flagging, FlagHand, Apply(v, e));
    } else {
      LoopStep(v, FilterFlagged, Passed, Apply(v, e));
    }
  }

  lemma LoopConserves(v: Flow, e: Event)
    requires Conserved(v) && Enabled(v, e)
    requires e.FilterFlags? || e.FlagDone? || e.MarkForScorer? || e.PassUnscored?
    ensures Conserved(Apply(v, e))
  {
    if e.FilterFlags? || e.FlagDone? {
      FlagsConserve(v, e);
    } else if e.MarkForScorer? {
      LoopStep(v, InJobHand, MarkHand, Apply(v, e));
    } else {
      LoopStep(v, Unscored, Passed, Apply(v, e));
    }
  }

  lemma LoopMovesConserve(v: Flow, e: Event)
    requires Conserved(v) && Enabled(v, e) && (e.SaveRow? || e.StartLoop? || e.EndLoop?)
    ensures Conserved(Apply(v, e))
  {
    if e.SaveRow? {
      assert Apply(v, e).place == v.place && Apply(v, e).archive == v.archive;
    } else {
      assert Apply(v, e) == v.(track := Apply(v, e).track);
    }
  }

  lemma PassOverConserves(v: Flow)
    requires Conserved(v) && Enabled(v, PassOver)
    ensures Conserved(Apply(v, PassOver))
  {
  }

  lemma NextTweet(v: Flow, v': Flow)
    requires Conserved(v) && v.track.Looping? && v.track.hand == Passed
    requires v'.archive == v.archive && v'.tweetQ == v.tweetQ && v'.stage == v.stage && v'.place == v.place
    requires v'.track == Looping(v.track.id, v.track.next + 1, NoHand)
    ensures Conserved(v')
  {
  }

  lemma SendConserves(v: Flow)
    requires Conserved(v) && Enabled(v, Send)
    ensures Conserved(Apply(v, Send))
  {
    assert Current(v) !in v.tweetQ;
  }

  // ------------------------------------------------------------------ the tweet loop

  lemma TakeConserves(v: Flow)
    requires Conserved(v) && Enabled(v, Take)
    ensures Conserved(Apply(v, Take))
  {
  }

  lemma SendBackConserves(v: Flow)
    requires Conserved(v) && Enabled(v, SendBack)
    ensures Conserved(Apply(v, SendBack))
  {
  }

  /** The tweet in the tweet loop's hand is done with. */
  lemma HandEmptied(v: Flow, p: Place, v': Flow)
    requires Conserved(v) && !v.stage.Empty? && v'.stage == Empty && Settled(p)
    requires v'.archive == v.archive && v'.tweetQ == v.tweetQ && v'.track == v.track
    requires v'.place == v.place[v.stage.q := p]
    ensures Conserved(v')
  {
  }

  lemma HandKept(v: Flow, v': Flow)
    requires Conserved(v) && !v.stage.Empty? && !v'.stage.Empty? && v'.stage.q == v.stage.q
    requires v'.archive == v.archive && v'.tweetQ == v.tweetQ && v'.track == v.track && v'.place == v.place
    ensures Conserved(v')
  {
  }

  lemma FinishConserves(v: Flow, ok: bool)
    requires Conserved(v) && Enabled(v, Finish(ok))
    ensures Conserved(Apply(v, Finish(ok)))
  {
    HandEmptied(v, if v.stage.Flagged? then Scored else ScoreFailed, Apply(v, Finish(ok)));
  }

  lemma HandConserves(v: Flow, e: Event)
    requires Conserved(v) && Enabled(v, e)
    requires e.Score? || e.NoFlagDue? || e.SaveFlag? || e.Finish? || e.Abandon?
    ensures Conserved(Apply(v, e))
  {
    if e.Finish? {
      FinishConserves(v, e.ok);
    } else if e.Abandon? {
      HandEmptied(v, Dropped, Apply(v, e));
    } else {
      HandKept(v, Apply(v, e));
    }
  }

  lemma EventConserves(v: Flow, e: Event)
    requires Conserved(v) && Enabled(v, e)
    ensures Conserved(Apply(v, e))
  {
    if e.Unpack? {
      UnpackConserves(v, e.id, e.tweets);
    } else if e.FilterFlags? || e.FlagDone? || e.MarkForScorer? || e.PassUnscored? {
      LoopConserves(v, e);
    } else if e.SaveRow? || e.StartLoop? || e.EndLoop? {
      LoopMovesConserve(v, e);
    } else if e.PassOver? {
      PassOverConserves(v);
    } else if e.LoopOn? {
      NextTweet(v, Apply(v, e));
    } else if e.Send? {
      SendConserves(v);
    } else if e.Take? {
      TakeConserves(v);
    } else if e.SendBack? {
      SendBackConserves(v);
    } else if !e.Stutter? && !e.Submit? {
      HandConserves(v, e);
    }
  }
}
