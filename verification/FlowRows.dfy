/** What the tables say about tweets: flagged rows never outnumber the tweets they are about, and the rows of
  tweets that await the scorer are those of the tweets that really do. */
module FlowRows {
  import opened Pipeline
  import opened PipelineLinks
  import opened PipelineFlow
  import opened FlowPlaces
  import opened FlowTally

  // ------------------------------------------------------------------ flagged rows

  predicate FlagFits(v: Flow, row: FlaggedRow) {
    && row.tweet == TweetIn(v.archive, row.source).id
    && row.source in v.place
    && (if row.byScorer then IsKind(v.place, row.source, ByScorer) || v.stage == Flagged(row.source)
        else IsKind(v.place, row.source, ByFilters))
  }

  /** Each tweet is flagged at most once, and stays where its flag put it. */
  ghost predicate FlagsOk(v: Flow) {
    && (forall i {:trigger FlagFits(v, v.flagged[i])} :: 0 <= i < |v.flagged| ==> FlagFits(v, v.flagged[i]))
    && (forall i, j :: 0 <= i < j < |v.flagged| ==> v.flagged[i].source != v.flagged[j].source)
  }

  /** A tweet that is not flagged changes places, or nothing happens to tweets. */
  ghost predicate FlagsApart(v: Flow, v': Flow) {
    && v'.flagged == v.flagged
    && (forall o :: o in v.place ==> o in v'.place && TweetIn(v'.archive, o) == TweetIn(v.archive, o))
    && (forall o :: o in v.place && KindOf(v.place[o]) != Plain ==> KindOf(v'.place[o]) == KindOf(v.place[o]))
    && (v.stage.Flagged? ==> v'.stage == v.stage || IsKind(v'.place, v.stage.q, ByScorer))
  }

  lemma FlagsLeftAlone(v: Flow, v': Flow)
    requires FlagsOk(v) && FlagsApart(v, v')
    ensures FlagsOk(v')
  {
    forall i | 0 <= i < |v'.flagged| ensures FlagFits(v', v'.flagged[i]) {
      assert FlagFits(v, v.flagged[i]);
    }
  }

  lemma FlagAdded(v: Flow, row: FlaggedRow, v': Flow)
    requires FlagsOk(v) && v'.flagged == v.flagged + [row] && FlagFits(v', row)
    requires FlagsApart(v, v'.(flagged := v.flagged))
    requires row.source in v.place && KindOf(v.place[row.source]) == Plain && v.stage != Flagged(row.source)
    ensures FlagsOk(v')
  {
    FlagsLeftAlone(v, v'.(flagged := v.flagged));
    forall i | 0 <= i < |v'.flagged| ensures FlagFits(v', v'.flagged[i]) {
      assert i < |v.flagged| ==> FlagFits(v'.(flagged := v.flagged), v.flagged[i]);
    }
    forall i | 0 <= i < |v.flagged| ensures v.flagged[i].source != row.source {
      assert FlagFits(v, v.flagged[i]);
    }
  }

  lemma FlagDoneFlagsApart(v: Flow, ok: bool)
    requires Conserved(v) && Enabled(v, FlagDone(ok))
    ensures FlagsApart(v, Apply(v, FlagDone(ok)))
  {
  }

  lemma UnscoredFlagsApart(v: Flow, ok: bool)
    requires Conserved(v) && Enabled(v, PassUnscored(ok))
    ensures FlagsApart(v, Apply(v, PassUnscored(ok)))
  {
  }

  lemma QueuesFlagsApart(v: Flow, e: Event)
    requires Conserved(v) && Enabled(v, e) && (e.MarkForScorer? || e.Send?)
    ensures FlagsApart(v, Apply(v, e))
  {
    assert PlaceFits(v.track, v.tweetQ, v.stage, Current(v), v.place[Current(v)]);
  }

  lemma PassFlagsApart(v: Flow, e: Event)
    requires Conserved(v) && Enabled(v, e) && (e.PassOver? || e.LoopOn?)
    ensures FlagsApart(v, Apply(v, e))
  {
    assert PlaceFits(v.track, v.tweetQ, v.stage, Current(v), v.place[Current(v)]);
  }

  lemma HandFlagsApart(v: Flow, e: Event)
    requires Conserved(v) && Enabled(v, e) && (e.Take? || e.SendBack? || e.Abandon?)
    ensures FlagsApart(v, Apply(v, e))
  {
    var q := if e.Take? then v.tweetQ[0] else v.stage.q;
    assert q in v.place && PlaceFits(v.track, v.tweetQ, v.stage, q, v.place[q]);
  }

  lemma ScoreFlagsApart(v: Flow, e: Event)
    requires Conserved(v) && Enabled(v, e) && (e.Score? || e.NoFlagDue?)
    ensures FlagsApart(v, Apply(v, e))
  {
  }

  lemma FinishFlagsApart(v: Flow, ok: bool)
    requires Conserved(v) && Enabled(v, Finish(ok))
    ensures FlagsApart(v, Apply(v, Finish(ok)))
  {
    var q, p := v.stage.q, if v.stage.Flagged? then Scored else ScoreFailed;
    assert PlaceFits(v.track, v.tweetQ, v.stage, q, v.place[q]);
    assert Apply(v, Finish(ok)).place == v.place[q := p];
  }

  lemma RestFlagsApart(v: Flow, e: Event)
    requires Conserved(v) && Enabled(v, e)
    requires e.Stutter? || e.Submit? || e.Unpack? || e.SaveRow? || e.StartLoop? || e.EndLoop?
    ensures FlagsApart(v, Apply(v, e))
  {
  }

  lemma FilterFlagAdded(v: Flow, ok: bool)
    requires Conserved(v) && FlagsOk(v) && Enabled(v, FilterFlags(ok))
    ensures FlagsOk(Apply(v, FilterFlags(ok)))
  {
    CurrentIsPlain(v, FilterFlags(ok));
    var v' := Apply(v, FilterFlags(ok));
    assert PlaceFits(v.track, v.tweetQ, v.stage, Current(v), v.place[Current(v)]);
    if ok {
      FlagAdded(v, FlagOf(v, Current(v), false), v');
    } else {
      FlagsLeftAlone(v, v');
    }
  }

  lemma ScorerFlagAdded(v: Flow, ok: bool)
    requires Conserved(v) && FlagsOk(v) && Enabled(v, SaveFlag(ok))
    ensures FlagsOk(Apply(v, SaveFlag(ok)))
  {
    CurrentIsPlain(v, SaveFlag(ok));
    var v' := Apply(v, SaveFlag(ok));
    if ok {
      FlagAdded(v, FlagOf(v, v.stage.q, true), v');
    } else {
      FlagsLeftAlone(v, v');
    }
  }

  lemma EventKeepsFlags(v: Flow, e: Event)
    requires Conserved(v) && FlagsOk(v) && Enabled(v, e)
    ensures FlagsOk(Apply(v, e))
  {
    if e.FilterFlags? {
      FilterFlagAdded(v, e.ok);
    } else if e.SaveFlag? {
      ScorerFlagAdded(v, e.ok);
    } else {
      if e.FlagDone? {
        FlagDoneFlagsApart(v, e.ok);
      } else if e.PassUnscored? {
        UnscoredFlagsApart(v, e.ok);
      } else if e.MarkForScorer? || e.Send? {
        QueuesFlagsApart(v, e);
      } else if e.PassOver? || e.LoopOn? {
        PassFlagsApart(v, e);
      } else if e.Take? || e.SendBack? || e.Abandon? {
        HandFlagsApart(v, e);
      } else if e.Score? || e.NoFlagDue? {
        ScoreFlagsApart(v, e);
      } else if e.Finish? {
        FinishFlagsApart(v, e.ok);
      } else {
        RestFlagsApart(v, e);
      }
      FlagsLeftAlone(v, Apply(v, e));
    }
  }

  // ------------------------------------------------------------------ how many flagged rows

  /** The flagged rows of a tweet of a job. */
  function RowsAbout(flagged: seq<FlaggedRow>, k: Key): set<nat> {
    set i: nat | i < |flagged| && flagged[i].source.job == k.job && flagged[i].tweet == k.tweet
  }

  function PositionsOf(tweets: seq<Tweet>, t: TweetId): set<nat> {
    set i: nat | i < |tweets| && tweets[i].id == t
  }

  lemma {:induction false} NoMoreThan(flagged: seq<FlaggedRow>, rows: set<nat>, positions: set<nat>)
    requires forall i :: i in rows ==> i < |flagged| && flagged[i].source.pos in positions
    requires forall i, j :: i in rows && j in rows && i != j ==> flagged[i].source.pos != flagged[j].source.pos
    ensures |rows| <= |positions|
  {
    if rows == {} {
    } else {
      var i :| i in rows;
      NoMoreThan(flagged, rows - {i}, positions - {flagged[i].source.pos});
    }
  }

  /** A tweet has at most as many flagged rows as its job's archive has tweets with its ID. */
  lemma FlaggedAtMostPresent(v: Flow, k: Key)
    requires Conserved(v) && FlagsOk(v) && k.job in v.archive
    ensures |RowsAbout(v.flagged, k)| <= |PositionsOf(v.archive[k.job], k.tweet)|
  {
    forall i | i in RowsAbout(v.flagged, k) ensures v.flagged[i].source.pos in PositionsOf(v.archive[k.job], k.tweet) {
      assert FlagFits(v, v.flagged[i]);
    }
    forall i, j | i in RowsAbout(v.flagged, k) && j in RowsAbout(v.flagged, k) && i != j
      ensures v.flagged[i].source.pos != v.flagged[j].source.pos
    {
      assert v.flagged[i].source.job == v.flagged[j].source.job;
    }
    NoMoreThan(v.flagged, RowsAbout(v.flagged, k), PositionsOf(v.archive[k.job], k.tweet));
  }

  // ------------------------------------------------------------------ rows of tweets

  predicate Needs(p: Place) {
    p.InJobHand? || p.InChannel? || p.InTweetHand? || p.Dropped? || p.Scored? || p.ScoreFailed?
  }

  predicate Finished(p: Place) {
    p.FilterFlagged? || p.Unscored? || p.Scored? || p.ScoreFailed?
  }

  /** Still to be scored. */
  predicate Awaiting(p: Place) {
    p.InJobHand? || p.InChannel? || p.InTweetHand? || p.Dropped?
  }

  /** Phase 1 has come past this tweet. */
  predicate Stored(track: JobTrack, o: Occurrence) {
    track.Saving? && track.id == o.job ==> o.pos < track.next
  }

  /** The tweet at `o` is one of those that the row under `k` stands for. */
  predicate About(archive: Archive, o: Occurrence, k: Key) {
    o.job in archive && o.pos < |archive[o.job]| && KeyIn(archive, o) == k
  }

  ghost predicate SomeStored(archive: Archive, track: JobTrack, k: Key) {
    exists o {:trigger About(archive, o, k)} :: About(archive, o, k) && Stored(track, o)
  }

  ghost predicate SomeNeeds(archive: Archive, place: map<Occurrence, Place>, k: Key) {
    exists o {:trigger About(archive, o, k)} :: About(archive, o, k) && o in place && Needs(place[o])
  }

  ghost predicate SomeFinished(archive: Archive, place: map<Occurrence, Place>, k: Key) {
    exists o {:trigger About(archive, o, k)} :: About(archive, o, k) && o in place && Finished(place[o])
  }

  ghost predicate First(archive: Archive, o: Occurrence, k: Key) {
    About(archive, o, k) && forall p {:trigger About(archive, p, k)} :: About(archive, p, k) ==> o.pos <= p.pos
  }

  /** A row stands for all tweets of its ID: it is the first of them, needs the scorer if one of them does, and is
      processed if one of them is finished. */
  ghost predicate RowFits(archive: Archive, place: map<Occurrence, Place>, k: Key, row: TweetRow) {
    && (row.needsGemini <==> SomeNeeds(archive, place, k))
    && (row.processed <==> SomeFinished(archive, place, k))
    && (forall o :: First(archive, o, k) ==> row.tweet == TweetIn(archive, o))
  }

  ghost predicate RowOk(v: Flow, k: Key) {
    k.job in v.archive && k !in v.faulty ==>
      && (k in v.rows <==> SomeStored(v.archive, v.track, k))
      && (k in v.rows ==> RowFits(v.archive, v.place, k, v.rows[k]))
  }

  predicate InArchive(tweets: seq<Tweet>, t: TweetId) {
    exists i :: 0 <= i < |tweets| && tweets[i].id == t
  }

  /** Rows of this run's jobs are rows of their archives' tweets. */
  ghost predicate KeysOk(v: Flow) {
    forall k :: k in v.rows && k.job in v.tally ==> k.job in v.archive && InArchive(v.archive[k.job], k.tweet)
  }

  ghost predicate RowsOk(v: Flow) {
    KeysOk(v) && forall k {:trigger RowOk(v, k)} :: RowOk(v, k)
  }

  lemma RowsAtStart(s: State)
    requires Init(s)
    ensures RowsOk(FlowOf(s)) && FlagsOk(FlowOf(s))
  {
  }

  // ------------------------------------------------------------------ one tweet changes places

  lemma NeedsAfter(archive: Archive, place: map<Occurrence, Place>, o: Occurrence, p: Place, k: Key)
    requires o in place && About(archive, o, KeyIn(archive, o)) && (Needs(place[o]) ==> Needs(p))
    ensures SomeNeeds(archive, place[o := p], k)
            <==> SomeNeeds(archive, place, k) || (k == KeyIn(archive, o) && Needs(p))
  {
    var place' := place[o := p];
    if SomeNeeds(archive, place, k) {
      var w :| About(archive, w, k) && w in place && Needs(place[w]);
      assert About(archive, w, k) && Needs(place'[w]);
    }
    if SomeNeeds(archive, place', k) {
      var w :| About(archive, w, k) && w in place' && Needs(place'[w]);
      assert w != o ==> About(archive, w, k) && Needs(place[w]);
    }
  }

  lemma FinishedAfter(archive: Archive, place: map<Occurrence, Place>, o: Occurrence, p: Place, k: Key)
    requires o in place && About(archive, o, KeyIn(archive, o)) && (Finished(place[o]) ==> Finished(p))
    ensures SomeFinished(archive, place[o := p], k)
            <==> SomeFinished(archive, place, k) || (k == KeyIn(archive, o) && Finished(p))
  {
    var place' := place[o := p];
    if SomeFinished(archive, place, k) {
      var w :| About(archive, w, k) && w in place && Finished(place[w]);
      assert About(archive, w, k) && Finished(place'[w]);
    }
    if SomeFinished(archive, place', k) {
      var w :| About(archive, w, k) && w in place' && Finished(place'[w]);
      assert w != o ==> About(archive, w, k) && Finished(place[w]);
    }
  }

  /** What the row under the tweet's key becomes when the tweet gets into place `p`. */
  function RowAfter(row: TweetRow, p: Place): TweetRow {
    row.(needsGemini := row.needsGemini || Needs(p), processed := row.processed || Finished(p))
  }

  /** One tweet changes places, its row follows unless a write failed, and nothing else is touched. */
  ghost predicate OneRow(v: Flow, o: Occurrence, p: Place, v': Flow) {
    var k := KeyIn(v.archive, o);
    && v'.archive == v.archive && v.faulty <= v'.faulty && o in v.place && v'.place == v.place[o := p]
    && (Needs(v.place[o]) ==> Needs(p)) && (Finished(v.place[o]) ==> Finished(p))
    && v'.tally.Keys == v.tally.Keys && v'.rows.Keys == v.rows.Keys
    && (forall m :: m in v.rows && m != k ==> v'.rows[m] == v.rows[m])
    && (k in v.rows && k !in v'.faulty && RowFits(v.archive, v.place, k, v.rows[k]) ==>
          v'.rows[k] == RowAfter(v.rows[k], p))
    && (v'.track == v.track || (!v.track.Saving? && !v'.track.Saving?))
  }

  lemma OneRowKeeps(v: Flow, o: Occurrence, p: Place, v': Flow, k: Key)
    requires Located(v.archive, v.place) && RowOk(v, k) && OneRow(v, o, p, v')
    ensures RowOk(v', k)
  {
    NeedsAfter(v.archive, v.place, o, p, k);
    FinishedAfter(v.archive, v.place, o, p, k);
    assert SomeStored(v'.archive, v'.track, k) <==> SomeStored(v.archive, v.track, k);
  }

  lemma OneRowKeepsAll(v: Flow, o: Occurrence, p: Place, v': Flow)
    requires Located(v.archive, v.place) && RowsOk(v) && OneRow(v, o, p, v')
    ensures RowsOk(v')
  {
    forall k ensures RowOk(v', k) {
      assert RowOk(v, k);
      OneRowKeeps(v, o, p, v', k);
    }
  }

  /** A finished tweet needs a finished row. */
  lemma Closes(v: Flow, o: Occurrence, p: Place, ok: bool, v': Flow)
    requires o in v.place && !Finished(v.place[o]) && Finished(p) && (Needs(p) <==> Needs(v.place[o]))
    requires About(v.archive, o, KeyIn(v.archive, o)) && KeyIn(v.archive, o).job in v.archive
    requires v'.archive == v.archive && v'.place == v.place[o := p] && v'.tally.Keys == v.tally.Keys
    requires if ok then v'.rows == MarkProcessed(v.rows, KeyIn(v.archive, o)) && v'.faulty == v.faulty
             else v'.rows == v.rows && v'.faulty == v.faulty + {KeyIn(v.archive, o)}
    requires v'.track == v.track || (!v.track.Saving? && !v'.track.Saving?)
    ensures OneRow(v, o, p, v')
  {
  }

  lemma LoopCloses(v: Flow, e: Event)
    requires Conserved(v) && v.archive.Keys <= v.tally.Keys && RowsOk(v) && Enabled(v, e)
    requires e.FlagDone? || e.PassUnscored?
    ensures RowsOk(Apply(v, e))
  {
    var o, p := Current(v), if e.FlagDone? then FilterFlagged else Unscored;
    assert PlaceFits(v.track, v.tweetQ, v.stage, o, v.place[o]);
    Closes(v, o, p, e.ok, Apply(v, e));
    OneRowKeepsAll(v, o, p, Apply(v, e));
  }

  lemma HandCloses(v: Flow, ok: bool)
    requires Conserved(v) && RowsOk(v) && Enabled(v, Finish(ok))
    ensures RowsOk(Apply(v, Finish(ok)))
  {
    var o, p := v.stage.q, if v.stage.Flagged? then Scored else ScoreFailed;
    assert PlaceFits(v.track, v.tweetQ, v.stage, o, v.place[o]);
    Closes(v, o, p, ok, Apply(v, Finish(ok)));
    OneRowKeepsAll(v, o, p, Apply(v, Finish(ok)));
  }

  /** The loop's mark is on the row. */
  lemma MarkKeepsRows(v: Flow)
    requires Conserved(v) && v.archive.Keys <= v.tally.Keys && RowsOk(v) && Enabled(v, MarkForScorer)
    ensures RowsOk(Apply(v, MarkForScorer))
  {
    var o := Current(v);
    assert PlaceFits(v.track, v.tweetQ, v.stage, o, v.place[o]);
    assert OneRow(v, o, InJobHand, Apply(v, MarkForScorer));
    OneRowKeepsAll(v, o, InJobHand, Apply(v, MarkForScorer));
  }

  /** A tweet changes places that say the same of its row. */
  lemma SameRow(v: Flow, o: Occurrence, p: Place, v': Flow)
    requires o in v.place && About(v.archive, o, KeyIn(v.archive, o))
    requires (Needs(p) <==> Needs(v.place[o])) && (Finished(p) <==> Finished(v.place[o]))
    requires v'.archive == v.archive && v'.place == v.place[o := p] && v'.tally.Keys == v.tally.Keys
    requires v'.rows == v.rows && v'.faulty == v.faulty
    requires v'.track == v.track || (!v.track.Saving? && !v'.track.Saving?)
    ensures OneRow(v, o, p, v')
  {
  }

  lemma LoopMovesKeepRows(v: Flow, e: Event)
    requires Conserved(v) && v.archive.Keys <= v.tally.Keys && RowsOk(v) && Enabled(v, e)
    requires e.FilterFlags? || e.PassOver? || e.Send?
    ensures RowsOk(Apply(v, e))
  {
    var o, p := Current(v), if e.FilterFlags? then Flagging else if e.PassOver? then Skipped else InChannel;
    assert PlaceFits(v.track, v.tweetQ, v.stage, o, v.place[o]);
    SameRow(v, o, p, Apply(v, e));
    OneRowKeepsAll(v, o, p, Apply(v, e));
  }

  lemma HandMovesKeepRows(v: Flow, e: Event)
    requires Conserved(v) && RowsOk(v) && Enabled(v, e) && (e.Take? || e.SendBack? || e.Abandon?)
    ensures RowsOk(Apply(v, e))
  {
    var o := if e.Take? then v.tweetQ[0] else v.stage.q;
    var p := if e.Take? then InTweetHand else if e.SendBack? then InChannel else Dropped;
    assert o in v.place && PlaceFits(v.track, v.tweetQ, v.stage, o, v.place[o]);
    SameRow(v, o, p, Apply(v, e));
    OneRowKeepsAll(v, o, p, Apply(v, e));
  }

  // ------------------------------------------------------------------ phase 1

  lemma StoredAfter(archive: Archive, id: JobId, i: nat, k: Key)
    requires id in archive && i < |archive[id]|
    ensures SomeStored(archive, Saving(id, i + 1), k)
            <==> SomeStored(archive, Saving(id, i), k) || k == KeyIn(archive, Occ(id, i))
  {
    assert About(archive, Occ(id, i), KeyIn(archive, Occ(id, i)));
  }

  /** Nothing is decided about the tweets of an archive that is being saved. */
  lemma SavingUndecided(v: Flow, k: Key)
    requires Conserved(v) && v.track.Saving? && k.job == v.track.id
    ensures !SomeNeeds(v.archive, v.place, k) && !SomeFinished(v.archive, v.place, k)
  {
    forall o | About(v.archive, o, k) ensures v.place[o].Unfiltered? {
      assert PlaceFits(v.track, v.tweetQ, v.stage, o, v.place[o]);
    }
  }

  lemma SavedOk(v: Flow, ok: bool, now: Time, k: Key)
    requires Conserved(v) && RowOk(v, k) && Enabled(v, SaveRow(ok, now))
    ensures RowOk(Apply(v, SaveRow(ok, now)), k)
  {
    if k.job == v.track.id {
      StoredAfter(v.archive, v.track.id, v.track.next, k);
      SavingUndecided(v, k);
    } else {
      assert SomeStored(v.archive, Apply(v, SaveRow(ok, now)).track, k) <==> SomeStored(v.archive, v.track, k);
    }
  }

  lemma SavedKeys(v: Flow, ok: bool, now: Time)
    requires Conserved(v) && KeysOk(v) && Enabled(v, SaveRow(ok, now))
    ensures KeysOk(Apply(v, SaveRow(ok, now)))
  {
  }

  lemma SaveKeepsRows(v: Flow, ok: bool, now: Time)
    requires Conserved(v) && RowsOk(v) && Enabled(v, SaveRow(ok, now))
    ensures RowsOk(Apply(v, SaveRow(ok, now)))
  {
    SavedKeys(v, ok, now);
    forall k ensures RowOk(Apply(v, SaveRow(ok, now)), k) {
      assert RowOk(v, k);
      SavedOk(v, ok, now, k);
    }
  }

  /** What is known of other jobs' keys stays. */
  lemma OtherArchive(v: Flow, id: JobId, tweets: seq<Tweet>, k: Key)
    requires Conserved(v) && Enabled(v, Unpack(id, tweets)) && k.job != id
    ensures var v' := Apply(v, Unpack(id, tweets));
            && (forall o :: About(v'.archive, o, k) <==> About(v.archive, o, k))
            && (forall o :: About(v.archive, o, k) ==>
                  && v'.place[o] == v.place[o] && Stored(v'.track, o) && Stored(v.track, o)
                  && TweetIn(v'.archive, o) == TweetIn(v.archive, o))
  {
  }

  lemma UnpackedOk(v: Flow, id: JobId, tweets: seq<Tweet>, k: Key)
    requires Conserved(v) && RowsOk(v) && Enabled(v, Unpack(id, tweets))
    ensures RowOk(Apply(v, Unpack(id, tweets)), k)
  {
    var v' := Apply(v, Unpack(id, tweets));
    assert RowOk(v, k);
    if k.job != id {
      OtherArchive(v, id, tweets, k);
      assert SomeNeeds(v'.archive, v'.place, k) <==> SomeNeeds(v.archive, v.place, k);
      assert SomeFinished(v'.archive, v'.place, k) <==> SomeFinished(v.archive, v.place, k);
      assert SomeStored(v'.archive, v'.track, k) <==> SomeStored(v.archive, v.track, k);
    }
  }

  lemma UnpackedKeys(v: Flow, id: JobId, tweets: seq<Tweet>)
    requires Conserved(v) && KeysOk(v) && Enabled(v, Unpack(id, tweets))
    ensures KeysOk(Apply(v, Unpack(id, tweets)))
  {
  }

  lemma UnpackKeepsRows(v: Flow, id: JobId, tweets: seq<Tweet>)
    requires Conserved(v) && RowsOk(v) && Enabled(v, Unpack(id, tweets))
    ensures RowsOk(Apply(v, Unpack(id, tweets)))
  {
    UnpackedKeys(v, id, tweets);
    forall k ensures RowOk(Apply(v, Unpack(id, tweets)), k) {
      UnpackedOk(v, id, tweets, k);
    }
  }

  // ------------------------------------------------------------------ every event

  /** Events that move no tweet. */
  predicate MovesNothing(e: Event) {
    || e.Stutter? || e.Submit? || e.StartLoop? || e.LoopOn? || e.EndLoop? || e.Score? || e.NoFlagDue?
    || e.SaveFlag?
  }

  lemma RestRow(v: Flow, e: Event, k: Key)
    requires Conserved(v) && RowOk(v, k) && Enabled(v, e) && MovesNothing(e)
    ensures RowOk(Apply(v, e), k)
  {
    assert SomeStored(v.archive, Apply(v, e).track, k) <==> SomeStored(v.archive, v.track, k);
  }

  lemma RestKeys(v: Flow, e: Event)
    requires Conserved(v) && v.archive.Keys <= v.tally.Keys && KeysOk(v) && Enabled(v, e) && MovesNothing(e)
    ensures KeysOk(Apply(v, e))
  {
  }

  lemma RestKeepsRows(v: Flow, e: Event)
    requires Conserved(v) && v.archive.Keys <= v.tally.Keys && RowsOk(v) && Enabled(v, e) && MovesNothing(e)
    ensures RowsOk(Apply(v, e))
  {
    RestKeys(v, e);
    forall k ensures RowOk(Apply(v, e), k) {
      assert RowOk(v, k);
      RestRow(v, e, k);
    }
  }

  lemma EventKeepsRows(v: Flow, e: Event)
    requires Conserved(v) && v.archive.Keys <= v.tally.Keys && RowsOk(v) && Enabled(v, e)
    ensures RowsOk(Apply(v, e))
  {
    if MovesNothing(e) {
      RestKeepsRows(v, e);
    } else {
      match e {
        case FlagDone(_) => LoopCloses(v, e);
        case PassUnscored(_) => LoopCloses(v, e);
        case Finish(ok) => HandCloses(v, ok);
        case MarkForScorer => MarkKeepsRows(v);
        case SaveRow(ok, now) => SaveKeepsRows(v, ok, now);
        case Unpack(id, tweets) => UnpackKeepsRows(v, id, tweets);
        case FilterFlags(_) => LoopMovesKeepRows(v, e);
        case PassOver => LoopMovesKeepRows(v, e);
        case Send => LoopMovesKeepRows(v, e);
        case Take => HandMovesKeepRows(v, e);
        case SendBack => HandMovesKeepRows(v, e);
        case Abandon => HandMovesKeepRows(v, e);
      }
    }
  }

  // ------------------------------------------------------------------ recovery

  predicate ToScore(rows: map<Key, TweetRow>, id: JobId, k: Key) {
    k in rows && k.job == id && rows[k].needsGemini && !rows[k].processed
  }

  predicate NoNewer(rows: map<Key, TweetRow>, a: Key, b: Key) {
    a in rows && b in rows && Seconds(rows[a].savedAt) <= Seconds(rows[b].savedAt)
  }

  /** A result of the recovery query: rows of the job that need the scorer and are not processed, oldest first,
      `limit` of them if there are more; a negative limit is none. */
  ghost predicate IsRecovery(rows: map<Key, TweetRow>, id: JobId, limit: int, q: seq<Key>) {
    && Distinct(q)
    && (forall k :: k in q ==> ToScore(rows, id, k))
    && (forall i, j :: 0 <= i < j < |q| ==> NoNewer(rows, q[i], q[j]))
    && (limit >= 0 ==> |q| <= limit)
    && (forall k :: ToScore(rows, id, k) && k !in q ==>
          |q| == limit && forall m :: m in q ==> NoNewer(rows, m, k))
  }

  lemma {:induction false} DistinctSize<T>(q: seq<T>, all: set<T>)
    requires Distinct(q) && forall k :: k in q ==> k in all
    ensures |q| <= |all|
  {
    if q == [] {
    } else {
      forall k | k in q[1..] ensures k in all - {q[0]} {
      }
      DistinctSize(q[1..], all - {q[0]});
    }
  }

  /** With a limit that covers them the query returns all. */
  lemma RecoveryComplete(rows: map<Key, TweetRow>, id: JobId, limit: int, q: seq<Key>, k: Key)
    requires IsRecovery(rows, id, limit, q)
    requires limit < 0 || limit >= |set m | m in rows && ToScore(rows, id, m)|
    ensures k in q <==> ToScore(rows, id, k)
  {
    if ToScore(rows, id, k) && k !in q {
      var all := set m | m in rows && ToScore(rows, id, m);
      var rest := all - {k};
      DistinctSize(q, rest);
      assert false;
    }
  }

  /** Where a tweet that still has to be scored is: in the phase-2 loop's hand, in the channel, in the tweet
      loop's hand, or dropped over the quota or for want of its job. */
  predicate Unfinished(v: Flow, o: Occurrence)
    requires o in v.place
  {
    || v.track == Looping(o.job, o.pos, MarkHand)
    || o in v.tweetQ
    || InHand(v.stage, o)
    || v.place[o].Dropped?
  }

  lemma AwaitingIsUnfinished(v: Flow, o: Occurrence)
    requires Conserved(v) && o in v.place
    ensures Awaiting(v.place[o]) <==> Unfinished(v, o)
  {
  }

  ghost predicate SomeUnfinished(v: Flow, k: Key) {
    exists o {:trigger About(v.archive, o, k)} :: About(v.archive, o, k) && o in v.place && Unfinished(v, o)
  }

  /** Of tweets in a parsed archive whose row was always written, the recovery query finds an ID exactly if one of
      the tweets with that ID still has to be scored and none of them is finished. */
  lemma RecoveryExact(v: Flow, k: Key, limit: int, q: seq<Key>)
    requires Conserved(v) && RowsOk(v) && k.job in v.archive && k !in v.faulty
    requires IsRecovery(v.rows, k.job, limit, q)
    requires limit < 0 || limit >= |set m | m in v.rows && ToScore(v.rows, k.job, m)|
    ensures k in q <==> SomeUnfinished(v, k) && !SomeFinished(v.archive, v.place, k)
  {
    RecoveryComplete(v.rows, k.job, limit, q, k);
    assert RowOk(v, k);
    forall o | About(v.archive, o, k)
      ensures (Awaiting(v.place[o]) <==> Unfinished(v, o)) && (Awaiting(v.place[o]) ==> Stored(v.track, o))
    {
      AwaitingIsUnfinished(v, o);
      assert PlaceFits(v.track, v.tweetQ, v.stage, o, v.place[o]);
    }
    if SomeNeeds(v.archive, v.place, k) && !SomeFinished(v.archive, v.place, k) {
      var o :| About(v.archive, o, k) && o in v.place && Needs(v.place[o]);
      assert Awaiting(v.place[o]);
    }
  }

  /** No other tweet of the archive has its ID. */
  ghost predicate Unique(archive: Archive, o: Occurrence) {
    forall p {:trigger About(archive, p, KeyIn(archive, o))} :: About(archive, p, KeyIn(archive, o)) ==> p == o
  }

  /** So a tweet with an ID of its own is found exactly while it has to be scored. */
  lemma RecoveryOfUnique(v: Flow, o: Occurrence, limit: int, q: seq<Key>)
    requires Conserved(v) && RowsOk(v) && o in v.place && Unique(v.archive, o) && KeyIn(v.archive, o) !in v.faulty
    requires IsRecovery(v.rows, o.job, limit, q)
    requires limit < 0 || limit >= |set m | m in v.rows && ToScore(v.rows, o.job, m)|
    ensures KeyIn(v.archive, o) in q <==> Unfinished(v, o)
  {
    RecoveryExact(v, KeyIn(v.archive, o), limit, q);
    AwaitingIsUnfinished(v, o);
    assert About(v.archive, o, KeyIn(v.archive, o));
  }
}
