/** What every run keeps about tweets, counters and failed jobs, and when a job is marked done. */
module TweetTheorems {
  import opened Model
  import opened Pipeline
  import opened PipelineShapes
  import opened PipelineLinks
  import opened PipelineCopies
  import opened PipelineStore
  import opened CacheLogs
  import opened PipelineCache
  import opened PipelineTotals
  import opened PipelineVerdicts
  import opened PipelineFlow
  import opened FlowPlaces
  import opened FlowTally
  import opened FlowClosed
  import opened FlowRows
  import opened PipelineCalls
  import opened PipelineExact
  import opened PipelineFailures
  import opened PipelineRuns
  import opened PipelineTheorems
  import Filters

  // ------------------------------------------------------------------ conservation

  predicate BeingFlagged(s: State, o: Occurrence) {
    s.jl.JobRunning? && s.jl.id == o.job && s.jl.at.FlagSaved? && s.jl.at.next == o.pos
  }

  predicate InJobLoopsHand(s: State, o: Occurrence) {
    s.jl.JobRunning? && s.jl.id == o.job && s.jl.at.Marked? && s.jl.at.next == o.pos
  }

  predicate InTweetLoopsHand(s: State, o: Occurrence) {
    s.tl.TweetHas? && s.tl.q == o
  }

  lemma TrackShows(s: State, o: Occurrence)
    ensures TrackOf(s.jl) == Looping(o.job, o.pos, FlagHand) <==> BeingFlagged(s, o)
    ensures TrackOf(s.jl) == Looping(o.job, o.pos, MarkHand) <==> InJobLoopsHand(s, o)
    ensures InHand(StageOf(s.tl), o) <==> InTweetLoopsHand(s, o)
  {
  }

  lemma PlaceShows(s: State, o: Occurrence)
    requires Conserved(FlowOf(s))
    ensures Known(s, o) <==> o in s.hist.place
    ensures o in s.hist.place ==> var p := s.hist.place[o];
              && (p.Flagging? <==> BeingFlagged(s, o))
              && (p.InJobHand? <==> InJobLoopsHand(s, o))
              && (p.InChannel? <==> o in s.tweetQ)
              && (p.InTweetHand? <==> InTweetLoopsHand(s, o))
              && (p.Unfiltered? <==> Untouched(TrackOf(s.jl), o))
  {
  }

  /** Conservation: the tweets of the parsed archives, and no others, are each in exactly one place; the channel
      holds each at most once; and the events counted for a job are its tweets in the places of those events:
      advances and tweets passed over add up to what phase 2 has come past, the filters' flags are the tweets
      they flagged, and the scorings are the tweets scored. */
  lemma TweetsConserved(s: State, o: Occurrence)
    requires Reachable(s)
    ensures Known(s, o) <==> o in s.hist.place
    ensures o in s.hist.place ==> var p := s.hist.place[o];
              && (p.Flagging? <==> BeingFlagged(s, o))
              && (p.InJobHand? <==> InJobLoopsHand(s, o))
              && (p.InChannel? <==> o in s.tweetQ)
              && (p.InTweetHand? <==> InTweetLoopsHand(s, o))
              && (p.Unfiltered? <==> Untouched(TrackOf(s.jl), o))
    ensures Distinct(s.tweetQ)
    ensures o.job in s.hist.uploads ==> var t, n := TallyIn(s.hist.tally, o.job), |Tweets(s, o.job)|;
              && t.filterFlags == |OfKind(s.hist.place, o.job, n, ByFilters)|
              && t.skipped == |OfKind(s.hist.place, o.job, n, PassedOver)|
              && t.scored == |OfKind(s.hist.place, o.job, n, ByScorer) + HandScored(StageOf(s.tl), o.job)|
              && t.advanced + t.skipped == Progress(TrackOf(s.jl), o.job, n)
  {
    Reached(s);
    PlaceShows(s, o);
    assert o.job in s.hist.uploads ==> TalliedJob(FlowOf(s), o.job);
  }

  /** Whatever is re-queued, a tweet of a job has at most as many flagged rows as the archive has tweets with
      its ID. */
  lemma FlaggedRowsBounded(s: State, k: Key)
    requires Reachable(s) && k.job in s.archive
    ensures |RowsAbout(s.flagged, k)| <= |PositionsOf(s.archive[k.job], k.tweet)|
  {
    Reached(s);
    FlaggedAtMostPresent(FlowOf(s), k);
  }

  // ------------------------------------------------------------------ recovery

  /** In the job loop's hand, in the channel, in the tweet loop's hand, or dropped. */
  predicate StillToScore(s: State, o: Occurrence) {
    || InJobLoopsHand(s, o) || o in s.tweetQ || InTweetLoopsHand(s, o)
    || (o in s.hist.place && s.hist.place[o].Dropped?)
  }

  /** Done with: flagged by the filters, or scored, or closed without a score. */
  predicate DoneWith(s: State, o: Occurrence) {
    o in s.hist.place && Finished(s.hist.place[o])
  }

  ghost predicate SomeToScore(s: State, k: Key) {
    exists o {:trigger About(s.archive, o, k)} :: About(s.archive, o, k) && StillToScore(s, o)
  }

  ghost predicate SomeDoneWith(s: State, k: Key) {
    exists o {:trigger About(s.archive, o, k)} :: About(s.archive, o, k) && DoneWith(s, o)
  }

  lemma ToScoreIsUnfinished(s: State, k: Key)
    requires Conserved(FlowOf(s))
    ensures SomeToScore(s, k) <==> SomeUnfinished(FlowOf(s), k)
    ensures SomeDoneWith(s, k) <==> SomeFinished(s.archive, s.hist.place, k)
  {
    forall o | About(s.archive, o, k) ensures StillToScore(s, o) <==> Unfinished(FlowOf(s), o) {
      assert o in s.hist.place;
      TrackShows(s, o);
    }
  }

  lemma KeyFound(s: State, k: Key, limit: int, q: seq<Key>)
    requires Conserved(FlowOf(s)) && RowsOk(FlowOf(s)) && k.job in s.archive && k !in s.hist.faulty
    requires IsRecovery(s.rows, k.job, limit, q)
    requires limit < 0 || limit >= |set m | m in s.rows && ToScore(s.rows, k.job, m)|
    ensures k in q <==> SomeToScore(s, k) && !SomeDoneWith(s, k)
  {
    RecoveryExact(FlowOf(s), k, limit, q);
    ToScoreIsUnfinished(s, k);
  }

  /** In every reachable state, with reliable writes of the row: the recovery query finds a tweet ID of a parsed
      archive exactly if one of the tweets with that ID has still to be scored and none of them is done with. */
  lemma RecoveryFindsUnfinished(s: State, k: Key, limit: int, q: seq<Key>)
    requires Reachable(s) && k.job in s.archive && k !in s.hist.faulty
    requires IsRecovery(s.rows, k.job, limit, q)
    requires limit < 0 || limit >= |set m | m in s.rows && ToScore(s.rows, k.job, m)|
    ensures k in q <==> SomeToScore(s, k) && !SomeDoneWith(s, k)
  {
    Reached(s);
    KeyFound(s, k, limit, q);
  }

  /** So a tweet that has still to be scored is found unless another one with its ID is done with. */
  lemma WaitingTweetFoundIff(s: State, o: Occurrence, limit: int, q: seq<Key>)
    requires Reachable(s) && Known(s, o) && StillToScore(s, o) && KeyIn(s.archive, o) !in s.hist.faulty
    requires IsRecovery(s.rows, o.job, limit, q)
    requires limit < 0 || limit >= |set m | m in s.rows && ToScore(s.rows, o.job, m)|
    ensures KeyIn(s.archive, o) in q <==> !SomeDoneWith(s, KeyIn(s.archive, o))
  {
    RecoveryFindsUnfinished(s, KeyIn(s.archive, o), limit, q);
    assert About(s.archive, o, KeyIn(s.archive, o));
  }

  lemma UniqueFound(s: State, o: Occurrence, limit: int, q: seq<Key>)
    requires Conserved(FlowOf(s)) && RowsOk(FlowOf(s)) && o in s.hist.place
    requires Unique(s.archive, o) && KeyIn(s.archive, o) !in s.hist.faulty
    requires IsRecovery(s.rows, o.job, limit, q)
    requires limit < 0 || limit >= |set m | m in s.rows && ToScore(s.rows, o.job, m)|
    ensures KeyIn(s.archive, o) in q <==> StillToScore(s, o)
  {
    TrackShows(s, o);
    RecoveryOfUnique(FlowOf(s), o, limit, q);
  }

  /** With an ID of its own a tweet is found exactly while it has to be scored. */
  lemma RecoveryOfUniqueTweet(s: State, o: Occurrence, limit: int, q: seq<Key>)
    requires Reachable(s) && Known(s, o)
    requires Unique(s.archive, o) && KeyIn(s.archive, o) !in s.hist.faulty
    requires IsRecovery(s.rows, o.job, limit, q)
    requires limit < 0 || limit >= |set m | m in s.rows && ToScore(s.rows, o.job, m)|
    ensures KeyIn(s.archive, o) in q <==> StillToScore(s, o)
  {
    Reached(s);
    UniqueFound(s, o, limit, q);
  }

  /** And it finds nothing that is not of the job's archive. */
  lemma RecoveryFindsArchivedOnly(s: State, id: JobId, limit: int, q: seq<Key>, k: Key)
    requires Reachable(s) && id in s.hist.uploads
    requires IsRecovery(s.rows, id, limit, q) && k in q
    ensures id in s.archive && k.job == id && InArchive(s.archive[id], k.tweet)
  {
    Reached(s);
    assert ToScore(s.rows, id, k);
  }

  /** The row of an ID, if it was always written, holds the first tweet of the archive with that ID. */
  lemma RowHoldsFirstTweet(s: State, o: Occurrence)
    requires Reachable(s) && Known(s, o) && KeyIn(s.archive, o) in s.rows && KeyIn(s.archive, o) !in s.hist.faulty
    requires forall i :: 0 <= i < o.pos ==> s.archive[o.job][i].id != s.archive[o.job][o.pos].id
    ensures s.rows[KeyIn(s.archive, o)].tweet == s.archive[o.job][o.pos]
  {
    Reached(s);
    FirstIsRow(s, o);
  }

  lemma FirstIsRow(s: State, o: Occurrence)
    requires RowsOk(FlowOf(s)) && Known(s, o) && KeyIn(s.archive, o) in s.rows && KeyIn(s.archive, o) !in s.hist.faulty
    requires forall i :: 0 <= i < o.pos ==> s.archive[o.job][i].id != s.archive[o.job][o.pos].id
    ensures s.rows[KeyIn(s.archive, o)].tweet == s.archive[o.job][o.pos]
  {
    assert RowOk(FlowOf(s), KeyIn(s.archive, o));
    assert First(s.archive, o, KeyIn(s.archive, o));
  }

  // ------------------------------------------------------------------ filters

  /** In every reachable state a tweet is flagged by the filters only if its job was uploaded with criteria and the
      filters have a verdict on its text, and is past them otherwise only if not. */
  lemma FiltersDecide(s: State, o: Occurrence)
    requires Reachable(s) && o in s.hist.place
    ensures o.job in s.hist.uploads && Known(s, o)
    ensures var p, criteria := s.hist.place[o], s.hist.uploads[o.job].criteria;
            var caught := criteria.Some? && Filters.FilterVerdict(s.cfg.policy, s.archive[o.job][o.pos].text).Some?;
            if p.Unfiltered? then true else if p.Flagging? || p.FilterFlagged? then caught else !caught
  {
    Reached(s);
    DecidedHere(s, o);
  }

  lemma DecidedHere(s: State, o: Occurrence)
    requires Conserved(FlowOf(s)) && PipelineVerdicts.Filtered(s) && o in s.hist.place
    ensures o.job in s.hist.uploads && Known(s, o)
    ensures var p, criteria := s.hist.place[o], s.hist.uploads[o.job].criteria;
            var caught := criteria.Some? && Filters.FilterVerdict(s.cfg.policy, s.archive[o.job][o.pos].text).Some?;
            if p.Unfiltered? then true else if p.Flagging? || p.FilterFlagged? then caught else !caught
  {
    PlaceShows(s, o);
  }

  // ------------------------------------------------------------------ criteria

  lemma CriteriaIsolation(s: State, call: ScoreCall)
    requires Reachable(s) && call in s.hist.calls
    ensures call.job in s.hist.uploads
            && match s.hist.uploads[call.job].criteria
               case Some(uploaded) => call.criteria == uploaded
               case None => call.criteria == DEFAULT_CRITERIA
  {
    Reached(s);
  }

  // ------------------------------------------------------------------ exact counters

  lemma TrackIsOfJob(jl: JobLoop, id: JobId, n: nat)
    requires !JobOn(jl, id)
    ensures Progress(TrackOf(jl), id, n) == n
  {
  }

  lemma HeldIsExact(s: State)
    requires StoreSide(s) && Separated(s) && EventsCounted(s) && TalliesOk(FlowOf(s))
    requires s.tl.TweetHas? && s.tl.at.Holding? && s.tl.at.at.CheckDone? && s.tl.q.job !in s.hist.mixed
    ensures var t, j, n := TallyIn(s.hist.tally, s.tl.q.job), Obj(s.mem, s.tl.at.ref), |Tweets(s, s.tl.q.job)|;
            Exact(t, j) && j.total == n == t.advanced + t.skipped
  {
    TrackIsOfJob(s.jl, s.tl.q.job, |Tweets(s, s.tl.q.job)|);
    assert TalliedJob(FlowOf(s), s.tl.q.job);
  }

  /** The tweet loop never loaded the job while an update of it was unwritten: then the counters are exact after
      each scored tweet.  Phase 2 counts what it queues and phase 3 counts it again. */
  lemma CountersExact(s: State)
    requires Reachable(s)
    requires s.tl.TweetHas? && s.tl.at.Holding? && s.tl.at.at.CheckDone? && s.tl.q.job !in s.hist.mixed
    ensures var id, j := s.tl.q.job, Obj(s.mem, s.tl.at.ref);
            var t := TallyIn(s.hist.tally, id);
            && j.gemini == t.scored && j.flagged == t.filterFlags + t.llmFlags && j.processed == t.advanced + t.scored
            && j.total == |Tweets(s, id)| == t.advanced + t.skipped
  {
    Reached(s);
    HeldIsExact(s);
  }

  // ------------------------------------------------------------------ done

  /** The tweet loop marks the job of the tweet in its hand as done. */
  predicate MarksJobDone(s: State, s': State) {
    && ChecksDone(s) == Some(s')
    && s'.tl.TweetHas? && s'.tl.at.Holding? && Obj(s'.mem, s'.tl.at.ref).status.Done?
  }

  lemma MarkedIff(s: State, s': State)
    requires StoreSide(s) && ChecksDone(s) == Some(s')
    ensures s.tl.TweetHas? && s.tl.at.Holding? && s.tl.at.at.CheckDone?
    ensures s'.tl.TweetHas? && s'.tl.at.Holding? && Obj(s'.mem, s'.tl.at.ref).status.Done?
            <==> Obj(s.mem, s.tl.at.ref).processed >= Obj(s.mem, s.tl.at.ref).total
  {
    DoneShape(s, s');
  }

  lemma DoneCheck(s: State, s': State)
    requires StoreSide(s) && Totals(s) && ChecksDone(s) == Some(s')
    ensures MarksJobDone(s, s') <==> s.hist.loaded.processed + 1 >= s.hist.loaded.total
  {
    MarkedIff(s, s');
    assert s.tl.at.ref in s.mem.heap;
  }

  /** In every reachable state: whether a job is marked done depends only on the row that was loaded for the tweet
      just scored, however old that row is. */
  lemma DoneIffRowSays(s: State, s': State)
    requires Reachable(s) && TweetNext(s, TweetDone) == Some(s')
    ensures MarksJobDone(s, s') <==> s.hist.loaded.processed + 1 >= s.hist.loaded.total
    ensures s.hist.loaded.total == 0 ==> MarksJobDone(s, s')
  {
    Reached(s);
    DoneCheck(s, s');
    LoadedNotNegative(s);
  }

  lemma LoadedNotNegative(s: State)
    requires StoreSide(s) && Bounded(s) && Totals(s) && EventsCounted(s)
    requires s.tl.TweetHas? && s.tl.at.Holding? && s.tl.at.at.CheckDone?
    ensures s.hist.loaded.processed >= -1
  {
    assert CopyInOrder(s.hist, s.mem.heap[s.tl.at.ref]);
  }

  /** All tweets of the job but the one just scored are flagged, passed over, scored or closed. */
  ghost predicate NothingElseLeft(s: State) {
    s.tl.TweetHas? &&
    forall o :: o in s.hist.place && o.job == s.tl.q.job && o != s.tl.q ==> !IsLeft(s.hist.place, o)
  }

  lemma OneLeft(left: set<nat>, i: nat)
    requires i in left
    ensures |left| == 1 <==> forall j :: j in left ==> j == i
  {
    if forall j :: j in left ==> j == i {
      assert left == {i};
    } else {
      var j :| j in left && j != i;
      SmallerSet({i, j}, left);
    }
  }

  lemma LeftIsOne(s: State)
    requires Conserved(FlowOf(s)) && TalliesOk(FlowOf(s)) && ClosedOk(FlowOf(s)) && StageOf(s.tl).Flagged?
    ensures var id := s.tl.q.job;
            var t, n := TallyIn(s.hist.tally, id), |Tweets(s, id)|;
            NothingElseLeft(s) <==> t.filterFlags + t.skipped + t.scored + ClosedIn(s.hist.closed, id) == n
  {
    var v, id := FlowOf(s), s.tl.q.job;
    var left := LeftAt(v.place, id, Length(v, id));
    assert s.tl.q in v.place && PlaceFits(v.track, v.tweetQ, v.stage, s.tl.q, v.place[s.tl.q]);
    LeftCounted(v, id);
    OneLeft(left, s.tl.q.pos);
    forall o | o in s.hist.place && o.job == id ensures IsLeft(s.hist.place, o) <==> o.pos in left {
      assert o == Occ(id, o.pos);
    }
    forall i | i in left ensures Occ(id, i) in s.hist.place {
    }
  }

  /** What the mark should mean: that no tweet of the job is left.  The job is marked done with none left exactly if
      the row says so and the tweets flagged by the filters, passed over, scored and closed are all there are. */
  lemma DoneWithNothingLeftIff(s: State, s': State)
    requires Reachable(s) && TweetNext(s, TweetDone) == Some(s')
    ensures var id := s.tl.q.job;
            var t, n := TallyIn(s.hist.tally, id), |Tweets(s, id)|;
            MarksJobDone(s, s') && NothingElseLeft(s)
            <==> && s.hist.loaded.processed + 1 >= s.hist.loaded.total
                 && t.filterFlags + t.skipped + t.scored + ClosedIn(s.hist.closed, id) == n
  {
    Reached(s);
    DoneAndLeft(s, s');
  }

  lemma DoneAndLeft(s: State, s': State)
    requires StoreSide(s) && Totals(s) && Conserved(FlowOf(s)) && TalliesOk(FlowOf(s)) && ClosedOk(FlowOf(s))
    requires ChecksDone(s) == Some(s')
    ensures var id := s.tl.q.job;
            var t, n := TallyIn(s.hist.tally, id), |Tweets(s, id)|;
            MarksJobDone(s, s') && NothingElseLeft(s)
            <==> && s.hist.loaded.processed + 1 >= s.hist.loaded.total
                 && t.filterFlags + t.skipped + t.scored + ClosedIn(s.hist.closed, id) == n
  {
    DoneCheck(s, s');
    LeftIsOne(s);
  }

  /** If the tweet loop never loaded the job while an update was unwritten, the job is marked done as soon as as
      many tweets are scored as phase 2 passed over: with none passed over, at the first score, however many
      tweets still wait. */
  lemma DoneIsEarly(s: State, s': State)
    requires Reachable(s) && TweetNext(s, TweetDone) == Some(s')
    requires s.tl.q.job !in s.hist.mixed
    ensures var t, r := TallyIn(s.hist.tally, s.tl.q.job), s.tl.at.ref;
            && Obj(s.mem, r).processed - Obj(s.mem, r).total == t.scored - t.skipped
            && (MarksJobDone(s, s') <==> t.scored >= t.skipped)
  {
    Reached(s);
    EarlyMark(s, s');
  }

  lemma EarlyMark(s: State, s': State)
    requires StoreSide(s) && Separated(s) && EventsCounted(s) && TalliesOk(FlowOf(s))
    requires ChecksDone(s) == Some(s') && s.tl.q.job !in s.hist.mixed
    ensures var t, j := TallyIn(s.hist.tally, s.tl.q.job), Obj(s.mem, s.tl.at.ref);
            && j.processed - j.total == t.scored - t.skipped
            && (MarksJobDone(s, s') <==> t.scored >= t.skipped)
  {
    CheckedInHand(s, s');
    HeldIsExact(s);
    MarkedWhenExact(s, s');
  }

  lemma CheckedInHand(s: State, s': State)
    requires ChecksDone(s) == Some(s')
    ensures s.tl.TweetHas? && s.tl.at.Holding? && s.tl.at.at.CheckDone?
  {
  }

  lemma MarkedWhenExact(s: State, s': State)
    requires StoreSide(s) && ChecksDone(s) == Some(s') && s.tl.TweetHas? && s.tl.at.Holding?
    requires var t, j := TallyIn(s.hist.tally, s.tl.q.job), Obj(s.mem, s.tl.at.ref);
             Exact(t, j) && j.total == t.advanced + t.skipped
    ensures var t, j := TallyIn(s.hist.tally, s.tl.q.job), Obj(s.mem, s.tl.at.ref);
            && j.processed - j.total == t.scored - t.skipped
            && (MarksJobDone(s, s') <==> t.scored >= t.skipped)
  {
    MarkedIff(s, s');
  }

  // ------------------------------------------------------------------ failures

  lemma FailuresGrow(s: State, st: Step, s': State)
    requires Next(s, st) == Some(s')
    ensures s.hist.failed <= s'.hist.failed
  {
  }

  lemma {:induction false} FailuresLast(run: seq<State>, steps: seq<Step>, i: nat)
    requires IsRun(run, steps) && i <= |steps|
    ensures run[0].hist.failed <= run[i].hist.failed
  {
    if i == 0 {
    } else {
      FailuresLast(run, steps, i - 1);
      assert Link(run, steps, i - 1);
      FailuresGrow(run[i - 1], steps[i - 1], run[i]);
    }
  }

  lemma FailuresStay(s: State, s': State)
    requires Reaches(s, s')
    ensures s.hist.failed <= s'.hist.failed
  {
    var run, steps :| IsRun(run, steps) && run[0] == s && run[|steps|] == s';
    FailuresLast(run, steps, |steps|);
  }

  lemma FailedRow(s: State, id: JobId)
    requires Kept(s) && Layered(s.mem) && FailedStay(s) && id in s.hist.failed
    requires !Unsettled(s, id)
    ensures id in s.mem.jobs && StaysFailed(s.mem.jobs[id])
  {
    assert FailedJob(s, id);
    assert LayerOf(s.mem, id, s.mem.latest[id]);
  }

  lemma FailedCopies(s: State, id: JobId)
    requires Kept(s) && FailedStay(s) && LoopsAlone(s) && id in s.hist.failed
    requires !(s.jl.JobRunning? && s.jl.id == id)
    ensures id in s.mem.latest && StaysFailed(Obj(s.mem, s.mem.latest[id]))
    ensures id in s.mem.pending ==> s.mem.pending[id] == s.mem.latest[id]
    ensures id in s.mem.batch ==> s.mem.batch[id] == s.mem.latest[id]
  {
    assert FailedJob(s, id) && LoopAlone(s, id);
  }

  /** Failed is absorbing: from then on, in every later state, no tweet of the job is in the channel or in the
      tweet loop's hand; once the job loop has left it, what was last handed over, what is pending and what is
      being written is the failed job with its error text, and so is the cached job unless a reader has stored an
      older one; and once its updates are written the row says so. */
  lemma FailedForGood(s: State, s': State, id: JobId)
    requires Reachable(s) && Reaches(s, s') && id in s.hist.failed
    ensures id !in s'.archive && (forall o :: o in s'.tweetQ ==> o.job != id) && (s'.tl.TweetHas? ==> s'.tl.q.job != id)
    ensures !(s'.jl.JobRunning? && s'.jl.id == id) ==>
              && id in s'.mem.latest && StaysFailed(Obj(s'.mem, s'.mem.latest[id]))
              && (id in s'.mem.pending ==> StaysFailed(Obj(s'.mem, s'.mem.pending[id])))
              && (id in s'.mem.batch ==> StaysFailed(Obj(s'.mem, s'.mem.batch[id])))
              && (id in s'.mem.cache && !Overtaken(LogOf(s'.mem.log, id)) ==>
                    StaysFailed(Obj(s'.mem, s'.mem.cache[id])))
    ensures !Unsettled(s', id) ==> id in s'.mem.jobs && StaysFailed(s'.mem.jobs[id])
  {
    Reached(s);
    ReachedFrom(s, s');
    FailuresStay(s, s');
    if !(s'.jl.JobRunning? && s'.jl.id == id) {
      FailedCopies(s', id);
      if id in s'.mem.cache && !Overtaken(LogOf(s'.mem.log, id)) {
        FailedCached(s', id);
      }
    }
    if !Unsettled(s', id) {
      FailedRow(s', id);
    }
  }

  lemma FailedCached(s: State, id: JobId)
    requires Kept(s) && FailedStay(s) && CacheKept(s) && id in s.hist.failed && !(s.jl.JobRunning? && s.jl.id == id)
    requires id in s.mem.cache && id in s.mem.latest && !Overtaken(LogOf(s.mem.log, id))
    ensures s.mem.cache[id] == s.mem.latest[id]
  {
    assert Logged(s, id) && FailedJob(s, id);
    assert BetweenUpdates(s, id);
    CacheIsHandOver(s, id);
  }
}
