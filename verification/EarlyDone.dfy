/** A job is shown as done with tweets unscored: exactly for which archives, criteria and policies that can happen,
  and runs in which it does. */
module EarlyDone {
  import opened Model
  import opened Pipeline
  import opened PipelineLinks
  import opened PipelineCopies
  import opened PipelineTotals
  import opened PipelineVerdicts
  import opened PipelineFlow
  import opened FlowPlaces
  import opened FlowTally
  import opened FlowRows
  import opened PipelineRuns
  import opened PipelineTheorems
  import opened TweetTheorems
  import opened StuckTheorems
  import opened Workers
  import opened PipelineRefinement
  import opened TweetRefinement
  import opened FirstJob

  // ------------------------------------------------------------------ when it can happen

  /** Still without its score: on its way to the scorer, or dropped. */
  predicate AwaitsScore(s: State, o: Occurrence) {
    || InJobLoopsHand(s, o) || o in s.tweetQ || StageOf(s.tl) == Before(o)
    || (o in s.hist.place && s.hist.place[o].Dropped?)
  }

  /** `GetJob` shows the job as done, and a tweet of it has no score. */
  ghost predicate ShownDoneEarly(s: State, id: JobId) {
    && id in s.mem.cache && Obj(s.mem, s.mem.cache[id]).status.Done?
    && exists o: Occurrence :: o.job == id && AwaitsScore(s, o)
  }

  ghost predicate JobIs(s: State, id: JobId, policy: Option<seq<string>>, criteria: Option<Criteria>,
                        tweets: seq<Tweet>) {
    && s.cfg.policy == policy && id in s.hist.uploads && s.hist.uploads[id].criteria == criteria
    && id in s.archive && s.archive[id] == tweets
  }

  lemma AwaitingPassed(s: State, o: Occurrence)
    requires Conserved(FlowOf(s)) && Filtered(s) && o.job in s.archive && AwaitsScore(s, o)
    ensures o in s.hist.place && VerdictOf(s.hist.place[o]).LetPass? && !s.hist.place[o].Scored?
    ensures s.hist.place[o].InTweetHand? ==> StageOf(s.tl) == Before(o)
    ensures !FiltersFlag(s.cfg.policy, s.hist.uploads[o.job].criteria, TweetIn(s.archive, o))
  {
    TrackShows(s, o);
    assert o in s.hist.place && PlaceFits(TrackOf(s.jl), s.tweetQ, StageOf(s.tl), o, s.hist.place[o]);
  }

  /** A job with a score has a tweet that has it, or is about to. */
  lemma ScoredPassed(s: State, id: JobId) returns (o: Occurrence)
    requires Conserved(FlowOf(s)) && TalliesOk(FlowOf(s)) && Filtered(s) && id in s.archive
    requires TallyIn(s.hist.tally, id).scored >= 1
    ensures o.job == id && o in s.hist.place
    ensures s.hist.place[o].Scored? || (s.hist.place[o].InTweetHand? && StageOf(s.tl) != Before(o))
    ensures !FiltersFlag(s.cfg.policy, s.hist.uploads[id].criteria, TweetIn(s.archive, o))
  {
    var v := FlowOf(s);
    assert TalliedJob(v, id);
    var i :| i in v.tally[id].scoredAt;
    o := Occ(id, i);
    if i in HandScored(v.stage, id) {
      assert PlaceFits(v.track, v.tweetQ, v.stage, v.stage.q, v.place[v.stage.q]);
    } else {
      assert IsKind(v.place, o, ByScorer);
    }
  }

  lemma ShownScored(s: State, id: JobId)
    requires StoreSide(s) && Bounded(s) && Totals(s) && EventsCounted(s)
    requires Conserved(FlowOf(s)) && TalliesOk(FlowOf(s)) && id in s.hist.uploads
    requires id in s.mem.cache && Obj(s.mem, s.mem.cache[id]).status.Done?
    ensures TallyIn(s.hist.tally, id).scored >= 1
  {
    var j := Obj(s.mem, s.mem.cache[id]);
    assert s.mem.cache[id] in s.mem.heap && j.id == id;
    CopyBounded(s, j);
  }

  lemma TwoPassed(s: State, id: JobId, o: Occurrence)
    requires Conserved(FlowOf(s)) && TalliesOk(FlowOf(s)) && Filtered(s)
    requires id in s.hist.uploads && id in s.archive && TallyIn(s.hist.tally, id).scored >= 1
    requires o.job == id && AwaitsScore(s, o)
    ensures |Passing(s.cfg.policy, s.hist.uploads[id].criteria, s.archive[id], |s.archive[id]|)| >= 2
  {
    AwaitingPassed(s, o);
    var p := ScoredPassed(s, id);
    assert o == Occ(id, o.pos) && p == Occ(id, p.pos) && o != p;
    SmallerSet({o.pos, p.pos}, Passing(s.cfg.policy, s.hist.uploads[id].criteria, s.archive[id], |s.archive[id]|));
  }

  /** One tweet has the score without which no copy is done; the one that waits is another. */
  lemma TwoPass(s: State, id: JobId)
    requires Reachable(s) && id in s.hist.uploads && id in s.archive && ShownDoneEarly(s, id)
    ensures |Passing(s.cfg.policy, s.hist.uploads[id].criteria, s.archive[id], |s.archive[id]|)| >= 2
  {
    Reached(s);
    ShownScored(s, id);
    var o: Occurrence :| o.job == id && AwaitsScore(s, o);
    TwoPassed(s, id, o);
  }

  // ------------------------------------------------------------------ a run for every such archive

  /** The tweet loop receives the first tweet. */
  lemma Received(s: State) returns (t: State)
    requires s.tl == TweetIdle && s.tweetQ != []
    ensures TweetNext(s, TweetTake) == Some(t) && t.hist.uploads == s.hist.uploads
    ensures t == s.(tl := TweetHas(s.tweetQ[0], Check), tweetQ := s.tweetQ[1..], hist := t.hist)
  {
    t := TakesTweet(s).value;
  }

  lemma FirstKnown(s: State)
    requires Reachable(s) && s.tweetQ != []
    ensures Known(s, s.tweetQ[0])
  {
    Reached(s);
    assert s.tweetQ[0] in s.tweetQ;
  }

  /** The first job has been loaded by the tweet loop before anything was flushed, and a tweet of it scored. */
  lemma FirstScored(c: Setup, s: State, q: Occurrence) returns (u: State)
    requires c.cfg.limit > 0 && Reaches(Start(c.cfg), s) && s.tl == TweetHas(q, Check) && Known(s, q)
    requires s.cfg == c.cfg && s.archive == map[0 := c.tweets] && s.quota == map[] && s.now == 0 && s.today == 0
    requires s.mem.heap.Keys == {0, 1} && s.mem.jobs == RowsOf(c)
    requires s.hist.uploads == map[0 := Upload(0, c.criteria, 0)]
    ensures Reaches(Start(c.cfg), u) && u.tl == TweetIdle && u.tweetQ == s.tweetQ && u.cfg == c.cfg
    ensures u.archive == s.archive && u.hist.uploads == s.hist.uploads
    ensures u.rows == MarkProcessed(s.rows, KeyIn(s.archive, q))
    ensures 0 in u.mem.cache && Obj(u.mem, u.mem.cache[0]) == FirstRecord(c, Done, 0).(processed := 1, gemini := 1)
  {
    var given := Circumstances(true, true, Success(false), true, true, true, 0, 0, 0, 0);
    var v := Visit(q, TweetIn(s.archive, q), 2, given, c.cfg.limit, c.cfg.tweetCap, s.mem.cache, s.mem.pending, s);
    u := TweetRefines(s, v);
    ReachesTrans(Start(c.cfg), s, u);
  }

  /** With two tweets or more that pass, after the first score the job is shown as done, with 1 of 0 tweets
      processed, while the others wait in the channel: the row that the tweet loop loaded is that of the upload. */
  lemma DoneWithNoTotal(c: Setup) returns (q: Occurrence, u: State)
    requires c.cfg.hasScorer && c.cfg.limit > 0 && 2 <= PassingUpTo(c, |c.tweets|) <= c.cfg.tweetCap
    ensures Reachable(u) && u.cfg == c.cfg && JobIs(u, 0, c.cfg.policy, c.criteria, c.tweets) && u.tl == TweetIdle
    ensures u.archive.Keys == {0}
    ensures 0 in u.mem.cache
            && var j := Obj(u.mem, u.mem.cache[0]); j.status == Done && j.processed == 1 && j.total == 0
    ensures |u.tweetQ| == PassingUpTo(c, |c.tweets|) - 1
    ensures Known(u, q) && KeyIn(u.archive, q) in u.rows && u.rows[KeyIn(u.archive, q)].processed
  {
    var s1 := AfterPhaseTwo(c);
    StartIsInit(c.cfg);
    FirstKnown(s1);
    q := s1.tweetQ[0];
    var s2 := Received(s1);
    ReachesThen(Start(c.cfg), s1, T(TweetTake), s2);
    u := FirstScored(c, s2, q);
    assert Key(0, c.tweets[q.pos].id) in s1.rows;
  }

  ghost predicate EarlyDoneHappens(policy: Option<seq<string>>, criteria: Option<Criteria>, tweets: seq<Tweet>) {
    exists s, id :: Reachable(s) && JobIs(s, id, policy, criteria, tweets) && ShownDoneEarly(s, id)
  }

  lemma EarlyDoneNeedsTwo(policy: Option<seq<string>>, criteria: Option<Criteria>, tweets: seq<Tweet>)
    requires EarlyDoneHappens(policy, criteria, tweets)
    ensures |Passing(policy, criteria, tweets, |tweets|)| >= 2
  {
    var s, id :| Reachable(s) && JobIs(s, id, policy, criteria, tweets) && ShownDoneEarly(s, id);
    TwoPass(s, id);
  }

  lemma EarlyDoneWithTwo(policy: Option<seq<string>>, criteria: Option<Criteria>, tweets: seq<Tweet>)
    requires |Passing(policy, criteria, tweets, |tweets|)| >= 2
    ensures EarlyDoneHappens(policy, criteria, tweets)
  {
    var c := Setup(Config(1, true, policy, 0, |Passing(policy, criteria, tweets, |tweets|)|), criteria, tweets);
    var q, u := DoneWithNoTotal(c);
    AllOfFirstJob(u);
    assert u.tweetQ[0].job == 0 && AwaitsScore(u, u.tweetQ[0]);
    assert ShownDoneEarly(u, 0) && JobIs(u, 0, policy, criteria, tweets);
  }

  /** Whether a job can be shown as done with a tweet unscored: exactly if the filters let two of its tweets pass. */
  lemma EarlyDoneIff(policy: Option<seq<string>>, criteria: Option<Criteria>, tweets: seq<Tweet>)
    ensures EarlyDoneHappens(policy, criteria, tweets) <==> |Passing(policy, criteria, tweets, |tweets|)| >= 2
  {
    if EarlyDoneHappens(policy, criteria, tweets) {
      EarlyDoneNeedsTwo(policy, criteria, tweets);
    }
    if |Passing(policy, criteria, tweets, |tweets|)| >= 2 {
      EarlyDoneWithTwo(policy, criteria, tweets);
    }
  }

  lemma AllOfFirstJob(u: State)
    requires Reachable(u) && u.tweetQ != [] && u.archive.Keys == {0}
    ensures u.tweetQ[0].job == 0
  {
    FirstKnown(u);
  }

  // ------------------------------------------------------------------ flush-separated, too

  const CONFIG := Config(100, true, None, 10, 10)
  const TWEETS := [Tweet(1, "first"), Tweet(2, "second")]

  function Two(): Setup {
    Setup(CONFIG, None, TWEETS)
  }

  lemma OneQueued(p: PhaseTwo)
    requires p.job == FirstRecord(Two(), Running, 2).(processed := p.next) && p.next < 2 && p.flags == 0 && !p.blocked
    requires |p.queue| == p.next
    ensures var q := Turn(p, TWEETS[p.next], Around(Two()));
            && !SendWaits(p, TWEETS[p.next], Around(Two()))
            && !q.blocked && q.next == p.next + 1 && q.flags == 0 && q.queue == p.queue + [Occ(0, p.next)]
            && q.job == p.job.(processed := p.next + 1)
  {
  }

  /** Both tweets are queued and counted. */
  lemma BothQueued(p: PhaseTwo)
    requires p.job == FirstRecord(Two(), Running, 2) && p.reports == [] && p.next == 0 && p.flags == 0
    requires p.queue == [] && !p.blocked
    ensures var q := Turns(p, TWEETS, Around(Two()), 2);
            && !q.blocked && q.flags == 0 && q.queue == [Occ(0, 0), Occ(0, 1)]
            && q.job == FirstRecord(Two(), Running, 2).(processed := 2)
  {
    var around := Around(Two());
    OneQueued(p);
    var p1 := Turn(p, TWEETS[0], around);
    OneQueued(p1);
    assert Turns(p1, TWEETS, around, 2) == Turns(Turn(p1, TWEETS[1], around), TWEETS, around, 2);
  }

  /** Phase 2 is over, and nothing is in the database yet. */
  lemma BothSent() returns (s: State)
    ensures Reaches(Start(CONFIG), s) && s.tl == TweetIdle && s.tweetQ == [Occ(0, 0), Occ(0, 1)]
    ensures s.archive == map[0 := TWEETS]
    ensures s.cfg == CONFIG && s.quota == map[] && s.now == 0 && s.today == 0 && s.mem.batch == map[]
    ensures s.mem.heap.Keys == {0, 1} && Obj(s.mem, 1) == FirstRecord(Two(), Running, 2).(processed := 2)
    ensures s.mem.pending == map[0 := 1] && s.mem.jobs == RowsOf(Two())
  {
    var s1 := BeforePhaseTwo(Two());
    var q;
    s, q := Leads(Two(), s1);
    BothQueued(AtLoop(s1, 1));
  }

  function NoneFails(): JobId -> bool {
    id => true
  }

  lemma OneRowFlushed(values: map<JobId, Job>, written: set<JobId>, after: map<JobId, Job>)
    requires 0 in values && values[0] == FirstRecord(Two(), Running, 2).(processed := 2) && 0 in written
    requires FlushedTo(RowsOf(Two()), values, written, NoneFails(), after)
    ensures 0 in after && after[0] == FirstRecord(Two(), Running, 2).(processed := 2)
  {
  }

  lemma Flushed() returns (s: State)
    ensures Reaches(Start(CONFIG), s) && s.tl == TweetIdle && s.tweetQ == [Occ(0, 0), Occ(0, 1)]
    ensures s.archive == map[0 := TWEETS]
    ensures s.cfg == CONFIG && s.quota == map[] && s.now == 0 && s.today == 0 && s.mem.heap.Keys == {0, 1}
    ensures 0 in s.mem.jobs && s.mem.jobs[0] == FirstRecord(Two(), Running, 2).(processed := 2)
    ensures s.mem.pending == map[] && s.mem.batch == map[]
  {
    var t := BothSent();
    assert 0 in t.mem.pending;
    s := FlushRefines(t, NoneFails());
    OneRowFlushed(ValuesOf(t.mem.heap, t.mem.pending), t.mem.pending.Keys, s.mem.jobs);
    ReachesTrans(Start(CONFIG), t, s);
  }

  /** From start, with no write failing and every update in the database before phase 3: after the first of two
      tweets is scored, the job is marked done, with 3 of 2 tweets processed, and the second tweet is in the
      channel, unscored. */
  lemma DoneWithTweetWaiting() returns (s: State)
    ensures Reachable(s)
    ensures 0 in s.mem.cache
            && var j := Obj(s.mem, s.mem.cache[0]); j.status == Done && j.processed == 3 && j.total == 2
    ensures s.tl == TweetIdle && s.tweetQ == [Occ(0, 1)]
  {
    var s1 := Flushed();
    var s2 := Received(s1);
    assert [Occ(0, 0), Occ(0, 1)][1..] == [Occ(0, 1)];
    ReachesThen(Start(CONFIG), s1, T(TweetTake), s2);
    var given := Circumstances(true, true, Success(false), true, true, true, 0, 0, 0, 0);
    var v := Visit(Occ(0, 0), TWEETS[0], 2, given, 100, 10, s2.mem.cache, s2.mem.pending, s2);
    s := TweetRefines(s2, v);
    ReachesTrans(Start(CONFIG), s2, s);
    StartIsInit(CONFIG);
  }

  // ------------------------------------------------------------------ two tweets with one ID

  const TWINS := [Tweet(7, "one"), Tweet(7, "other")]

  lemma TwinsShareKey(archive: Archive, o: Occurrence)
    requires archive == map[0 := TWINS] && o.job in archive && o.pos < |archive[o.job]|
    ensures KeyIn(archive, o) == Key(0, 7)
  {
    assert o.pos == 0 || o.pos == 1;
  }

  /** From start, with no write failing: of two tweets with one ID the first is scored; the second waits in the
      channel, and no recovery query finds it. */
  lemma DuplicateIsNotRecovered(limit: int, q: seq<Key>) returns (s: State)
    ensures Reachable(s) && s.archive == map[0 := TWINS] && |s.tweetQ| == 1
    ensures StillToScore(s, s.tweetQ[0]) && KeyIn(s.archive, s.tweetQ[0]) == Key(0, 7)
    ensures IsRecovery(s.rows, 0, limit, q) ==> Key(0, 7) !in q
  {
    var c := Setup(CONFIG, None, TWINS);
    TwinsPass(c);
    var p;
    p, s := DoneWithNoTotal(c);
    FirstKnown(s);
    assert s.archive == map[0 := TWINS];
    TwinsShareKey(s.archive, s.tweetQ[0]);
    TwinsShareKey(s.archive, p);
    NotRecovered(s.rows, Key(0, 7), limit, q);
  }

  lemma NotRecovered(rows: map<Key, TweetRow>, k: Key, limit: int, q: seq<Key>)
    requires k in rows && rows[k].processed
    ensures IsRecovery(rows, k.job, limit, q) ==> k !in q
  {
    assert !ToScore(rows, k.job, k);
  }

  lemma TwinsPass(c: Setup)
    requires c == Setup(CONFIG, None, TWINS)
    ensures PassingUpTo(c, |c.tweets|) == 2
  {
    assert Passing(c.cfg.policy, c.criteria, c.tweets, 2) == {0, 1};
  }
}
