/** Runs in which the tweet loop waits for itself, for every archive with more tweets to score than the channel
  holds. */
module StuckRuns {
  import opened Model
  import opened Pipeline
  import opened PipelineLinks
  import opened PipelineVerdicts
  import opened StuckTheorems
  import opened Workers
  import opened PipelineRefinement
  import opened TweetRefinement
  import opened FirstJob
  import opened EarlyDone

  lemma Sent(s: State) returns (t: State)
    requires s.jl.JobRunning? && s.jl.at.Marked? && ChannelTakes(s)
    ensures JobNext(s, JobSend) == Some(t) && t.hist.uploads == s.hist.uploads
    ensures t == s.(jl := t.jl, tweetQ := s.tweetQ + [Occ(s.jl.id, s.jl.at.next)], hist := t.hist)
  {
    t := SendsTweet(s).value;
  }

  /** The tweet loop has received a tweet, and the job loop has filled the channel. */
  ghost predicate FullAgain(c: Setup, s: State, q: Occurrence) {
    && Reaches(Start(c.cfg), s) && s.tl == TweetHas(q, Check) && Known(s, q) && |s.tweetQ| >= c.cfg.tweetCap
    && s.cfg == c.cfg && s.archive == map[0 := c.tweets] && s.quota == map[] && s.now == 0 && s.today == 0
    && s.mem.heap.Keys == {0, 1} && s.mem.jobs == RowsOf(c)
    && s.hist.uploads == map[0 := Upload(0, c.criteria, 0)]
  }

  /** A channel without a buffer: the tweet goes from loop to loop, and the channel is always full. */
  lemma FilledWithoutBuffer(c: Setup, s: State) returns (q: Occurrence, u: State)
    requires PhaseTwoEnds(c, s, true) && c.cfg.tweetCap == 0
    ensures FullAgain(c, u, q)
  {
    var t := Sent(s);
    ReachesThen(Start(c.cfg), s, J(JobSend), t);
    StartIsInit(c.cfg);
    FirstKnown(t);
    q := t.tweetQ[0];
    u := Received(t);
    ReachesThen(Start(c.cfg), t, T(TweetTake), u);
  }

  /** One with a buffer: the tweet loop takes a tweet, and the job loop sends the one it waits with. */
  lemma FilledWithBuffer(c: Setup, s: State) returns (q: Occurrence, u: State)
    requires PhaseTwoEnds(c, s, true) && c.cfg.tweetCap > 0
    ensures FullAgain(c, u, q)
  {
    StartIsInit(c.cfg);
    FirstKnown(s);
    q := s.tweetQ[0];
    var t := Received(s);
    ReachesThen(Start(c.cfg), s, T(TweetTake), t);
    u := Sent(t);
    ReachesThen(Start(c.cfg), t, J(JobSend), u);
  }

  /** The API's quota turns out to be spent, and the tweet cannot be put back. */
  lemma QuotaFoundSpent(c: Setup, s: State, q: Occurrence) returns (u: State)
    requires FullAgain(c, s, q) && c.cfg.limit > 0
    ensures Reaches(Start(c.cfg), u) && Stuck(u) && u.cfg == c.cfg && u.archive == s.archive
    ensures u.hist.uploads == s.hist.uploads
  {
    var given := Circumstances(true, true, QuotaSpent, true, true, true, 0, 0, 0, 0);
    var v := Visit(q, TweetIn(s.archive, q), 2, given, c.cfg.limit, c.cfg.tweetCap, s.mem.cache, s.mem.pending, s);
    u := TweetRefines(s, v);
    ReachesTrans(Start(c.cfg), s, u);
  }

  lemma StuckRun(c: Setup) returns (u: State)
    requires c.cfg.hasScorer && c.cfg.limit > 0 && PassingUpTo(c, |c.tweets|) > c.cfg.tweetCap
    ensures Reachable(u) && Stuck(u) && u.cfg == c.cfg && OnlyArchive(u, 0, c.criteria, c.tweets)
  {
    var s := AfterPhaseTwo(c);
    var q, t;
    if c.cfg.tweetCap == 0 {
      q, t := FilledWithoutBuffer(c, s);
    } else {
      q, t := FilledWithBuffer(c, s);
    }
    u := QuotaFoundSpent(c, t, q);
    StartIsInit(c.cfg);
  }

  ghost predicate GetsStuck(policy: Option<seq<string>>, cap: nat, criteria: Option<Criteria>, tweets: seq<Tweet>) {
    exists s, id ::
      && Reachable(s) && s.cfg.policy == policy && s.cfg.tweetCap == cap
      && OnlyArchive(s, id, criteria, tweets) && Stuck(s)
  }

  lemma StuckNeedsMore(policy: Option<seq<string>>, cap: nat, criteria: Option<Criteria>, tweets: seq<Tweet>)
    requires GetsStuck(policy, cap, criteria, tweets)
    ensures |Passing(policy, criteria, tweets, |tweets|)| > cap
  {
    var s, id :| Reachable(s) && s.cfg.policy == policy && s.cfg.tweetCap == cap
                 && OnlyArchive(s, id, criteria, tweets) && Stuck(s);
    StuckWithOne(s, id, criteria, tweets);
  }

  lemma StuckWithMore(policy: Option<seq<string>>, cap: nat, criteria: Option<Criteria>, tweets: seq<Tweet>)
    requires |Passing(policy, criteria, tweets, |tweets|)| > cap
    ensures GetsStuck(policy, cap, criteria, tweets)
  {
    var u := StuckRun(Setup(Config(1, true, policy, 0, cap), criteria, tweets));
    assert OnlyArchive(u, 0, criteria, tweets);
  }

  /** Whether the pipeline can get stuck with one archive: exactly if the filters let more of its tweets pass than
      the channel holds.  (`NeverStuckWithRoom` says the same of any number of archives, one way.) */
  lemma StuckIff(policy: Option<seq<string>>, cap: nat, criteria: Option<Criteria>, tweets: seq<Tweet>)
    ensures GetsStuck(policy, cap, criteria, tweets) <==> |Passing(policy, criteria, tweets, |tweets|)| > cap
  {
    if GetsStuck(policy, cap, criteria, tweets) {
      StuckNeedsMore(policy, cap, criteria, tweets);
    }
    if |Passing(policy, criteria, tweets, |tweets|)| > cap {
      StuckWithMore(policy, cap, criteria, tweets);
    }
  }
}
