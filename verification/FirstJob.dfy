/** The way of a first job from start to the end of phase 2, for any archive, criteria and configuration, with no
  write failing and nothing flushed: the common beginning of the runs that show what may go wrong. */
module FirstJob {
  import opened Model
  import opened Pipeline
  import opened PipelineLinks
  import opened PipelineVerdicts
  import FlowTally
  import opened Workers
  import opened PhaseOneRefinement
  import opened PipelineRefinement

  datatype Setup = Setup(cfg: Config, criteria: Option<Criteria>, tweets: seq<Tweet>)

  function Start(cfg: Config): State {
    State(cfg, Store(map[], map[], map[], map[], map[], map[], {}, {}, map[], map[]), [], [], JobIdle, TweetIdle,
          map[], {}, {}, DEFAULT_CRITERIA, map[], map[], [], map[], 0, 0,
          History(map[], map[], map[], map[], map[], {}, {}, {}, [], 0, 0, 0, 0, true, BLANK))
  }

  lemma StartIsInit(cfg: Config)
    ensures Init(Start(cfg))
  {
  }

  function FirstRecord(c: Setup, status: Status, total: int): Job {
    Job(0, 0, status, 0, total, 0, 0, c.criteria, "", 0, 0)
  }

  /** The uploaded record, and the job loop's. */
  function Records(c: Setup, job: Job): Heap {
    map[0 := FirstRecord(c, Queued, 0), 1 := job]
  }

  function RowsOf(c: Setup): map<JobId, Job> {
    map[0 := FirstRecord(c, Queued, 0)]
  }

  /** Job 0 is the only job; the tweet loop is idle and nothing is queued for it. */
  ghost predicate Quiet(s: State, c: Setup, heap: Heap, cache: map<JobId, Ref>, pending: map<JobId, Ref>) {
    && s.cfg == c.cfg && s.tl == TweetIdle && s.tweetQ == [] && s.flagged == [] && s.quota == map[]
    && s.mem.heap == heap && s.mem.jobs == RowsOf(c) && s.mem.cache == cache && s.mem.pending == pending
    && s.mem.batch == map[] && s.now == 0 && s.today == 0 && s.hist.uploads == map[0 := Upload(0, c.criteria, 0)]
  }

  /** The job has been uploaded, and the job loop has received it. */
  lemma JobReceived(c: Setup) returns (t: State)
    ensures Reaches(Start(c.cfg), t) && t.jl == JobTaken(0) && t.archive == map[] && t.rows == map[]
    ensures Quiet(t, c, map[0 := FirstRecord(c, Queued, 0)], map[0 := 0], map[])
  {
    var s0 := Start(c.cfg);
    var s1 := EnqueueRefines(s0, Entry(0, 0, c.criteria, true, 0));
    t := TakesJob(s1).value;
    ReachesThen(s0, s1, J(JobTake), t);
  }

  // ------------------------------------------------------------------ phase 1

  /** The rows of the first `i` tweets are there. */
  ghost predicate RowsThere(rows: map<Key, TweetRow>, tweets: seq<Tweet>, i: nat) {
    forall j :: 0 <= j < i && j < |tweets| ==> Key(0, tweets[j].id) in rows
  }

  lemma {:induction false} AllSaved(tweets: seq<Tweet>, n: nat, saves: nat -> bool)
    requires n <= |tweets| && forall i :: saves(i)
    ensures RowsThere(SavedRows(map[], 0, tweets, n, 0, saves), tweets, n)
  {
    if n == 0 {
    } else {
      AllSaved(tweets, n - 1, saves);
    }
  }

  /** Phase 2 is about to begin. */
  ghost predicate Ready(c: Setup, s: State) {
    && Reaches(Start(c.cfg), s) && s.jl == JobRunning(0, 1, Filter(0, 0)) && s.archive == map[0 := c.tweets]
    && Quiet(s, c, Records(c, FirstRecord(c, Running, |c.tweets|)), map[0 := 1], map[0 := 1])
    && RowsThere(s.rows, c.tweets, |c.tweets|)
  }

  lemma BeforePhaseTwo(c: Setup) returns (s: State)
    ensures Ready(c, s)
  {
    var t := JobReceived(c);
    var o := Opening(0, 1, Archive(c.tweets), i => true);
    s := PhaseOneRefines(t, o);
    ReachesTrans(Start(c.cfg), t, s);
    AllSaved(c.tweets, |c.tweets|, o.saves);
    OneEntry(t.mem.cache, t.mem.pending);
  }

  lemma OneEntry(cache: map<JobId, Ref>, pending: map<JobId, Ref>)
    requires cache == map[0 := 0] && pending == map[]
    ensures cache[0 := 1] == map[0 := 1] && pending[0 := 1] == map[0 := 1]
  {
  }

  // ------------------------------------------------------------------ phase 2

  function Around(c: Setup): Surroundings {
    Surroundings(c.cfg.policy, c.cfg.hasScorer, c.cfg.tweetCap, 0, i => true, i => true)
  }

  function PassingUpTo(c: Setup, n: nat): nat {
    |Passing(c.cfg.policy, c.criteria, c.tweets, n)|
  }

  /** The tweets so far that the filters let pass are in the channel. */
  ghost predicate QueueFilled(c: Setup, p: PhaseTwo) {
    && p.job.criteria == c.criteria && p.next <= |c.tweets|
    && |p.queue| == PassingUpTo(c, p.next) <= c.cfg.tweetCap
  }

  lemma TurnFills(c: Setup, p: PhaseTwo)
    requires c.cfg.hasScorer && QueueFilled(c, p) && p.next < |c.tweets| && !p.blocked
    ensures var q := Turn(p, c.tweets[p.next], Around(c));
            && QueueFilled(c, q) && q.rows.Keys == p.rows.Keys
            && q.next == (if q.blocked then p.next else p.next + 1)
            && (q.blocked <==> SendWaits(p, c.tweets[p.next], Around(c)))
            && (q.blocked ==> |q.queue| == c.cfg.tweetCap)
            && (q.blocked ==> !FiltersFlag(c.cfg.policy, c.criteria, c.tweets[p.next]))
  {
    PassingOn(c.cfg.policy, c.criteria, c.tweets, p.next);
  }

  /** Phase 2 has come to its end, or waits with a tweet that the filters let pass. */
  predicate EndsOrWaits(c: Setup, q: PhaseTwo) {
    if q.blocked then
      && q.next < |c.tweets| && |q.queue| == c.cfg.tweetCap
      && !FiltersFlag(c.cfg.policy, c.criteria, c.tweets[q.next])
    else q.next == |c.tweets|
  }

  /** Without failing writes phase 2 goes on until all tweets that pass are sent, or the channel is full. */
  lemma {:induction false} QueueFills(c: Setup, p: PhaseTwo)
    requires c.cfg.hasScorer && QueueFilled(c, p) && !p.blocked
    ensures var q := Turns(p, c.tweets, Around(c), |c.tweets|);
            && QueueFilled(c, q) && q.rows.Keys == p.rows.Keys
            && EndsOrWaits(c, q)
    decreases |c.tweets| - p.next
  {
    if p.next == |c.tweets| {
    } else {
      TurnFills(c, p);
      if !SendWaits(p, c.tweets[p.next], Around(c)) {
        QueueFills(c, Turn(p, c.tweets[p.next], Around(c)));
      }
    }
  }

  /** Phase 2 is over, or waits to send a tweet into the full channel. */
  ghost predicate PhaseTwoEnds(c: Setup, s: State, waits: bool) {
    && Reaches(Start(c.cfg), s) && s.tl == TweetIdle && s.cfg == c.cfg && s.archive == map[0 := c.tweets]
    && s.quota == map[] && s.now == 0 && s.today == 0 && s.mem.batch == map[] && s.mem.heap.Keys == {0, 1}
    && s.mem.jobs == RowsOf(c) && s.mem.cache == map[0 := 1] && s.mem.pending == map[0 := 1]
    && s.hist.uploads == map[0 := Upload(0, c.criteria, 0)] && RowsThere(s.rows, c.tweets, |c.tweets|)
    && (if waits then s.jl.JobRunning? && s.jl.at.Marked? && |s.tweetQ| == c.cfg.tweetCap
        else s.jl == JobIdle && |s.tweetQ| == PassingUpTo(c, |c.tweets|))
  }

  lemma NoMoreThanAll(c: Setup, n: nat)
    requires n <= |c.tweets|
    ensures PassingUpTo(c, n) <= n
    ensures PassingUpTo(c, n) <= PassingUpTo(c, |c.tweets|)
  {
    var some := Passing(c.cfg.policy, c.criteria, c.tweets, n);
    Fits(some, n);
    FlowTally.SmallerSet(some, Passing(c.cfg.policy, c.criteria, c.tweets, |c.tweets|));
  }

  lemma {:induction false} Fits(a: set<nat>, n: nat)
    requires forall i :: i in a ==> i < n
    ensures |a| <= n
  {
    if n == 0 {
      assert a == {};
    } else {
      Fits(a - {n - 1}, n - 1);
    }
  }

  lemma SceneReady(c: Setup, s: State) returns (scene: Scene)
    requires Ready(c, s)
    ensures scene == Scene(0, 1, c.tweets, Around(c), s.mem.cache, s.mem.pending, s)
    ensures Here(s, scene, AtLoop(s, 1), Filter(0, 0))
  {
    scene := Scene(0, 1, c.tweets, Around(c), s.mem.cache, s.mem.pending, s);
  }

  /** Where phase 2 begins and where the method leaves it. */
  lemma Leads(c: Setup, s: State) returns (u: State, q: PhaseTwo)
    requires Ready(c, s)
    ensures q == Turns(AtLoop(s, 1), c.tweets, Around(c), |c.tweets|)
    ensures Reaches(Start(c.cfg), u) && Apart(u, s) && u.rows == q.rows && u.tweetQ == q.queue
    ensures u.mem.cache == map[0 := 1] && u.mem.pending == map[0 := 1]
    ensures Obj(u.mem, 1) == if q.blocked then q.job else q.job.(flagged := q.flags, updatedAt := 0)
    ensures if q.blocked then u.jl == JobRunning(0, 1, Marked(q.next, q.flags)) else u.jl == JobIdle
  {
    var scene := SceneReady(c, s);
    u := PhaseTwoRefines(s, scene);
    q := Turns(AtLoop(s, 1), c.tweets, Around(c), |c.tweets|);
    ReachesTrans(Start(c.cfg), s, u);
    var m1: map<JobId, Ref> := map[0 := 1];
    assert m1[0 := 1] == m1;
  }

  /** It waits exactly if the channel does not hold all the tweets that pass. */
  lemma AfterPhaseTwo(c: Setup) returns (u: State)
    requires c.cfg.hasScorer
    ensures PhaseTwoEnds(c, u, PassingUpTo(c, |c.tweets|) > c.cfg.tweetCap)
  {
    var s := BeforePhaseTwo(c);
    var q;
    u, q := Leads(c, s);
    QueueFilledAtStart(c, AtLoop(s, 1));
    assert s.rows.Keys == AtLoop(s, 1).rows.Keys;
    QueueFills(c, AtLoop(s, 1));
    WaitsIffFull(c, q);
  }

  lemma QueueFilledAtStart(c: Setup, p: PhaseTwo)
    requires p.job.criteria == c.criteria && p.next == 0 && p.queue == []
    ensures QueueFilled(c, p)
  {
    assert Passing(c.cfg.policy, c.criteria, c.tweets, 0) == {};
  }

  lemma WaitsIffFull(c: Setup, q: PhaseTwo)
    requires QueueFilled(c, q) && EndsOrWaits(c, q)
    ensures q.blocked <==> PassingUpTo(c, |c.tweets|) > c.cfg.tweetCap
  {
    if q.blocked {
      PassingOn(c.cfg.policy, c.criteria, c.tweets, q.next);
      NoMoreThanAll(c, q.next + 1);
    }
  }
}
