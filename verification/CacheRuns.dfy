/** Two runs from start after which the cache shows another object than the one last handed over: an update of the
  job loop within one of the tweet loop, and a reader that comes late. */
module CacheRuns {
  import opened Model
  import opened Pipeline
  import opened PipelineShapes
  import opened PipelineLinks
  import PipelineCache
  import PipelineRuns
  import opened CacheLogs
  import opened PipelineTheorems
  import opened Workers
  import opened PipelineRefinement
  import opened TweetRefinement
  import opened FirstJob
  import opened EarlyDone

  // ------------------------------------------------------------------ an update within an update

  /** One tweet, and no quota at all. */
  function One(): Setup {
    Setup(Config(0, true, None, 1, 1), None, [Tweet(1, "only")])
  }

  lemma OneQueued(p: PhaseTwo)
    requires p.job == FirstRecord(One(), Running, 1) && p.reports == [] && p.next == 0 && p.flags == 0
    requires p.queue == [] && !p.blocked
    ensures var q := Turns(p, One().tweets, Around(One()), 1);
            && !q.blocked && q.next == 1 && q.reports == [] && q.queue == [Occ(0, 0)] && q.flags == 0
            && q.job == FirstRecord(One(), Running, 1).(processed := 1)
  {
    var q := Turn(p, One().tweets[0], Around(One()));
    assert q.next == 1 && q.queue == [Occ(0, 0)];
  }

  /** The job loop is about to report the end of phase 2; its tweet is in the channel. */
  ghost predicate AtLastReport(s: State) {
    && Reaches(Start(One().cfg), s) && s.cfg == One().cfg && s.tl == TweetIdle && s.tweetQ == [Occ(0, 0)]
    && s.jl == JobRunning(0, 1, Store1(ToEnd)) && s.quota == map[]
    && s.mem.heap.Keys == {0, 1} && s.mem.heap[1] == FirstRecord(One(), Running, 1).(processed := 1)
    && s.mem.jobs == RowsOf(One()) && s.now == 0
  }

  lemma LoopLeft() returns (t: State)
    ensures AtLastReport(t)
  {
    var s := BeforePhaseTwo(One());
    var scene := SceneReady(One(), s);
    OneQueued(AtLoop(s, 1));
    var u := TurnsReached(Start(One().cfg), s, scene, AtLoop(s, 1));
    var q := Turns(AtLoop(s, 1), One().tweets, Around(One()), 1);
    t := FinishStep(u, scene, q);
    ReachesThen(Start(One().cfg), u, J(JobFinish), t);
  }

  /** The tweet loop is about to report the job as paused. */
  ghost predicate BothAtReports(s: State) {
    && Reaches(Start(One().cfg), s) && s.jl == JobRunning(0, 1, Store1(ToEnd))
    && s.tl == TweetHas(Occ(0, 0), Holding(2, Put1(ToDrop))) && s.now == 0
    && s.mem.heap.Keys == {0, 1, 2} && s.mem.heap[1] == FirstRecord(One(), Running, 1).(processed := 1)
    && s.mem.heap[2] == FirstRecord(One(), PausedQuota, 0)
  }

  lemma Checked(s: State) returns (t: State)
    requires s.tl == TweetHas(Occ(0, 0), Check) && s.quota == map[] && s.cfg.limit == 0
    ensures TweetNext(s, TweetCheck(true)) == Some(t)
    ensures t == s.(tl := TweetHas(Occ(0, 0), OverQuota), hist := t.hist)
  {
    t := ChecksQuota(s, true).value;
  }

  lemma Paused(s: State) returns (t: State)
    requires s.tl == TweetHas(Occ(0, 0), OverQuota) && s.mem.jobs == RowsOf(One()) && 2 !in s.mem.heap
    ensures TweetNext(s, TweetPause(2, true)) == Some(t) && t.jl == s.jl && t.now == s.now
    ensures t.tl == TweetHas(Occ(0, 0), Holding(2, Put1(ToDrop)))
    ensures t.mem.heap == s.mem.heap[2 := FirstRecord(One(), PausedQuota, 0)]
  {
    t := PausesJob(s, 2, true).value;
    PauseShape(s, 2, true, t);
  }

  lemma BothLoaded() returns (u: State)
    ensures BothAtReports(u)
  {
    var s := LoopLeft();
    var s1 := Received(s);
    ReachesThen(Start(One().cfg), s, T(TweetTake), s1);
    var s2 := Checked(s1);
    ReachesThen(Start(One().cfg), s1, T(TweetCheck(true)), s2);
    u := Paused(s2);
    ReachesThen(Start(One().cfg), s2, T(TweetPause(2, true)), u);
  }

  lemma TweetStores0(s: State) returns (t: State)
    requires BothAtReports(s)
    ensures TweetNext(s, TweetStore) == Some(t)
    ensures t == s.(tl := TweetHas(Occ(0, 0), Holding(2, Put2(ToDrop))), mem := t.mem) && t.mem.heap == s.mem.heap
  {
    t := StampShape(s, Occ(0, 0), 2, ToDrop);
    assert t.mem.heap == s.mem.heap;
  }

  lemma JobStores0(s: State) returns (t: State)
    requires s.jl == JobRunning(0, 1, Store1(ToEnd)) && s.now == 0 && 1 in s.mem.heap
    requires s.mem.heap[1] == FirstRecord(One(), Running, 1).(processed := 1)
    ensures JobNext(s, JobStore) == Some(t)
    ensures t == s.(jl := JobRunning(0, 1, Store2(ToEnd)), mem := t.mem) && t.mem.heap == s.mem.heap
    ensures t.mem.cache == s.mem.cache[0 := 1]
  {
    t := JobUpdate1(s).value;
  }

  lemma JobHands0(s: State) returns (t: State)
    requires s.jl == JobRunning(0, 1, Store2(ToEnd))
    ensures JobNext(s, JobPut) == Some(t) && t.jl == JobIdle && t.tl == s.tl && t.callers == s.callers
    ensures t.mem.heap == s.mem.heap && t.mem.cache == s.mem.cache
  {
    t := JobUpdate2(s).value;
  }

  lemma TweetHands0(s: State) returns (t: State)
    requires s.tl == TweetHas(Occ(0, 0), Holding(2, Put2(ToDrop))) && Obj(s.mem, 2).id == 0
    ensures TweetNext(s, TweetPut) == Some(t) && t.jl == s.jl && t.tl == TweetHas(Occ(0, 0), Drop)
    ensures t.mem.heap == s.mem.heap && t.mem.cache == s.mem.cache
    ensures t.mem.pending == s.mem.pending[0 := 2] && t.mem.latest == s.mem.latest[0 := 2]
  {
    t := TweetUpdate2(s).value;
  }

  lemma NoCallers(s: State)
    requires Reachable(s) && s.tl.TweetHas?
    ensures s.tl.q.job !in s.callers
  {
    PipelineRuns.Reached(s);
    PipelineCache.WorkersUploaded(s);
  }

  /** The tweet loop has cached its object, and the job loop its own. */
  lemma BothStored() returns (s: State)
    ensures Reaches(Start(One().cfg), s) && s.jl == JobRunning(0, 1, Store2(ToEnd))
    ensures s.tl == TweetHas(Occ(0, 0), Holding(2, Put2(ToDrop))) && 0 in s.mem.cache && s.mem.cache[0] == 1
    ensures s.mem.heap.Keys == {0, 1, 2} && s.mem.heap[1] == FirstRecord(One(), Running, 1).(processed := 1)
    ensures s.mem.heap[2] == FirstRecord(One(), PausedQuota, 0)
  {
    var s0 := BothLoaded();
    var s1 := TweetStores0(s0);
    ReachesThen(Start(One().cfg), s0, T(TweetStore), s1);
    s := JobStores0(s1);
    ReachesThen(Start(One().cfg), s1, J(JobStore), s);
  }

  /** The tweet loop reports the job as paused, and while it does the job loop reports the end of phase 2: between
      updates, the cache shows a running job with its tweet processed, and a paused one with none goes to the
      database. */
  lemma NestedUpdateDiverges() returns (s: State)
    ensures Reachable(s) && BetweenUpdates(s, 0) && Overtaken(LogOf(s.mem.log, 0))
    ensures 0 in s.mem.cache && 0 in s.mem.latest && 0 in s.mem.pending
    ensures s.mem.cache[0] != s.mem.latest[0] && s.mem.pending[0] == s.mem.latest[0]
    ensures Obj(s.mem, s.mem.cache[0]).status == Running && Obj(s.mem, s.mem.cache[0]).processed == 1
    ensures Obj(s.mem, s.mem.pending[0]).status == PausedQuota && Obj(s.mem, s.mem.pending[0]).processed == 0
  {
    var s2 := BothStored();
    var s3 := JobHands0(s2);
    ReachesThen(Start(One().cfg), s2, J(JobPut), s3);
    s := TweetHands0(s3);
    ReachesThen(Start(One().cfg), s3, T(TweetPut), s);
    StartIsInit(One().cfg);
    NoCallers(s);
    SoOvertaken(s);
  }

  lemma SoOvertaken(s: State)
    requires Reachable(s) && BetweenUpdates(s, 0) && 0 in s.mem.cache && 0 in s.mem.latest
    requires s.mem.cache[0] != s.mem.latest[0]
    ensures Overtaken(LogOf(s.mem.log, 0))
  {
    PipelineRuns.Reached(s);
    CacheShowsHandOverIff(s, 0);
  }

  // ------------------------------------------------------------------ a late reader

  /** A caller of `GetJob` asks between the first save of a job and its entry in the cache, and stores what it read
      after that entry: between updates, the cache shows the reader's object. */
  lemma LateReaderDiverges(cfg: Config) returns (s: State)
    ensures Reachable(s) && BetweenUpdates(s, 0) && Overtaken(LogOf(s.mem.log, 0))
    ensures 0 in s.mem.cache && 0 in s.mem.latest && s.mem.cache[0] != s.mem.latest[0]
  {
    var s0 := Start(cfg);
    ReachesSelf(s0);
    var s1 := SavesNewJob(s0, 0, 0, 0, None, true).value;
    ReachesThen(s0, s0, O(EnqueueSave(0, 0, 0, None, true)), s1);
    var s2 := s1.(missed := s1.missed + {0});
    ReachesThen(s0, s1, O(GetMiss(0)), s2);
    s := ReaderStoresLate(s0, s2);
    StartIsInit(cfg);
    SoOvertaken(s);
  }

  lemma ReaderStoresLate(s0: State, s2: State) returns (s: State)
    requires Reaches(s0, s2) && 0 in s2.missed && s2.jl == JobIdle && s2.tl == TweetIdle
    requires 0 in s2.mem.jobs && s2.mem.jobs[0].id == 0 && s2.mem.heap.Keys == {0} && s2.mem.latest == map[0 := 0]
    requires 0 in s2.callers && s2.callers[0] == Caller(0, false)
    ensures Reaches(s0, s) && BetweenUpdates(s, 0)
    ensures 0 in s.mem.cache && 0 in s.mem.latest && s.mem.cache[0] != s.mem.latest[0]
  {
    var s3 := CachesNewJob(s2, 0).value;
    ReachesThen(s0, s2, O(EnqueueStore(0)), s3);
    var s4 := ReadsMissed(s3, 0, 1).value;
    ReachesThen(s0, s3, O(GetRead(0, 1)), s4);
    s := CachesRead(s4, 1).value;
    ReachesThen(s0, s4, O(GetStore(1)), s);
  }
}
