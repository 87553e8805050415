/** The cache, over every interleaving: each job's log says whose object the cache holds and whose was last handed
  over, and which loop is between the halves of an update. */
module PipelineCache {
  import opened Model
  import opened Pipeline
  import opened PipelineShapes
  import opened PipelineLinks
  import opened CacheLogs

  predicate On(h: Halfway, id: JobId) {
    h.Half? && h.id == id
  }

  /** Loops and readers hold objects of their own making. */
  ghost predicate OwnMake(s: State) {
    && (s.jl.JobRunning? ==> MakerOf(s.mem, s.jl.ref) == Some(JobWorker))
    && (s.tl.TweetHas? && s.tl.at.Holding? ==> MakerOf(s.mem, s.tl.at.ref) == Some(TweetWorker))
    && (forall r :: r in s.readers ==> MakerOf(s.mem, r) == Some(Reader))
  }

  /** Until it goes to the job loop, a job's log has no events of the loops; from then on its upload is over. */
  predicate UploadLogged(log: Log, uploaded: bool, caller: Option<Caller>) {
    && (!uploaded ==> NoLoops(log))
    && (caller.Some? ==> NoLoops(log) && (caller.value.stored ==> Stores(Uploader) in log))
    && (uploaded && caller.None? ==> Stores(Uploader) in log)
  }

  function CallerOf(callers: map<JobId, Caller>, id: JobId): Option<Caller> {
    if id in callers then Some(callers[id]) else None
  }

  /** The log tells who made the objects in the cache and last handed over. */
  ghost predicate MakersLogged(m: Store, id: JobId) {
    && (id in m.cache ==> MakerOf(m, m.cache[id]).Some? && LastStorer(LogOf(m.log, id)) == MakerOf(m, m.cache[id]))
    && (id in m.latest ==> MakerOf(m, m.latest[id]).Some? && LastGiver(LogOf(m.log, id)) == MakerOf(m, m.latest[id]))
  }

  /** Who stored last did so in an update under way, or has handed that object over since. */
  ghost predicate CacheFollows(m: Store, id: JobId, a: Halfway, b: Halfway) {
    id in m.cache && id in m.latest ==>
      var log, r := LogOf(m.log, id), m.cache[id];
      match LastStorer(log)
      case Some(JobWorker) => if On(a, id) then r == a.ref else LastGiver(log) == Some(JobWorker) ==> r == m.latest[id]
      case Some(TweetWorker) =>
        if On(b, id) then r == b.ref else LastGiver(log) == Some(TweetWorker) ==> r == m.latest[id]
      case Some(Uploader) => LastGiver(log) == Some(Uploader) ==> r == m.latest[id]
      case _ => true
  }

  ghost predicate JobLogged(m: Store, id: JobId, caller: Option<Caller>, a: Halfway, b: Halfway) {
    var log := LogOf(m.log, id);
    && WellFormed(log) && UploadLogged(log, id in m.latest, caller)
    && (Open(log, JobWorker) <==> On(a, id)) && (Open(log, TweetWorker) <==> On(b, id))
    && MakersLogged(m, id) && CacheFollows(m, id, a, b)
  }

  ghost predicate Logged(s: State, id: JobId) {
    JobLogged(s.mem, id, CallerOf(s.callers, id), JobHalf(s.jl), TweetHalf(s.tl))
  }

  ghost predicate CacheKept(s: State) {
    OwnMake(s) && forall id {:trigger Logged(s, id)} :: Logged(s, id)
  }

  lemma CacheAtStart(s: State)
    requires Init(s)
    ensures CacheKept(s)
  {
  }

  // ------------------------------------------------------------------ nothing stored, nothing handed over

  ghost predicate MakersKept(m: Store, m': Store) {
    forall r :: MakerOf(m, r).Some? ==> MakerOf(m', r) == MakerOf(m, r)
  }

  lemma LoggedLeft(s: State, id: JobId, s': State)
    requires Logged(s, id) && MakersKept(s.mem, s'.mem)
    requires s'.mem.log == s.mem.log && s'.mem.cache == s.mem.cache && s'.mem.latest == s.mem.latest
    requires CallerOf(s'.callers, id) == CallerOf(s.callers, id)
    requires JobHalf(s'.jl) == JobHalf(s.jl) && TweetHalf(s'.tl) == TweetHalf(s.tl)
    ensures Logged(s', id)
  {
  }

  lemma LogsLeft(s: State, s': State)
    requires CacheKept(s) && OwnMake(s') && MakersKept(s.mem, s'.mem)
    requires s'.mem.log == s.mem.log && s'.mem.cache == s.mem.cache && s'.mem.latest == s.mem.latest
    requires s'.callers == s.callers && JobHalf(s'.jl) == JobHalf(s.jl) && TweetHalf(s'.tl) == TweetHalf(s.tl)
    ensures CacheKept(s')
  {
    forall id ensures Logged(s', id) {
      assert Logged(s, id);
      LoggedLeft(s, id, s');
    }
  }

  // ------------------------------------------------------------------ one job's object is stored or handed over

  /** The logs and entries of all other jobs are as they were. */
  ghost predicate OneJob(m: Store, id: JobId, m': Store) {
    && MakersKept(m, m')
    && (forall k :: k != id ==> LogOf(m'.log, k) == LogOf(m.log, k))
    && (forall k :: k != id ==> (k in m'.cache <==> k in m.cache) && (k in m.cache ==> m'.cache[k] == m.cache[k]))
    && (forall k :: k != id ==> (k in m'.latest <==> k in m.latest) && (k in m.latest ==> m'.latest[k] == m.latest[k]))
  }

  lemma OneLogged(s: State, id: JobId, s': State)
    requires CacheKept(s) && OneJob(s.mem, id, s'.mem) && OwnMake(s') && Logged(s', id)
    requires forall k :: k != id ==> CallerOf(s'.callers, k) == CallerOf(s.callers, k)
    requires forall k :: k != id ==> (On(JobHalf(s'.jl), k) <==> On(JobHalf(s.jl), k))
    requires forall k :: k != id ==> (On(TweetHalf(s'.tl), k) <==> On(TweetHalf(s.tl), k))
    requires On(JobHalf(s.jl), id) || JobHalf(s'.jl) == JobHalf(s.jl) || On(JobHalf(s'.jl), id)
    requires On(TweetHalf(s.tl), id) || TweetHalf(s'.tl) == TweetHalf(s.tl) || On(TweetHalf(s'.tl), id)
    ensures CacheKept(s')
  {
    forall k ensures Logged(s', k) {
      assert Logged(s, k);
    }
  }

  /** A loop stores its object in the cache. */
  lemma LoopStores(m: Store, id: JobId, r: Ref, who: Actor, a: Halfway, b: Halfway, m': Store, a': Halfway, b': Halfway)
    requires JobLogged(m, id, None, a, b) && id in m.latest && OfLoop(who) && MakerOf(m, r) == Some(who)
    requires m'.cache == m.cache[id := r] && m'.log == Noted(m.log, id, Stores(who))
    requires m'.latest == m.latest && m'.maker == m.maker
    requires if who == JobWorker then a == NoHalf && a' == Half(id, r) && b' == b
             else b == NoHalf && b' == Half(id, r) && a' == a
    ensures JobLogged(m', id, None, a', b')
  {
    Appended(LogOf(m.log, id), Stores(who));
  }

  /** And hands it over. */
  lemma LoopHands(m: Store, id: JobId, r: Ref, who: Actor, a: Halfway, b: Halfway, m': Store, a': Halfway, b': Halfway)
    requires JobLogged(m, id, None, a, b) && id in m.latest && OfLoop(who) && MakerOf(m, r) == Some(who)
    requires m'.cache == m.cache && m'.log == Noted(m.log, id, Hands(who))
    requires m'.latest == m.latest[id := r] && m'.maker == m.maker
    requires if who == JobWorker then a == Half(id, r) && a' == NoHalf && b' == b
             else b == Half(id, r) && b' == NoHalf && a' == a
    ensures JobLogged(m', id, None, a', b')
  {
    Appended(LogOf(m.log, id), Hands(who));
  }

  lemma WorkersUploaded(s: State)
    requires Linked(s)
    ensures s.jl.JobRunning? ==> s.jl.id in s.mem.latest && s.jl.id !in s.callers
    ensures s.tl.TweetHas? ==> s.tl.q.job in s.mem.latest && s.tl.q.job !in s.callers
  {
    assert s.jl.JobRunning? ==> s.hist.phase[s.jl.id].Working?;
  }

  lemma JobStoresShape(s: State, id: JobId, r: Ref, s': State)
    requires OwnMake(s) && JobUpdate1(s) == Some(s') && id == s.jl.id && r == s.jl.ref && Obj(s.mem, r).id == id
    ensures s'.mem.cache == s.mem.cache[id := r] && s'.mem.log == Noted(s.mem.log, id, Stores(JobWorker))
    ensures s'.mem.latest == s.mem.latest && s'.mem.maker == s.mem.maker && OwnMake(s') && s'.callers == s.callers
    ensures JobHalf(s.jl) == NoHalf && JobHalf(s'.jl) == Half(id, r) && s'.tl == s.tl
  {
  }

  lemma JobHandsShape(s: State, id: JobId, r: Ref, s': State)
    requires OwnMake(s) && JobUpdate2(s) == Some(s') && id == s.jl.id && r == s.jl.ref && Obj(s.mem, r).id == id
    ensures s'.mem.cache == s.mem.cache && s'.mem.log == Noted(s.mem.log, id, Hands(JobWorker))
    ensures s'.mem.latest == s.mem.latest[id := r] && s'.mem.maker == s.mem.maker && OwnMake(s')
    ensures s'.callers == s.callers
    ensures JobHalf(s.jl) == Half(id, r) && JobHalf(s'.jl) == NoHalf && s'.tl == s.tl
  {
    HandOverShape(s, s');
  }

  lemma TweetStoresShape(s: State, id: JobId, r: Ref, s': State)
    requires OwnMake(s) && TweetUpdate1(s) == Some(s') && id == s.tl.q.job && r == s.tl.at.ref
    requires Obj(s.mem, r).id == id
    ensures s'.mem.cache == s.mem.cache[id := r] && s'.mem.log == Noted(s.mem.log, id, Stores(TweetWorker))
    ensures s'.mem.latest == s.mem.latest && s'.mem.maker == s.mem.maker && OwnMake(s') && s'.callers == s.callers
    ensures TweetHalf(s.tl) == NoHalf && TweetHalf(s'.tl) == Half(id, r) && s'.jl == s.jl
  {
  }

  lemma TweetHandsShape(s: State, id: JobId, r: Ref, s': State)
    requires OwnMake(s) && TweetUpdate2(s) == Some(s') && id == s.tl.q.job && r == s.tl.at.ref
    requires Obj(s.mem, r).id == id
    ensures s'.mem.cache == s.mem.cache && s'.mem.log == Noted(s.mem.log, id, Hands(TweetWorker))
    ensures s'.mem.latest == s.mem.latest[id := r] && s'.mem.maker == s.mem.maker && OwnMake(s')
    ensures s'.callers == s.callers
    ensures TweetHalf(s.tl) == Half(id, r) && TweetHalf(s'.tl) == NoHalf && s'.jl == s.jl
  {
  }

  lemma JobStored(s: State, id: JobId, r: Ref, s': State)
    requires CacheKept(s) && s.jl.JobRunning? && s.jl.id == id && s.jl.ref == r
    requires id in s.mem.latest && id !in s.callers
    requires s'.mem.cache == s.mem.cache[id := r] && s'.mem.log == Noted(s.mem.log, id, Stores(JobWorker))
    requires s'.mem.latest == s.mem.latest && s'.mem.maker == s.mem.maker && OwnMake(s') && s'.callers == s.callers
    requires JobHalf(s.jl) == NoHalf && JobHalf(s'.jl) == Half(id, r) && s'.tl == s.tl
    ensures CacheKept(s')
  {
    assert Logged(s, id);
    LoopStores(s.mem, id, r, JobWorker, JobHalf(s.jl), TweetHalf(s.tl), s'.mem, JobHalf(s'.jl), TweetHalf(s'.tl));
    OneLogged(s, id, s');
  }

  lemma JobHanded(s: State, id: JobId, r: Ref, s': State)
    requires CacheKept(s) && s.jl.JobRunning? && s.jl.id == id && s.jl.ref == r
    requires id in s.mem.latest && id !in s.callers
    requires s'.mem.cache == s.mem.cache && s'.mem.log == Noted(s.mem.log, id, Hands(JobWorker))
    requires s'.mem.latest == s.mem.latest[id := r] && s'.mem.maker == s.mem.maker && OwnMake(s')
    requires s'.callers == s.callers && JobHalf(s.jl) == Half(id, r) && JobHalf(s'.jl) == NoHalf && s'.tl == s.tl
    ensures CacheKept(s')
  {
    assert Logged(s, id);
    LoopHands(s.mem, id, r, JobWorker, JobHalf(s.jl), TweetHalf(s.tl), s'.mem, JobHalf(s'.jl), TweetHalf(s'.tl));
    OneLogged(s, id, s');
  }

  lemma TweetStored(s: State, id: JobId, r: Ref, s': State)
    requires CacheKept(s) && s.tl.TweetHas? && s.tl.q.job == id && s.tl.at.Holding? && s.tl.at.ref == r
    requires id in s.mem.latest && id !in s.callers
    requires s'.mem.cache == s.mem.cache[id := r] && s'.mem.log == Noted(s.mem.log, id, Stores(TweetWorker))
    requires s'.mem.latest == s.mem.latest && s'.mem.maker == s.mem.maker && OwnMake(s') && s'.callers == s.callers
    requires TweetHalf(s.tl) == NoHalf && TweetHalf(s'.tl) == Half(id, r) && s'.jl == s.jl
    ensures CacheKept(s')
  {
    assert Logged(s, id);
    LoopStores(s.mem, id, r, TweetWorker, JobHalf(s.jl), TweetHalf(s.tl), s'.mem, JobHalf(s'.jl), TweetHalf(s'.tl));
    OneLogged(s, id, s');
  }

  lemma TweetHanded(s: State, id: JobId, r: Ref, s': State)
    requires CacheKept(s) && s.tl.TweetHas? && s.tl.q.job == id && s.tl.at.Holding? && s.tl.at.ref == r
    requires id in s.mem.latest && id !in s.callers
    requires s'.mem.cache == s.mem.cache && s'.mem.log == Noted(s.mem.log, id, Hands(TweetWorker))
    requires s'.mem.latest == s.mem.latest[id := r] && s'.mem.maker == s.mem.maker && OwnMake(s')
    requires s'.callers == s.callers && TweetHalf(s.tl) == Half(id, r) && TweetHalf(s'.tl) == NoHalf && s'.jl == s.jl
    ensures CacheKept(s')
  {
    assert Logged(s, id);
    LoopHands(s.mem, id, r, TweetWorker, JobHalf(s.jl), TweetHalf(s.tl), s'.mem, JobHalf(s'.jl), TweetHalf(s'.tl));
    OneLogged(s, id, s');
  }

  lemma JobUpdateKeepsCache(s: State, st: JobStep, s': State)
    requires Linked(s) && CacheKept(s) && JobNext(s, st) == Some(s') && (st.JobStore? || st.JobPut?)
    ensures CacheKept(s')
  {
    WorkersUploaded(s);
    if st.JobStore? {
      JobStoresShape(s, s.jl.id, s.jl.ref, s');
      JobStored(s, s.jl.id, s.jl.ref, s');
    } else {
      JobHandsShape(s, s.jl.id, s.jl.ref, s');
      JobHanded(s, s.jl.id, s.jl.ref, s');
    }
  }

  lemma TweetUpdateKeepsCache(s: State, st: TweetStep, s': State)
    requires Linked(s) && CacheKept(s) && TweetNext(s, st) == Some(s') && (st.TweetStore? || st.TweetPut?)
    ensures CacheKept(s')
  {
    WorkersUploaded(s);
    if st.TweetStore? {
      TweetStoresShape(s, s.tl.q.job, s.tl.at.ref, s');
      TweetStored(s, s.tl.q.job, s.tl.at.ref, s');
    } else {
      TweetHandsShape(s, s.tl.q.job, s.tl.at.ref, s');
      TweetHanded(s, s.tl.q.job, s.tl.at.ref, s');
    }
  }

  // ------------------------------------------------------------------ the loops' other steps

  lemma JobLoadLogged(s: State, r: Ref, ok: bool, s': State)
    requires Linked(s) && CacheKept(s) && LoadsJob(s, r, ok) == Some(s')
    ensures CacheKept(s')
  {
    LogsLeft(s, s');
  }

  /** Within a job the loop keeps its object. */
  lemma JobHolds(s: State, st: JobStep, s': State)
    requires OwnMake(s) && JobNext(s, st) == Some(s') && !st.JobStore? && !st.JobPut? && !st.JobLoad?
    requires StoreLinked(s.mem, s.hist.uploads.Keys) && JobLoopLinked(s.jl, s.mem.heap, s.archive, s.hist.uploads.Keys)
    ensures OwnMake(s') && MakersKept(s.mem, s'.mem)
  {
    if JobQueues(st) {
      JobMovesHold(s, st, s');
    } else {
      assert QueuesLeft(s, s') && StoreKept(s, s');
    }
  }

  lemma JobMovesHold(s: State, st: JobStep, s': State)
    requires JobNext(s, st) == Some(s') && (st.JobTake? || st.JobParses? || st.JobSend?)
    ensures s'.mem == s.mem && s'.readers == s.readers && s'.tl == s.tl
    ensures s'.jl.JobRunning? ==> s.jl.JobRunning? && s'.jl.ref == s.jl.ref
  {
  }

  lemma JobKeepsCache(s: State, st: JobStep, s': State)
    requires Linked(s) && CacheKept(s) && JobNext(s, st) == Some(s')
    ensures CacheKept(s')
  {
    if st.JobStore? || st.JobPut? {
      JobUpdateKeepsCache(s, st, s');
    } else if st.JobLoad? {
      JobLoadLogged(s, st.r, st.ok, s');
    } else {
      JobHolds(s, st, s');
      LogsLeft(s, s');
    }
  }

  lemma TweetLoadLogged(s: State, r: Ref, ok: bool, s': State)
    requires Linked(s) && CacheKept(s) && LoadsForTweet(s, r, ok) == Some(s')
    ensures CacheKept(s')
  {
    LoadShape(s, r, ok, s');
    LogsLeft(s, s');
  }

  lemma PauseLogged(s: State, r: Ref, ok: bool, s': State)
    requires Linked(s) && CacheKept(s) && PausesJob(s, r, ok) == Some(s')
    ensures CacheKept(s')
  {
    LogsLeft(s, s');
  }

  /** Within a visit the tweet loop keeps its object. */
  lemma TweetHolds(s: State, st: TweetStep, s': State)
    requires OwnMake(s) && TweetNext(s, st) == Some(s') && !st.TweetStore? && !st.TweetPut? && !st.TweetLoad?
    requires !st.TweetPause?
    requires StoreLinked(s.mem, s.hist.uploads.Keys) && TweetLoopLinked(s.tl, s.mem.heap, s.archive)
    ensures OwnMake(s') && MakersKept(s.mem, s'.mem)
  {
    HandHolds(s, st, s');
    assert TweetLeaves(s, s') && StoreKept(s, s');
  }

  /** Nothing new is in hand. */
  ghost predicate HoldsOn(s: State, s': State) {
    s'.tl.TweetHas? && s'.tl.at.Holding? ==> s.tl.TweetHas? && s.tl.at.Holding? && s'.tl.at.ref == s.tl.at.ref
  }

  lemma HandHolds(s: State, st: TweetStep, s': State)
    requires TweetNext(s, st) == Some(s') && !st.TweetStore? && !st.TweetPut? && !st.TweetLoad? && !st.TweetPause?
    ensures HoldsOn(s, s')
  {
    match st {
      case TweetTake => TakeShape(s, s');
      case TweetCheck(ok) => CheckShape(s, ok, s');
      case TweetMark(ok) => MarkShape(s, ok, s');
      case TweetDone => DoneShape(s, s');
      case _ =>
    }
  }

  lemma TweetKeepsCache(s: State, st: TweetStep, s': State)
    requires Linked(s) && CacheKept(s) && TweetNext(s, st) == Some(s')
    ensures CacheKept(s')
  {
    if st.TweetStore? || st.TweetPut? {
      TweetUpdateKeepsCache(s, st, s');
    } else if st.TweetLoad? {
      TweetLoadLogged(s, st.r, st.ok, s');
    } else if st.TweetPause? {
      PauseLogged(s, st.r, st.ok, s');
    } else {
      TweetHolds(s, st, s');
      LogsLeft(s, s');
    }
  }

  // ------------------------------------------------------------------ callers

  /** A new job's object is handed over, as its row, before it is in the cache. */
  lemma NewJobLogged(m: Store, id: JobId, r: Ref, a: Halfway, b: Halfway, m': Store)
    requires JobLogged(m, id, None, a, b) && id !in m.latest && id !in m.cache && !On(a, id) && !On(b, id)
    requires m'.log == Noted(m.log, id, Hands(Uploader)) && m'.cache == m.cache && m'.latest == m.latest[id := r]
    requires MakerOf(m', r) == Some(Uploader)
    ensures JobLogged(m', id, Some(Caller(r, false)), a, b)
  {
    Appended(LogOf(m.log, id), Hands(Uploader));
  }

  lemma UploadKeepsCache(s: State, id: JobId, r: Ref, fileId: FileId, criteria: Option<Criteria>, ok: bool, s': State)
    requires Linked(s) && CacheKept(s) && SavesNewJob(s, id, r, fileId, criteria, ok) == Some(s')
    ensures CacheKept(s')
  {
    NewJobShape(s, id, r, fileId, criteria, ok, s');
    NewlyUploaded(s, id, r, s');
  }

  lemma NewlyMade(s: State, id: JobId, r: Ref, s': State)
    requires OwnMake(s) && r !in s.mem.maker
    requires s'.mem.log == Noted(s.mem.log, id, Hands(Uploader)) && s'.mem.cache == s.mem.cache
    requires s'.mem.latest == s.mem.latest[id := r] && s'.mem.maker == s.mem.maker[r := Uploader]
    requires s'.readers == s.readers && s'.jl == s.jl && s'.tl == s.tl
    ensures OwnMake(s') && OneJob(s.mem, id, s'.mem)
  {
  }

  lemma NewlyUploaded(s: State, id: JobId, r: Ref, s': State)
    requires StoreSide(s) && CallersLinked(s.callers, s.mem.latest) && CacheKept(s)
    requires s'.mem.log == Noted(s.mem.log, id, Hands(Uploader)) && s'.mem.cache == s.mem.cache
    requires s'.mem.latest == s.mem.latest[id := r] && s'.mem.maker == s.mem.maker[r := Uploader]
    requires s'.callers == s.callers[id := Caller(r, false)] && s'.readers == s.readers
    requires s'.jl == s.jl && s'.tl == s.tl
    requires r !in s.mem.heap && id !in s.mem.cache && id !in s.hist.uploads
    ensures CacheKept(s')
  {
    NewlyMade(s, id, r, s');
    assert Logged(s, id);
    NewJobLogged(s.mem, id, r, JobHalf(s.jl), TweetHalf(s.tl), s'.mem);
    OneLogged(s, id, s');
  }

  lemma NewJobCached(s: State, id: JobId, s': State)
    requires StoreSide(s) && CallersLinked(s.callers, s.mem.latest) && CacheKept(s) && CachesNewJob(s, id) == Some(s')
    ensures CacheKept(s')
  {
    assert Logged(s, id);
    GivenByUploader(LogOf(s.mem.log, id));
    Appended(LogOf(s.mem.log, id), Stores(Uploader));
    OneLogged(s, id, s');
  }

  lemma SentLogged(s: State, id: JobId, s': State)
    requires Linked(s) && CacheKept(s) && SendsNewJob(s, id) == Some(s')
    ensures CacheKept(s')
  {
    assert Logged(s, id);
    OneLogged(s, id, s');
  }

  lemma ReadLogged(s: State, id: JobId, r: Ref, s': State)
    requires Linked(s) && CacheKept(s) && ReadsMissed(s, id, r) == Some(s')
    ensures CacheKept(s')
  {
    LogsLeft(s, s');
  }

  lemma ReaderLogged(m: Store, id: JobId, r: Ref, caller: Option<Caller>, a: Halfway, b: Halfway, m': Store)
    requires JobLogged(m, id, caller, a, b) && MakerOf(m, r) == Some(Reader)
    requires m' == m.(cache := m.cache[id := r], log := Noted(m.log, id, Stores(Reader)))
    ensures JobLogged(m', id, caller, a, b)
  {
    Appended(LogOf(m.log, id), Stores(Reader));
  }

  lemma ReaderStores(s: State, r: Ref, s': State)
    requires CacheKept(s) && CachesRead(s, r) == Some(s')
    ensures CacheKept(s')
  {
    var id := Obj(s.mem, r).id;
    assert Logged(s, id);
    ReaderLogged(s.mem, id, r, CallerOf(s.callers, id), JobHalf(s.jl), TweetHalf(s.tl), s'.mem);
    OneLogged(s, id, s');
  }

  lemma OtherKeepsCache(s: State, st: OtherStep, s': State)
    requires Linked(s) && CacheKept(s) && OtherNext(s, st) == Some(s')
    ensures CacheKept(s')
  {
    match st {
      case EnqueueSave(id, r, fileId, criteria, ok) => UploadKeepsCache(s, id, r, fileId, criteria, ok, s');
      case EnqueueStore(id) => NewJobCached(s, id, s');
      case EnqueueSend(id) => SentLogged(s, id, s');
      case GetRead(id, r) => ReadLogged(s, id, r, s');
      case GetStore(r) => ReaderStores(s, r, s');
      case _ => QuietlyLogged(s, st, s');
    }
  }

  lemma QuietlyLogged(s: State, st: OtherStep, s': State)
    requires CacheKept(s) && OtherNext(s, st) == Some(s')
    requires st.GetMiss? || st.FlushTake? || st.FlushWrite? || st.Tick?
    ensures CacheKept(s')
  {
    LogsLeft(s, s');
  }

  lemma StepKeepsCache(s: State, st: Step, s': State)
    requires Linked(s) && CacheKept(s) && Next(s, st) == Some(s')
    ensures CacheKept(s')
  {
    match st {
      case J(js) => JobKeepsCache(s, js, s');
      case T(ts) => TweetKeepsCache(s, ts, s');
      case O(os) => OtherKeepsCache(s, os, s');
    }
  }
}
