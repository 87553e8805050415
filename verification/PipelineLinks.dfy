/** What every interleaving keeps about references: each leads to an object of the right job, the two loops
  change objects of their own only, and each job goes through its phases once.

  Invariants are stated over the components of the state that they depend on, so that a step that leaves
  those alone keeps them without further argument. */
module PipelineLinks {
  import opened Model
  import opened Pipeline
  import opened PipelineShapes

  // ------------------------------------------------------------------ the store

  ghost predicate Refers(heap: Heap, refs: map<JobId, Ref>) {
    forall id :: id in refs ==> refs[id] in heap && heap[refs[id]].id == id
  }

  ghost predicate StoreLinked(m: Store, uploads: set<JobId>) {
    && Refers(m.heap, m.cache) && Refers(m.heap, m.pending)
    && Refers(m.heap, m.batch) && Refers(m.heap, m.latest)
    && (forall id :: id in m.jobs ==> m.jobs[id].id == id)
    && m.latest.Keys == uploads
    && m.pending.Keys <= uploads && m.batch.Keys <= uploads
    && m.dirty <= m.heap.Keys && m.maker.Keys == m.heap.Keys
  }

  /** Objects stay and keep their job. */
  ghost predicate Grows(heap: Heap, heap': Heap) {
    forall r :: r in heap ==> r in heap' && heap'[r].id == heap[r].id
  }

  lemma AllocLinked(m: Store, r: Ref, j: Job, who: Actor, uploads: set<JobId>)
    requires StoreLinked(m, uploads) && r !in m.heap
    ensures StoreLinked(Alloc(m, r, j, who), uploads) && Grows(m.heap, Alloc(m, r, j, who).heap)
  {
  }

  lemma MutateLinked(m: Store, r: Ref, j: Job, uploads: set<JobId>)
    requires StoreLinked(m, uploads) && r in m.heap && j.id == m.heap[r].id
    ensures StoreLinked(Mutate(m, r, j), uploads) && Grows(m.heap, Mutate(m, r, j).heap)
  {
  }

  lemma CachedLinked(m: Store, r: Ref, now: Time, who: Actor, uploads: set<JobId>)
    requires StoreLinked(m, uploads) && r in m.heap
    ensures var m' := Cached(m, r, now, who);
            StoreLinked(m', uploads) && Grows(m.heap, m'.heap) && m'.dirty == m.dirty + {r}
  {
  }

  lemma PutLinked(m: Store, r: Ref, who: Actor, uploads: set<JobId>)
    requires StoreLinked(m, uploads) && r in m.heap && m.heap[r].id in uploads
    ensures StoreLinked(Put(m, r, who), uploads)
  {
  }

  lemma WriteLinked(m: Store, id: JobId, ok: bool, uploads: set<JobId>)
    requires StoreLinked(m, uploads) && id in m.batch
    ensures StoreLinked(WriteOne(m, id, ok), uploads)
  {
  }

  // ------------------------------------------------------------------ the loops

  function LoopJob(jl: JobLoop): Option<JobId> {
    if jl.JobIdle? then None else Some(jl.id)
  }

  function LoopRef(jl: JobLoop): Option<Ref> {
    if jl.JobRunning? then Some(jl.ref) else None
  }

  function HeldRef(tl: TweetLoop): Option<Ref> {
    if tl.TweetHas? && tl.at.Holding? then Some(tl.at.ref) else None
  }

  /** Positions are within the archive, which exists from parsing on. */
  ghost predicate Positioned(archive: Archive, id: JobId, at: JobAt) {
    match at
    case Begin => id !in archive
    case Parse => id !in archive
    case Store1(goto) => PositionedGoto(archive, id, goto)
    case Store2(goto) => PositionedGoto(archive, id, goto)
    case Save(i) => id in archive && i <= |archive[id]|
    case Filter(i, _) => id in archive && i <= |archive[id]|
    case FlagSaved(i, _) => id in archive && i < |archive[id]|
    case Marked(i, _) => id in archive && i < |archive[id]|
    case Advance(i, _) => id in archive && i < |archive[id]|
  }

  ghost predicate PositionedGoto(archive: Archive, id: JobId, goto: JobGoto) {
    match goto
    case ToParse => id !in archive
    case ToFilter(i, _) => id in archive && i <= |archive[id]|
    case ToEnd => true
  }

  ghost predicate JobLoopLinked(jl: JobLoop, heap: Heap, archive: Archive, uploads: set<JobId>) {
    jl.JobRunning? ==>
      && jl.ref in heap && heap[jl.ref].id == jl.id && jl.id in uploads
      && Positioned(archive, jl.id, jl.at)
  }

  ghost predicate TweetLoopLinked(tl: TweetLoop, heap: Heap, archive: Archive) {
    tl.TweetHas? ==>
      && tl.q.job in archive && tl.q.pos < |archive[tl.q.job]|
      && (tl.at.Holding? ==> tl.at.ref in heap && heap[tl.at.ref].id == tl.q.job)
  }

  /** The two loops never hold the same object, and only what they hold is changed and not handed over. */
  ghost predicate Owned(job: Option<Ref>, held: Option<Ref>, dirty: set<Ref>) {
    && (job.Some? ==> held != job)
    && (forall r :: r in dirty ==> job == Some(r) || held == Some(r))
  }

  /** Up to its first change and right after each hand-over, what the tweet loop holds is handed over. */
  ghost predicate TidyHeld(tl: TweetLoop, dirty: set<Ref>) {
    tl.TweetHas? && tl.at.Holding? && !tl.at.at.Tallied? && !tl.at.at.Put1? && !tl.at.at.Put2? ==>
      tl.at.ref !in dirty
  }

  ghost predicate StoreSide(s: State) {
    && StoreLinked(s.mem, s.hist.uploads.Keys)
    && JobLoopLinked(s.jl, s.mem.heap, s.archive, s.hist.uploads.Keys)
    && TweetLoopLinked(s.tl, s.mem.heap, s.archive)
    && Owned(LoopRef(s.jl), HeldRef(s.tl), s.mem.dirty)
    && TidyHeld(s.tl, s.mem.dirty)
    && s.archive.Keys <= s.hist.uploads.Keys
  }

  // ------------------------------------------------------------------ the queues

  ghost predicate QueueKnown(tweetQ: seq<Occurrence>, archive: Archive) {
    forall o :: o in tweetQ ==> o.job in archive && o.pos < |archive[o.job]|
  }

  ghost predicate CallersLinked(callers: map<JobId, Caller>, latest: map<JobId, Ref>) {
    forall id :: id in callers ==> id in latest && callers[id].ref == latest[id]
  }

  predicate Distinct<T(==)>(xs: seq<T>) {
    forall i, j :: 0 <= i < j < |xs| ==> xs[i] != xs[j]
  }

  /** A job enters, waits in the queue, is worked on by the job loop, and ends; once only. */
  ghost predicate Phased(phase: map<JobId, Phase>, entering: set<JobId>, jobQ: seq<JobId>, loop: Option<JobId>) {
    && (forall id :: id in phase ==>
          && (phase[id].Entering? <==> id in entering)
          && (phase[id].Waiting? <==> id in jobQ)
          && (phase[id].Working? <==> loop == Some(id)))
    && entering <= phase.Keys
    && (forall id :: id in jobQ ==> id in phase)
    && (loop.Some? ==> loop.value in phase)
    && Distinct(jobQ)
  }

  ghost predicate Archived(archive: set<JobId>, phase: map<JobId, Phase>, jl: JobLoop) {
    && (forall id :: id in archive ==> id in phase && (phase[id].Working? || phase[id].Ended?))
    && (jl.JobTaken? ==> jl.id !in archive)
  }

  ghost predicate QueueSide(s: State) {
    && s.hist.phase.Keys == s.hist.uploads.Keys
    && s.readers <= s.mem.heap.Keys
    && QueueKnown(s.tweetQ, s.archive)
    && CallersLinked(s.callers, s.mem.latest)
    && Phased(s.hist.phase, s.callers.Keys, s.jobQ, LoopJob(s.jl))
    && Archived(s.archive.Keys, s.hist.phase, s.jl)
  }

  ghost predicate Linked(s: State) {
    StoreSide(s) && QueueSide(s)
  }

  lemma StartsLinked(s: State)
    requires Init(s)
    ensures Linked(s)
  {
  }

  // ------------------------------------------------------------------ the store side, job loop

  /** The job loop changes its object and goes on. */
  lemma JobChange(s: State, j: Job, s': State)
    requires StoreSide(s) && JobLeaves(s, s') && s.jl.JobRunning? && s'.jl.JobRunning? && s'.archive == s.archive
    requires s'.mem == Mutate(s.mem, s.jl.ref, j) && j.id == s.jl.id
    requires s'.jl == JobRunning(s.jl.id, s.jl.ref, s'.jl.at) && Positioned(s.archive, s.jl.id, s'.jl.at)
    ensures StoreSide(s')
  {
    MutateLinked(s.mem, s.jl.ref, j, s.hist.uploads.Keys);
  }

  /** The job loop goes on without touching the store. */
  lemma JobMove(s: State, s': State)
    requires StoreSide(s) && JobLeaves(s, s') && s.jl.JobRunning? && s'.jl.JobRunning? && s'.archive == s.archive
    requires s'.mem == s.mem
    requires s'.jl == JobRunning(s.jl.id, s.jl.ref, s'.jl.at) && Positioned(s.archive, s.jl.id, s'.jl.at)
    ensures StoreSide(s')
  {
  }

  lemma JobUpdateKeepsStoreSide(s: State, s': State)
    requires StoreSide(s)
    requires JobUpdate1(s) == Some(s')
    ensures StoreSide(s')
  {
    CachedLinked(s.mem, s.jl.ref, s.now, JobWorker, s.hist.uploads.Keys);
  }

  lemma JobPut(s: State, s': State)
    requires StoreSide(s) && JobLeaves(s, s') && s.jl.JobRunning? && s'.archive == s.archive
    requires s'.mem == Put(s.mem, s.jl.ref, JobWorker)
    requires || s'.jl.JobIdle?
             || (s'.jl.JobRunning? && s'.jl.id == s.jl.id && s'.jl.ref == s.jl.ref
                 && Positioned(s.archive, s.jl.id, s'.jl.at))
    ensures StoreSide(s')
  {
    PutLinked(s.mem, s.jl.ref, JobWorker, s.hist.uploads.Keys);
  }

  lemma JobHandOverKeepsStoreSide(s: State, s': State)
    requires StoreSide(s) && JobUpdate2(s) == Some(s')
    ensures StoreSide(s')
  {
    HandOverShape(s, s');
    JobPut(s, s');
  }

  lemma ParseKeepsStoreSide(s: State, tweets: seq<Tweet>, s': State)
    requires StoreSide(s) && ParsesArchive(s, tweets) == Some(s')
    ensures StoreSide(s')
  {
  }

  /** The job loop gets its job's row as a new object. */
  lemma JobLoaded(s: State, r: Ref, s': State)
    requires StoreSide(s) && JobLeaves(s, s') && s.jl.JobTaken? && s.jl.id in s.mem.jobs && r !in s.mem.heap
    requires s.jl.id in s.hist.uploads && s.jl.id !in s.archive
    requires s'.mem == Alloc(s.mem, r, s.mem.jobs[s.jl.id], JobWorker) && s'.archive == s.archive
    requires s'.jl == JobRunning(s.jl.id, r, Begin)
    ensures StoreSide(s')
  {
    AllocLinked(s.mem, r, s.mem.jobs[s.jl.id], JobWorker, s.hist.uploads.Keys);
  }

  lemma JobNotLoaded(s: State, s': State)
    requires StoreSide(s) && JobLeaves(s, s') && StoreLeft(s, s') && TracksLeft(s, s')
    requires s.jl.JobTaken? && s'.jl.JobIdle?
    ensures StoreSide(s')
  {
  }

  lemma JobLoadKeepsStoreSide(s: State, r: Ref, ok: bool, s': State)
    requires Linked(s) && LoadsJob(s, r, ok) == Some(s')
    ensures StoreSide(s')
  {
    if s'.jl.JobRunning? {
      JobLoaded(s, r, s');
    } else {
      JobNotLoaded(s, s');
    }
  }

  predicate ChangesJob(st: JobStep) {
    st.JobBegin? || st.JobParseFails? || st.JobTotal? || st.JobAdvance? || st.JobFinish?
  }

  predicate FiltersTweet(st: JobStep) {
    st.JobFlag? || st.JobMark? || st.JobUnscored?
  }

  predicate MovesJob(st: JobStep) {
    st.JobSaveTweet? || st.JobFlagMark? || st.JobSend?
  }

  lemma JobChangesKeepStoreSide(s: State, st: JobStep, s': State)
    requires StoreSide(s) && JobNext(s, st) == Some(s') && ChangesJob(st)
    ensures StoreSide(s')
  {
    match st {
      case JobBegin => JobChange(s, Obj(s.mem, s.jl.ref).(status := Running), s');
      case JobParseFails(m) => JobChange(s, Obj(s.mem, s.jl.ref).(status := Failed, error := m), s');
      case JobTotal => JobChange(s, Obj(s.mem, s.jl.ref).(total := |Tweets(s, s.jl.id)|), s');
      case _ => JobCountsKeepStoreSide(s, st, s');
    }
  }

  lemma JobCountsKeepStoreSide(s: State, st: JobStep, s': State)
    requires StoreSide(s) && JobNext(s, st) == Some(s') && (st.JobAdvance? || st.JobFinish?)
    ensures StoreSide(s')
  {
    if st.JobAdvance? {
      JobChange(s, s'.mem.heap[s.jl.ref], s');
    } else {
      JobChange(s, s'.mem.heap[s.jl.ref], s');
    }
  }

  lemma JobSaveKeepsStoreSide(s: State, ok: bool, s': State)
    requires StoreSide(s) && SavesTweet(s, ok) == Some(s')
    ensures StoreSide(s')
  {
    JobMove(s, s');
  }

  lemma JobFlagMarkKeepsStoreSide(s: State, ok: bool, s': State)
    requires StoreSide(s) && MarksFlagged(s, ok) == Some(s')
    ensures StoreSide(s')
  {
    JobMove(s, s');
  }

  lemma JobSendKeepsStoreSide(s: State, s': State)
    requires StoreSide(s) && SendsTweet(s) == Some(s')
    ensures StoreSide(s')
  {
    JobMove(s, s');
  }

  lemma JobMovesKeepStoreSide(s: State, st: JobStep, s': State)
    requires StoreSide(s) && JobNext(s, st) == Some(s') && MovesJob(st)
    ensures StoreSide(s')
  {
    match st {
      case JobSaveTweet(ok) => JobSaveKeepsStoreSide(s, ok, s');
      case JobFlagMark(ok) => JobFlagMarkKeepsStoreSide(s, ok, s');
      case JobSend => JobSendKeepsStoreSide(s, s');
    }
  }

  lemma JobFlagKeepsStoreSide(s: State, ok: bool, s': State)
    requires StoreSide(s) && FlagsTweet(s, ok) == Some(s')
    ensures StoreSide(s')
  {
    JobMove(s, s');
  }

  lemma JobMarkKeepsStoreSide(s: State, ok: bool, s': State)
    requires StoreSide(s) && MarksTweet(s, ok) == Some(s')
    ensures StoreSide(s')
  {
    JobMove(s, s');
  }

  lemma JobUnscoredKeepsStoreSide(s: State, ok: bool, s': State)
    requires StoreSide(s) && SkipsScorer(s, ok) == Some(s')
    ensures StoreSide(s')
  {
    JobMove(s, s');
  }

  lemma JobFilteringKeepsStoreSide(s: State, st: JobStep, s': State)
    requires StoreSide(s) && JobNext(s, st) == Some(s') && FiltersTweet(st)
    ensures StoreSide(s')
  {
    match st {
      case JobFlag(ok) => JobFlagKeepsStoreSide(s, ok, s');
      case JobMark(ok) => JobMarkKeepsStoreSide(s, ok, s');
      case JobUnscored(ok) => JobUnscoredKeepsStoreSide(s, ok, s');
    }
  }

  lemma JobUpdatesKeepStoreSide(s: State, st: JobStep, s': State)
    requires Linked(s) && JobNext(s, st) == Some(s')
    requires st.JobLoad? || st.JobStore? || st.JobPut? || st.JobParses?
    ensures StoreSide(s')
  {
    match st {
      case JobLoad(r, ok) => JobLoadKeepsStoreSide(s, r, ok, s');
      case JobStore => JobUpdateKeepsStoreSide(s, s');
      case JobPut => JobHandOverKeepsStoreSide(s, s');
      case JobParses(tweets) => ParseKeepsStoreSide(s, tweets, s');
    }
  }

  lemma JobTakeKeepsStoreSide(s: State, s': State)
    requires StoreSide(s) && TakesJob(s) == Some(s')
    ensures StoreSide(s')
  {
    assert s'.jl.JobTaken? && s'.mem == s.mem;
  }

  lemma JobKeepsStoreSide(s: State, st: JobStep, s': State)
    requires Linked(s) && JobNext(s, st) == Some(s')
    ensures StoreSide(s')
  {
    if ChangesJob(st) {
      JobChangesKeepStoreSide(s, st, s');
    } else if MovesJob(st) {
      JobMovesKeepStoreSide(s, st, s');
    } else if FiltersTweet(st) {
      JobFilteringKeepsStoreSide(s, st, s');
    } else if st.JobTake? {
      JobTakeKeepsStoreSide(s, s');
    } else {
      JobUpdatesKeepStoreSide(s, st, s');
    }
  }

  // ------------------------------------------------------------------ the store side, tweet loop

  /** The tweet loop changes its object and goes on. */
  lemma TweetChange(s: State, j: Job, s': State)
    requires StoreSide(s) && TweetLeaves(s, s') && s.tl.TweetHas? && s.tl.at.Holding?
    requires s'.tl.TweetHas? && s'.tl.at.Holding? && TidyHeld(s'.tl, {s.tl.at.ref})
    requires s'.mem == Mutate(s.mem, s.tl.at.ref, j) && j.id == s.tl.q.job
    requires s'.tl == TweetHas(s.tl.q, Holding(s.tl.at.ref, s'.tl.at.at))
    ensures StoreSide(s')
  {
    MutateLinked(s.mem, s.tl.at.ref, j, s.hist.uploads.Keys);
  }

  /** The tweet loop goes on without touching the store. */
  lemma TweetMove(s: State, s': State)
    requires StoreSide(s) && TweetLeaves(s, s') && s'.mem == s.mem
    requires TweetLoopLinked(s'.tl, s.mem.heap, s.archive)
    requires || HeldRef(s'.tl) == HeldRef(s.tl)
             || (HeldRef(s'.tl) == None && (HeldRef(s.tl).Some? ==> HeldRef(s.tl).value !in s.mem.dirty))
    requires TidyHeld(s'.tl, s.mem.dirty)
    ensures StoreSide(s')
  {
  }

  lemma TweetUpdateKeepsStoreSide(s: State, s': State)
    requires StoreSide(s) && TweetUpdate1(s) == Some(s')
    ensures StoreSide(s')
  {
    CachedLinked(s.mem, s.tl.at.ref, s.now, TweetWorker, s.hist.uploads.Keys);
  }

  lemma TweetHandOverKeepsStoreSide(s: State, s': State)
    requires StoreSide(s) && TweetUpdate2(s) == Some(s')
    ensures StoreSide(s')
  {
    PutLinked(s.mem, s.tl.at.ref, TweetWorker, s.hist.uploads.Keys);
  }

  /** The tweet loop gets its job's row as a new object, and perhaps changes it. */
  lemma HandFilled(s: State, r: Ref, j: Job, s': State)
    requires StoreSide(s) && TweetLeaves(s, s') && s.tl.TweetHas? && !s.tl.at.Holding? && r !in s.mem.heap
    requires s'.mem == s.mem.(heap := s.mem.heap[r := j], maker := s.mem.maker[r := TweetWorker], dirty := s'.mem.dirty)
    requires s'.mem.dirty == s.mem.dirty || s'.mem.dirty == s.mem.dirty + {r}
    requires s'.tl.TweetHas? && s'.tl.q == s.tl.q && HeldRef(s'.tl) == Some(r) && j.id == s.tl.q.job
    requires TidyHeld(s'.tl, s'.mem.dirty)
    ensures StoreSide(s')
  {
  }

  lemma TweetLoadKeepsStoreSide(s: State, r: Ref, ok: bool, s': State)
    requires StoreSide(s) && LoadsForTweet(s, r, ok) == Some(s')
    ensures StoreSide(s')
  {
    LoadShape(s, r, ok, s');
    if s'.tl.at.Holding? {
      HandFilled(s, r, s.mem.jobs[s.tl.q.job], s');
    }
  }

  lemma PauseKeepsStoreSide(s: State, r: Ref, ok: bool, s': State)
    requires StoreSide(s) && PausesJob(s, r, ok) == Some(s')
    ensures StoreSide(s')
  {
    if !s'.tl.at.Holding? {
      assert s' == s.(tl := TweetHas(s.tl.q, Drop));
    } else {
      PauseShape(s, r, ok, s');
      HandFilled(s, r, s.mem.jobs[s.tl.q.job].(status := PausedQuota), s');
    }
  }

  lemma TweetChangesKeepStoreSide(s: State, st: TweetStep, s': State)
    requires StoreSide(s) && TweetNext(s, st) == Some(s') && (st.TweetTally? || st.TweetResume?)
    ensures StoreSide(s')
  {
    match st {
      case TweetTally => TweetChange(s, s'.mem.heap[s.tl.at.ref], s');
      case TweetResume => TweetChange(s, s'.mem.heap[s.tl.at.ref], s');
    }
  }

  lemma DoneCheckKeepsStoreSide(s: State, s': State)
    requires StoreSide(s) && ChecksDone(s) == Some(s')
    ensures StoreSide(s')
  {
    DoneShape(s, s');
    var job := Obj(s.mem, s.tl.at.ref);
    if job.processed >= job.total {
      TweetChange(s, job.(status := Done), s');
    } else {
      TweetMove(s, s');
    }
  }

  lemma ReturnKeepsStoreSide(s: State, outcome: ScoreOutcome, s': State)
    requires StoreSide(s) && ScoreReturns(s, outcome) == Some(s')
    ensures StoreSide(s')
  {
    match outcome {
      case Success(flag) => SuccessShape(s, flag, s'); TweetMove(s, s');
      case QuotaSpent => SpentShape(s, s'); TweetChange(s, Obj(s.mem, s.tl.at.ref).(status := PausedQuota), s');
      case Failure => FailureShape(s, s'); TweetMove(s, s');
    }
  }

  lemma TweetTakeKeepsStoreSide(s: State, s': State)
    requires Linked(s) && TakesTweet(s) == Some(s')
    ensures StoreSide(s')
  {
  }

  lemma TweetCheckKeepsStoreSide(s: State, ok: bool, s': State)
    requires StoreSide(s) && ChecksQuota(s, ok) == Some(s')
    ensures StoreSide(s')
  {
    TweetMove(s, s');
  }

  lemma TweetCountKeepsStoreSide(s: State, ok: bool, s': State)
    requires StoreSide(s) && CountsQuota(s, ok) == Some(s')
    ensures StoreSide(s')
  {
    TweetMove(s, s');
  }

  lemma TweetMovesKeepStoreSide(s: State, st: TweetStep, s': State)
    requires StoreSide(s) && TweetNext(s, st) == Some(s')
    requires st.TweetCheck? || st.TweetCriteria? || st.TweetCall? || st.TweetCount?
    ensures StoreSide(s')
  {
    if st.TweetCheck? {
      TweetCheckKeepsStoreSide(s, st.ok, s');
    } else if st.TweetCriteria? {
      TweetMove(s, s');
    } else if st.TweetCall? {
      TweetMove(s, s');
    } else {
      TweetCountKeepsStoreSide(s, st.ok, s');
    }
  }

  lemma TweetFlagKeepsStoreSide(s: State, ok: bool, s': State)
    requires StoreSide(s) && SavesFlag(s, ok) == Some(s')
    ensures StoreSide(s')
  {
  }

  lemma TweetEndsKeepStoreSide(s: State, st: TweetStep, s': State)
    requires Linked(s) && TweetNext(s, st) == Some(s')
    requires st.TweetMark? || st.TweetRequeue? || st.TweetDrop?
    ensures StoreSide(s')
  {
    match st {
      case TweetMark(ok) => MarkShape(s, ok, s'); TweetMove(s, s');
      case TweetRequeue => RequeueShape(s, s'); TweetMove(s, s');
      case TweetDrop => DropShape(s, s'); TweetMove(s, s');
    }
  }

  lemma TweetKeepsStoreSide(s: State, st: TweetStep, s': State)
    requires Linked(s) && TweetNext(s, st) == Some(s')
    ensures StoreSide(s')
  {
    match st {
      case TweetPause(r, ok) => PauseKeepsStoreSide(s, r, ok, s');
      case TweetLoad(r, ok) => TweetLoadKeepsStoreSide(s, r, ok, s');
      case TweetStore => TweetUpdateKeepsStoreSide(s, s');
      case TweetPut => TweetHandOverKeepsStoreSide(s, s');
      case TweetTally => TweetChangesKeepStoreSide(s, st, s');
      case TweetResume => TweetChangesKeepStoreSide(s, st, s');
      case TweetDone => DoneCheckKeepsStoreSide(s, s');
      case TweetReturn(outcome) => ReturnKeepsStoreSide(s, outcome, s');
      case TweetMark(ok) => TweetEndsKeepStoreSide(s, st, s');
      case TweetRequeue => TweetEndsKeepStoreSide(s, st, s');
      case TweetDrop => TweetEndsKeepStoreSide(s, st, s');
      case TweetTake => TweetTakeKeepsStoreSide(s, s');
      case TweetFlag(ok) => TweetFlagKeepsStoreSide(s, ok, s');
      case _ => TweetMovesKeepStoreSide(s, st, s');
    }
  }

  // ------------------------------------------------------------------ the store side, callers and flusher

  lemma NewJobLinked(m: Store, id: JobId, r: Ref, job: Job, ok: bool, uploads: set<JobId>, m': Store)
    requires StoreLinked(m, uploads) && r !in m.heap && job.id == id && id !in uploads
    requires m' == Alloc(m, r, job, Uploader).(
                     latest := m.latest[id := r], jobs := if ok then SaveJob(m.jobs, job) else m.jobs,
                     lost := m'.lost, log := m'.log)
    ensures StoreLinked(m', uploads + {id}) && Grows(m.heap, m'.heap)
  {
    AllocLinked(m, r, job, Uploader, uploads);
  }

  lemma NewJobKeepsStoreSide(s: State, id: JobId, r: Ref, fileId: FileId, criteria: Option<Criteria>, ok: bool,
                             s': State)
    requires StoreSide(s) && SavesNewJob(s, id, r, fileId, criteria, ok) == Some(s')
    ensures StoreSide(s')
  {
    NewJobShape(s, id, r, fileId, criteria, ok, s');
    NewJobLinked(s.mem, id, r, s'.mem.heap[r], ok, s.hist.uploads.Keys, s'.mem);
    assert s'.hist.uploads.Keys == s.hist.uploads.Keys + {id};
  }

  lemma CachesKeepStoreSide(s: State, st: OtherStep, s': State)
    requires Linked(s) && OtherNext(s, st) == Some(s') && (st.EnqueueStore? || st.GetStore?)
    ensures StoreSide(s')
  {
  }

  lemma ReadKeepsStoreSide(s: State, id: JobId, r: Ref, s': State)
    requires Linked(s) && ReadsMissed(s, id, r) == Some(s')
    ensures StoreSide(s')
  {
    AllocLinked(s.mem, r, s.mem.jobs[id], Reader, s.hist.uploads.Keys);
  }

  lemma OtherKeepsStoreSide(s: State, st: OtherStep, s': State)
    requires Linked(s) && OtherNext(s, st) == Some(s')
    ensures StoreSide(s')
  {
    match st {
      case EnqueueSave(id, r, fileId, criteria, ok) => NewJobKeepsStoreSide(s, id, r, fileId, criteria, ok, s');
      case EnqueueStore(id) => CachesKeepStoreSide(s, st, s');
      case EnqueueSend(id) =>
      case GetMiss(id) =>
      case GetRead(id, r) => ReadKeepsStoreSide(s, id, r, s');
      case GetStore(r) => CachesKeepStoreSide(s, st, s');
      case FlushTake =>
      case FlushWrite(id, ok) => WriteLinked(s.mem, id, ok, s.hist.uploads.Keys);
      case Tick(now, today) =>
    }
  }

  // ------------------------------------------------------------------ the queue side

  /** Objects of `callers` are the latest of their jobs, which no loop works on yet. */
  lemma PutKeepsCallers(s: State, id: JobId, latest: map<JobId, Ref>)
    requires QueueSide(s) && id in s.hist.phase && !s.hist.phase[id].Entering?
    requires forall k :: k in s.mem.latest ==> k in latest && (k != id ==> latest[k] == s.mem.latest[k])
    ensures CallersLinked(s.callers, latest)
  {
  }

  lemma QueuesUntouched(s: State, s': State)
    requires QueueSide(s) && QueuesLeft(s, s')
    ensures QueueSide(s')
  {
  }

  lemma TakeKeepsQueueSide(s: State, s': State)
    requires QueueSide(s) && TakesJob(s) == Some(s')
    ensures QueueSide(s')
  {
    var q := s.jobQ;
    assert q == [q[0]] + q[1..];
    assert s.hist.phase[q[0]].Waiting?;
  }

  lemma LoadKeepsQueueSide(s: State, r: Ref, ok: bool, s': State)
    requires QueueSide(s) && LoadsJob(s, r, ok) == Some(s')
    ensures QueueSide(s')
  {
  }

  lemma JobEnds(s: State, s': State)
    requires QueueSide(s) && s.jl.JobRunning? && s'.jl.JobIdle?
    requires s'.hist.phase == s.hist.phase[s.jl.id := Ended] && s'.hist.uploads == s.hist.uploads
    requires s'.jobQ == s.jobQ && s'.tweetQ == s.tweetQ && s'.archive == s.archive
    requires s'.callers == s.callers && s'.readers == s.readers && s'.mem.heap == s.mem.heap
    requires CallersLinked(s.callers, s'.mem.latest)
    ensures QueueSide(s')
  {
  }

  /** A hand-over alone. */
  lemma HandsOver(s: State, s': State)
    requires QueueSide(s) && CallersLinked(s.callers, s'.mem.latest)
    requires s'.hist.phase == s.hist.phase && s'.hist.uploads == s.hist.uploads
    requires s'.jobQ == s.jobQ && s'.tweetQ == s.tweetQ && s'.archive == s.archive
    requires s'.callers == s.callers && s'.readers == s.readers && s'.mem.heap == s.mem.heap
    requires s'.jl == s.jl || (s.jl.JobRunning? && s'.jl.JobRunning? && s'.jl.id == s.jl.id)
    ensures QueueSide(s')
  {
  }

  lemma JobGoesOn(s: State, s': State)
    requires QueueSide(s) && JobUpdate2(s) == Some(s') && CallersLinked(s.callers, s'.mem.latest)
    requires !s.jl.at.goto.ToEnd?
    ensures QueueSide(s')
  {
  }

  lemma JobHandOverKeepsQueueSide(s: State, s': State)
    requires Linked(s) && JobUpdate2(s) == Some(s')
    ensures QueueSide(s')
  {
    PutKeepsCallers(s, s.jl.id, s'.mem.latest);
    if s.jl.at.goto.ToEnd? {
      JobEnds(s, s');
    } else {
      JobGoesOn(s, s');
    }
  }

  lemma TweetHandOverKeepsQueueSide(s: State, s': State)
    requires Linked(s) && TweetUpdate2(s) == Some(s')
    ensures QueueSide(s')
  {
    HandsOver(s, s');
  }

  lemma ParseKeepsQueueSide(s: State, tweets: seq<Tweet>, s': State)
    requires Linked(s) && ParsesArchive(s, tweets) == Some(s')
    ensures QueueSide(s')
  {
  }

  /** A known tweet enters the channel. */
  lemma ChannelGets(s: State, o: Occurrence, s': State)
    requires QueueSide(s) && Known(s, o) && s'.tweetQ == s.tweetQ + [o]
    requires QueuesLeft(s, s'.(tweetQ := s.tweetQ))
    ensures QueueSide(s')
  {
  }

  /** The first tweet leaves it. */
  lemma ChannelGives(s: State, s': State)
    requires QueueSide(s) && s.tweetQ != [] && s'.tweetQ == s.tweetQ[1..]
    requires QueuesLeft(s, s'.(tweetQ := s.tweetQ))
    ensures QueueSide(s')
  {
  }

  lemma SendKeepsQueueSide(s: State, s': State)
    requires Linked(s) && SendsTweet(s) == Some(s')
    ensures QueueSide(s')
  {
    ChannelGets(s, Occ(s.jl.id, s.jl.at.next), s');
  }

  lemma TweetTakeKeepsQueueSide(s: State, s': State)
    requires QueueSide(s) && TakesTweet(s) == Some(s')
    ensures QueueSide(s')
  {
    ChannelGives(s, s');
  }

  lemma RequeueKeepsQueueSide(s: State, s': State)
    requires Linked(s) && RequeuesTweet(s) == Some(s')
    ensures QueueSide(s')
  {
    ChannelGets(s, s.tl.q, s');
  }

  lemma JobKeepsQueueSide(s: State, st: JobStep, s': State)
    requires Linked(s) && JobNext(s, st) == Some(s')
    ensures QueueSide(s')
  {
    if st.JobTake? {
      TakeKeepsQueueSide(s, s');
    } else if st.JobLoad? {
      LoadKeepsQueueSide(s, st.r, st.ok, s');
    } else if st.JobPut? {
      JobHandOverKeepsQueueSide(s, s');
    } else if st.JobParses? {
      ParseKeepsQueueSide(s, st.tweets, s');
    } else if st.JobSend? {
      SendKeepsQueueSide(s, s');
    } else {
      QueuesUntouched(s, s');
    }
  }

  lemma TweetKeepsQueueSide(s: State, st: TweetStep, s': State)
    requires Linked(s) && TweetNext(s, st) == Some(s')
    ensures QueueSide(s')
  {
    if st.TweetTake? {
      TweetTakeKeepsQueueSide(s, s');
    } else if st.TweetRequeue? {
      RequeueKeepsQueueSide(s, s');
    } else if st.TweetPut? {
      TweetHandOverKeepsQueueSide(s, s');
    } else {
      QueuesUntouched(s, s');
    }
  }

  // ------------------------------------------------------------------ the queue side, callers and flusher

  lemma NewJobKeepsQueueSide(s: State, id: JobId, r: Ref, fileId: FileId, criteria: Option<Criteria>, ok: bool,
                             s': State)
    requires Linked(s) && SavesNewJob(s, id, r, fileId, criteria, ok) == Some(s')
    ensures QueueSide(s')
  {
  }

  lemma SendsNewJobKeepsQueueSide(s: State, id: JobId, s': State)
    requires Linked(s) && SendsNewJob(s, id) == Some(s')
    ensures QueueSide(s')
  {
    assert s.hist.phase[id].Entering?;
    var q := s'.jobQ;
    forall i, j | 0 <= i < j < |q| ensures q[i] != q[j] {
      assert q[i] in s.jobQ;
    }
  }

  lemma StoresNewJobKeepsQueueSide(s: State, id: JobId, s': State)
    requires QueueSide(s) && CachesNewJob(s, id) == Some(s')
    ensures QueueSide(s')
  {
    assert s'.callers.Keys == s.callers.Keys;
  }

  lemma ReaderKeepsQueueSide(s: State, st: OtherStep, s': State)
    requires QueueSide(s) && OtherNext(s, st) == Some(s') && (st.GetRead? || st.GetStore?)
    ensures QueueSide(s')
  {
    assert s'.mem.latest == s.mem.latest;
  }

  lemma OtherKeepsQueueSide(s: State, st: OtherStep, s': State)
    requires Linked(s) && OtherNext(s, st) == Some(s')
    ensures QueueSide(s')
  {
    match st {
      case EnqueueSave(id, r, fileId, criteria, ok) => NewJobKeepsQueueSide(s, id, r, fileId, criteria, ok, s');
      case EnqueueStore(id) => StoresNewJobKeepsQueueSide(s, id, s');
      case EnqueueSend(id) => SendsNewJobKeepsQueueSide(s, id, s');
      case GetRead(id, r) => ReaderKeepsQueueSide(s, st, s');
      case GetStore(r) => ReaderKeepsQueueSide(s, st, s');
      case _ => QueuesUntouched(s, s');
    }
  }

  // ------------------------------------------------------------------ every step

  lemma StepKeepsLinks(s: State, st: Step, s': State)
    requires Linked(s) && Next(s, st) == Some(s')
    ensures Linked(s')
  {
    match st {
      case J(js) => JobKeepsStoreSide(s, js, s'); JobKeepsQueueSide(s, js, s');
      case T(ts) => TweetKeepsStoreSide(s, ts, s'); TweetKeepsQueueSide(s, ts, s');
      case O(os) => OtherKeepsStoreSide(s, os, s'); OtherKeepsQueueSide(s, os, s');
    }
  }
}
