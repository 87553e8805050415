/** What copies of a job say of its length and of its being done, and what the tweet loop makes of the row it has
  loaded. */
module PipelineTotals {
  import opened Model
  import opened Pipeline
  import opened PipelineShapes
  import opened PipelineLinks

  /** A copy has the length of the job's archive, or was made before that was known; and it is not done without a
      score. */
  predicate ReportFits(archive: Archive, j: Job) {
    && (j.total == 0 || (j.id in archive && j.total == |archive[j.id]|))
    && (j.status.Done? ==> j.gemini >= 1)
    && j.gemini >= 0
  }

  ghost predicate ReportsFit(heap: Heap, jobs: map<JobId, Job>, archive: Archive, uploads: set<JobId>) {
    && (forall r :: r in heap && heap[r].id in uploads ==> ReportFits(archive, heap[r]))
    && (forall id :: id in jobs && jobs[id].id in uploads ==> ReportFits(archive, jobs[id]))
  }

  /** The score of the tweet in hand is in the job's counters. */
  predicate ScoreCounted(at: HeldAt) {
    at.Tallied? || at.CheckDone? || ((at.Put1? || at.Put2?) && (at.goto.ToDone? || at.goto.ToMark?))
  }

  /** The object in hand is the row it was loaded from, and the score of the tweet in hand once that is counted. */
  ghost predicate HandFromRow(tl: TweetLoop, heap: Heap, loaded: Job) {
    tl.TweetHas? && tl.at.Holding? && tl.at.ref in heap ==>
      && heap[tl.at.ref].total == loaded.total
      && heap[tl.at.ref].processed == loaded.processed + (if ScoreCounted(tl.at.at) then 1 else 0)
      && (ScoreCounted(tl.at.at) ==> heap[tl.at.ref].gemini >= 1)
  }

  ghost predicate Totals(s: State) {
    && ReportsFit(s.mem.heap, s.mem.jobs, s.archive, s.hist.uploads.Keys)
    && HandFromRow(s.tl, s.mem.heap, s.hist.loaded)
  }

  lemma TotalsAtStart(s: State)
    requires Init(s)
    ensures Totals(s)
  {
  }

  // ------------------------------------------------------------------ the job loop

  /** The job loop's object may have changed, but for its length and its scores, and it is not made done. */
  ghost predicate LengthKept(s: State, s': State) {
    && s'.mem.jobs == s.mem.jobs && s'.archive == s.archive && s'.tl == s.tl && s'.hist.loaded == s.hist.loaded
    && s'.hist.uploads == s.hist.uploads
    && (s'.mem.heap == s.mem.heap
        || (s.jl.JobRunning? && s.jl.ref in s.mem.heap && s.jl.ref in s'.mem.heap
            && s'.mem.heap == s.mem.heap[s.jl.ref := s'.mem.heap[s.jl.ref]]
            && s'.mem.heap[s.jl.ref].id == s.mem.heap[s.jl.ref].id
            && s'.mem.heap[s.jl.ref].total == s.mem.heap[s.jl.ref].total
            && s'.mem.heap[s.jl.ref].gemini == s.mem.heap[s.jl.ref].gemini
            && (s'.mem.heap[s.jl.ref].status.Done? ==> s.mem.heap[s.jl.ref].status.Done?)))
  }

  lemma LengthKeptTotals(s: State, s': State)
    requires StoreSide(s) && Totals(s) && LengthKept(s, s')
    ensures Totals(s')
  {
  }

  lemma TotalSetFits(s: State, s': State)
    requires StoreSide(s) && Totals(s) && SetsTotal(s) == Some(s')
    ensures Totals(s')
  {
    var j := Obj(s.mem, s.jl.ref).(total := |Tweets(s, s.jl.id)|);
    assert s'.mem.heap == s.mem.heap[s.jl.ref := j] && ReportFits(s.archive, j);
  }

  lemma ParsedTotals(s: State, tweets: seq<Tweet>, s': State)
    requires StoreSide(s) && Totals(s) && ParsesArchive(s, tweets) == Some(s')
    ensures Totals(s')
  {
  }

  lemma JobLoadTotals(s: State, r: Ref, ok: bool, s': State)
    requires StoreSide(s) && Totals(s) && LoadsJob(s, r, ok) == Some(s')
    ensures Totals(s')
  {
  }

  lemma JobChangesKeepLength(s: State, st: JobStep, s': State)
    requires StoreSide(s) && JobNext(s, st) == Some(s')
    requires st.JobBegin? || st.JobStore? || st.JobParseFails? || st.JobAdvance? || st.JobFinish?
    ensures LengthKept(s, s')
  {
  }

  lemma JobKeepsTotals(s: State, st: JobStep, s': State)
    requires StoreSide(s) && Totals(s) && JobNext(s, st) == Some(s')
    ensures Totals(s')
  {
    if st.JobTotal? {
      TotalSetFits(s, s');
    } else if st.JobParses? {
      ParsedTotals(s, st.tweets, s');
    } else if st.JobLoad? {
      JobLoadTotals(s, st.r, st.ok, s');
    } else {
      if JobStores(st) && !st.JobPut? {
        JobChangesKeepLength(s, st, s');
      } else {
        JobMovesKeepLength(s, st, s');
      }
      LengthKeptTotals(s, s');
    }
  }

  lemma JobMovesKeepLength(s: State, st: JobStep, s': State)
    requires JobNext(s, st) == Some(s') && (!JobStores(st) || st.JobPut?) && !st.JobParses?
    ensures LengthKept(s, s')
  {
    if !JobQueues(st) {
      assert QueuesLeft(s, s');
    } else if st.JobTake? {
    } else if st.JobPut? {
      assert ObjectsLeft(s, s');
    } else {
    }
  }

  // ------------------------------------------------------------------ the tweet loop

  /** The object in hand may have changed, but for its length and the count of the score in hand. */
  lemma HandKept(s: State, s': State)
    requires StoreSide(s) && Totals(s) && TweetLeaves(s, s') && s'.hist.loaded == s.hist.loaded
    requires s.tl.TweetHas? && s.tl.at.Holding? && s'.tl.TweetHas?
    requires var r := s.tl.at.ref;
             && r in s'.mem.heap && s'.mem.heap == s.mem.heap[r := s'.mem.heap[r]]
             && s'.mem.heap[r].id == s.mem.heap[r].id && s'.mem.heap[r].total == s.mem.heap[r].total
             && s'.mem.heap[r].gemini >= s.mem.heap[r].gemini
             && (s'.mem.heap[r].status.Done? ==> s.mem.heap[r].status.Done? || s'.mem.heap[r].gemini >= 1)
             && (s'.tl.TweetHas? && s'.tl.at.Holding? && ScoreCounted(s'.tl.at.at) ==> s'.mem.heap[r].gemini >= 1)
             && (s'.tl.at.Holding? ==>
                   && s'.tl.at.ref == r
                   && s'.mem.heap[r].processed - (if ScoreCounted(s'.tl.at.at) then 1 else 0)
                      == s.mem.heap[r].processed - (if ScoreCounted(s.tl.at.at) then 1 else 0))
    ensures Totals(s')
  {
  }

  lemma LoadedTotals(s: State, r: Ref, s': State)
    requires StoreSide(s) && Totals(s) && s.tl.TweetHas? && s.tl.q.job in s.mem.jobs && r !in s.mem.heap
    requires s'.mem == Alloc(s.mem, r, s.mem.jobs[s.tl.q.job], TweetWorker) && s'.archive == s.archive
    requires s'.tl == TweetHas(s.tl.q, Holding(r, Loaded)) && s'.hist.uploads == s.hist.uploads
    requires s'.hist.loaded == s.mem.jobs[s.tl.q.job]
    ensures Totals(s')
  {
  }

  lemma TweetLoadTotals(s: State, r: Ref, ok: bool, s': State)
    requires StoreSide(s) && Totals(s) && LoadsForTweet(s, r, ok) == Some(s')
    ensures Totals(s')
  {
    LoadShape(s, r, ok, s');
    if s'.tl.at.Holding? {
      LoadedTotals(s, r, s');
    }
  }

  lemma PausedTotals(s: State, r: Ref, s': State)
    requires StoreSide(s) && Totals(s) && TweetLeaves(s, s') && s.tl.TweetHas? && s.tl.q.job in s.mem.jobs
    requires r !in s.mem.heap && s'.hist.loaded == s.mem.jobs[s.tl.q.job]
    requires s'.mem.heap == s.mem.heap[r := s.mem.jobs[s.tl.q.job].(status := PausedQuota)]
    requires s'.tl == TweetHas(s.tl.q, Holding(r, Put1(ToDrop)))
    ensures Totals(s')
  {
  }

  lemma PauseTotals(s: State, r: Ref, ok: bool, s': State)
    requires StoreSide(s) && Totals(s) && PausesJob(s, r, ok) == Some(s')
    ensures Totals(s')
  {
    if s'.tl.at.Holding? {
      PauseShape(s, r, ok, s');
      PausedTotals(s, r, s');
    } else {
      assert s' == s.(tl := TweetHas(s.tl.q, Drop));
    }
  }

  lemma ReturnTotals(s: State, outcome: ScoreOutcome, s': State)
    requires StoreSide(s) && Totals(s) && ScoreReturns(s, outcome) == Some(s')
    ensures Totals(s')
  {
    match outcome {
      case Success(flag) => SuccessShape(s, flag, s'); HandMoved(s, s');
      case QuotaSpent => SpentShape(s, s'); HandKept(s, s');
      case Failure => FailureShape(s, s'); HandMoved(s, s');
    }
  }

  lemma TallyTotals(s: State, s': State)
    requires StoreSide(s) && Totals(s) && TalliesScore(s) == Some(s')
    ensures Totals(s')
  {
    TallyShape(s, s');
    HandKept(s, s');
  }

  lemma StampTotals(s: State, s': State)
    requires StoreSide(s) && Totals(s) && TweetUpdate1(s) == Some(s')
    ensures Totals(s')
  {
    HandKept(s, s');
  }

  lemma PutTotals(s: State, s': State)
    requires StoreSide(s) && Totals(s) && TweetUpdate2(s) == Some(s')
    ensures Totals(s')
  {
    TweetHandOverShape(s, s');
    HandKept(s, s');
  }

  lemma DoneTotals(s: State, s': State)
    requires StoreSide(s) && Totals(s) && ChecksDone(s) == Some(s')
    ensures Totals(s')
  {
    DoneShape(s, s');
    var job := Obj(s.mem, s.tl.at.ref);
    if job.processed >= job.total {
      HandKept(s, s');
    } else {
      HandMoved(s, s');
    }
  }

  lemma ResumeTotals(s: State, s': State)
    requires StoreSide(s) && Totals(s) && ResumesJob(s) == Some(s')
    ensures Totals(s')
  {
    ResumeShape(s, s');
    HandKept(s, s');
  }

  /** The tweet loop goes on with its object as it is. */
  lemma HandMoved(s: State, s': State)
    requires StoreSide(s) && Totals(s) && TweetLeaves(s, s') && s'.hist.loaded == s.hist.loaded
    requires s.tl.TweetHas? && s.tl.at.Holding? && s'.tl.TweetHas? && s'.mem.heap == s.mem.heap
    requires s'.tl.at.Holding? ==>
               s'.tl.at.ref == s.tl.at.ref && (ScoreCounted(s'.tl.at.at) <==> ScoreCounted(s.tl.at.at))
    ensures Totals(s')
  {
  }

  lemma CriteriaTotals(s: State, s': State)
    requires StoreSide(s) && Totals(s) && SetsCriteria(s) == Some(s')
    ensures Totals(s')
  {
    HandMoved(s, s');
  }

  lemma CallTotals(s: State, s': State)
    requires StoreSide(s) && Totals(s) && CallsScore(s) == Some(s')
    ensures Totals(s')
  {
    HandMoved(s, s');
  }

  lemma CountTotals(s: State, ok: bool, s': State)
    requires StoreSide(s) && Totals(s) && CountsQuota(s, ok) == Some(s')
    ensures Totals(s')
  {
    HandMoved(s, s');
  }

  lemma FlagTotals(s: State, ok: bool, s': State)
    requires StoreSide(s) && Totals(s) && SavesFlag(s, ok) == Some(s')
    ensures Totals(s')
  {
    HandMoved(s, s');
  }

  lemma EmptyHandTotals(s: State, st: TweetStep, s': State)
    requires Totals(s) && TweetNext(s, st) == Some(s')
    requires st.TweetTake? || st.TweetCheck? || st.TweetMark? || st.TweetRequeue? || st.TweetDrop?
    ensures Totals(s')
  {
  }

  lemma TweetChangesKeepTotals(s: State, st: TweetStep, s': State)
    requires StoreSide(s) && Totals(s) && TweetNext(s, st) == Some(s')
    requires st.TweetReturn? || st.TweetTally? || st.TweetStore? || st.TweetPut? || st.TweetDone? || st.TweetResume?
    ensures Totals(s')
  {
    match st {
      case TweetReturn(outcome) => ReturnTotals(s, outcome, s');
      case TweetTally => TallyTotals(s, s');
      case TweetStore => StampTotals(s, s');
      case TweetPut => PutTotals(s, s');
      case TweetDone => DoneTotals(s, s');
      case TweetResume => ResumeTotals(s, s');
    }
  }

  lemma TweetMovesKeepTotals(s: State, st: TweetStep, s': State)
    requires StoreSide(s) && Totals(s) && TweetNext(s, st) == Some(s')
    requires st.TweetCriteria? || st.TweetCall? || st.TweetCount? || st.TweetFlag?
    ensures Totals(s')
  {
    match st {
      case TweetCriteria => CriteriaTotals(s, s');
      case TweetCall => CallTotals(s, s');
      case TweetCount(ok) => CountTotals(s, ok, s');
      case TweetFlag(ok) => FlagTotals(s, ok, s');
    }
  }

  lemma TweetLoadsKeepTotals(s: State, st: TweetStep, s': State)
    requires StoreSide(s) && Totals(s) && TweetNext(s, st) == Some(s') && (st.TweetLoad? || st.TweetPause?)
    ensures Totals(s')
  {
    if st.TweetLoad? {
      TweetLoadTotals(s, st.r, st.ok, s');
    } else {
      PauseTotals(s, st.r, st.ok, s');
    }
  }

  lemma TweetKeepsTotals(s: State, st: TweetStep, s': State)
    requires StoreSide(s) && Totals(s) && TweetNext(s, st) == Some(s')
    ensures Totals(s')
  {
    if st.TweetLoad? || st.TweetPause? {
      TweetLoadsKeepTotals(s, st, s');
    } else if st.TweetCriteria? || st.TweetCall? || st.TweetCount? || st.TweetFlag? {
      TweetMovesKeepTotals(s, st, s');
    } else if st.TweetTake? || st.TweetCheck? || st.TweetMark? || st.TweetRequeue? || st.TweetDrop? {
      EmptyHandTotals(s, st, s');
    } else {
      TweetChangesKeepTotals(s, st, s');
    }
  }

  // ------------------------------------------------------------------ callers and flusher

  lemma NewJobTotals(s: State, id: JobId, r: Ref, fileId: FileId, criteria: Option<Criteria>, ok: bool, s': State)
    requires StoreSide(s) && Totals(s) && SavesNewJob(s, id, r, fileId, criteria, ok) == Some(s')
    ensures Totals(s')
  {
  }

  lemma ReadTotals(s: State, id: JobId, r: Ref, s': State)
    requires StoreSide(s) && Totals(s) && ReadsMissed(s, id, r) == Some(s')
    ensures Totals(s')
  {
  }

  lemma WriteTotals(s: State, id: JobId, ok: bool, s': State)
    requires StoreSide(s) && Totals(s) && OtherNext(s, FlushWrite(id, ok)) == Some(s')
    ensures Totals(s')
  {
  }

  lemma OtherKeepsTotals(s: State, st: OtherStep, s': State)
    requires StoreSide(s) && Totals(s) && OtherNext(s, st) == Some(s')
    ensures Totals(s')
  {
    match st {
      case EnqueueSave(id, r, fileId, criteria, ok) => NewJobTotals(s, id, r, fileId, criteria, ok, s');
      case GetRead(id, r) => ReadTotals(s, id, r, s');
      case FlushWrite(id, ok) => WriteTotals(s, id, ok, s');
      case _ => assert ObjectsLeft(s, s') && s'.hist.uploads == s.hist.uploads;
    }
  }

  lemma StepKeepsTotals(s: State, st: Step, s': State)
    requires StoreSide(s) && Totals(s) && Next(s, st) == Some(s')
    ensures Totals(s')
  {
    match st {
      case J(js) => JobKeepsTotals(s, js, s');
      case T(ts) => TweetKeepsTotals(s, ts, s');
      case O(os) => OtherKeepsTotals(s, os, s');
    }
  }
}
