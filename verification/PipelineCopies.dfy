/** No copy of a job over-reports, whatever is stale, lost or overwritten; and every copy carries the file and
  the criteria it was uploaded with. */
module PipelineCopies {
  import opened Model
  import opened Pipeline
  import opened PipelineShapes
  import opened PipelineLinks

  /** One copy of a job: counters bounded by the events of the job, an error text exactly when it failed. */
  ghost predicate CopyOk(u: Upload, t: Tally, j: Job) {
    && j.fileId == u.fileId && j.criteria == u.criteria && Seconds(j.createdAt) == Seconds(u.createdAt)
    && 0 <= j.gemini <= t.scored
    && 0 <= j.flagged <= t.filterFlags + t.llmFlags
    && 0 <= j.processed <= t.advanced + t.scored
    && (j.status.Failed? <==> j.error != "")
  }

  ghost predicate CopyInOrder(h: History, j: Job) {
    j.id in h.uploads ==>
      && CopyOk(h.uploads[j.id], TallyIn(h.tally, j.id), j)
      && (j.status.Failed? ==> j.id in h.failed)
  }

  /** All copies: the objects in memory, to which loops, cache, pending updates and batch refer, and the rows. */
  ghost predicate CopiesOk(heap: Heap, jobs: map<JobId, Job>, h: History) {
    && (forall r :: r in heap ==> CopyInOrder(h, heap[r]))
    && (forall id :: id in jobs ==> CopyInOrder(h, jobs[id]))
  }

  /** The loop's own count of flags is one of flag events. */
  ghost predicate LoopCountOk(jl: JobLoop, tally: map<JobId, Tally>) {
    jl.JobRunning? ==> LoopFlags(jl) <= TallyIn(tally, jl.id).filterFlags
  }

  /** A scoring that is counted but not yet in the job's counters leaves room for it there. */
  ghost predicate HandRoomOk(tl: TweetLoop, heap: Heap, tally: map<JobId, Tally>) {
    tl.TweetHas? && tl.at.Holding? && (tl.at.at.Succeeded? || tl.at.at.Counted?) && tl.at.ref in heap ==>
      var j, t := heap[tl.at.ref], TallyIn(tally, tl.q.job);
      && j.gemini < t.scored
      && j.processed < t.advanced + t.scored
      && j.flagged + (if tl.at.at.flag then 1 else 0) <= t.filterFlags + t.llmFlags
  }

  /** Jobs that failed have no archive and are, or are about to be, ended. */
  ghost predicate FailuresEnd(failed: set<JobId>, archive: set<JobId>, phase: map<JobId, Phase>, jl: JobLoop) {
    forall id :: id in failed ==>
      && id !in archive && id in phase
      && (phase[id].Ended? || (jl.JobRunning? && jl.id == id && AtEnd(jl.at)))
  }

  predicate AtEnd(at: JobAt) {
    (at.Store1? || at.Store2?) && at.goto.ToEnd?
  }

  ghost predicate Bounded(s: State) {
    && CopiesOk(s.mem.heap, s.mem.jobs, s.hist)
    && LoopCountOk(s.jl, s.hist.tally)
    && HandRoomOk(s.tl, s.mem.heap, s.hist.tally)
  }

  ghost predicate Failures(s: State) {
    FailuresEnd(s.hist.failed, s.archive.Keys, s.hist.phase, s.jl)
  }

  ghost predicate HistoryGrows(h: History, h': History) {
    && h'.uploads == h.uploads && h.failed <= h'.failed
    && forall id :: var t, t' := TallyIn(h.tally, id), TallyIn(h'.tally, id);
         && t.advanced <= t'.advanced && t.scored <= t'.scored
         && t.filterFlags <= t'.filterFlags && t.llmFlags <= t'.llmFlags
  }

  // ------------------------------------------------------------------ shapes of change

  lemma CopiesOutliveEvents(heap: Heap, jobs: map<JobId, Job>, h: History, h': History)
    requires CopiesOk(heap, jobs, h) && HistoryGrows(h, h')
    ensures CopiesOk(heap, jobs, h')
  {
  }

  lemma ObjectWritten(heap: Heap, jobs: map<JobId, Job>, h: History, r: Ref, j: Job)
    requires CopiesOk(heap, jobs, h) && CopyInOrder(h, j)
    ensures CopiesOk(heap[r := j], jobs, h)
  {
  }

  lemma RowWritten(heap: Heap, jobs: map<JobId, Job>, h: History, j: Job)
    requires CopiesOk(heap, jobs, h) && CopyInOrder(h, j)
    requires j.id in jobs ==> jobs[j.id].id == j.id
    ensures CopiesOk(heap, SaveJob(jobs, j), h)
  {
  }

  lemma BoundedAtStart(s: State)
    requires Init(s)
    ensures Bounded(s) && Failures(s)
  {
  }

  lemma NothingCounted(s: State, s': State)
    requires Bounded(s) && ObjectsLeft(s, s') && TallyLeft(s, s')
    requires s'.hist.uploads == s.hist.uploads && s'.hist.failed == s.hist.failed
    requires FlagsLeft(s, s') && RoomLeft(s.tl, s'.tl)
    ensures Bounded(s')
  {
  }

  /** The tweet loop has not come by a scoring that is not in its job's counters. */
  ghost predicate RoomLeft(tl: TweetLoop, tl': TweetLoop) {
    tl'.TweetHas? && tl'.at.Holding? && (tl'.at.at.Succeeded? || tl'.at.at.Counted?) ==>
      && tl.TweetHas? && tl.at.Holding? && (tl.at.at.Succeeded? || tl.at.at.Counted?)
      && tl.q == tl'.q && tl.at.ref == tl'.at.ref && tl.at.at.flag == tl'.at.at.flag
  }

  // ------------------------------------------------------------------ the job loop

  /** The job loop changes its object to a copy that is in order. */
  lemma JobChangeBounded(s: State, j: Job, s': State)
    requires StoreSide(s) && Bounded(s) && JobLeaves(s, s') && s.jl.JobRunning?
    requires s'.mem.heap == s.mem.heap[s.jl.ref := j] && HistoryGrows(s.hist, s'.hist)
    requires CopyInOrder(s'.hist, j)
    requires FlagsLeft(s, s')
    ensures Bounded(s')
  {
    CopiesOutliveEvents(s.mem.heap, s.mem.jobs, s.hist, s'.hist);
    ObjectWritten(s.mem.heap, s.mem.jobs, s'.hist, s.jl.ref, j);
  }

  lemma WorkNotFailed(s: State)
    requires Linked(s) && Bounded(s) && Failures(s) && s.jl.JobRunning? && s.jl.at.Begin?
    ensures var j := Obj(s.mem, s.jl.ref);
            j.id == s.jl.id && CopyInOrder(s.hist, j) && j.id in s.hist.uploads && !j.status.Failed?
  {
    assert s.hist.phase[s.jl.id].Working?;
  }

  lemma JobBeginBounded(s: State, s': State)
    requires Linked(s) && Bounded(s) && Failures(s) && BeginsJob(s) == Some(s')
    ensures Bounded(s')
  {
    WorkNotFailed(s);
    JobChangeBounded(s, Obj(s.mem, s.jl.ref).(status := Running), s');
  }

  lemma JobFailBounded(s: State, message: string, s': State)
    requires StoreSide(s) && Bounded(s) && FailsParsing(s, message) == Some(s')
    ensures Bounded(s')
  {
    JobChangeBounded(s, Obj(s.mem, s.jl.ref).(status := Status.Failed, error := message), s');
  }

  lemma JobTotalBounded(s: State, s': State)
    requires StoreSide(s) && Bounded(s) && SetsTotal(s) == Some(s')
    ensures Bounded(s')
  {
    JobChangeBounded(s, Obj(s.mem, s.jl.ref).(total := |Tweets(s, s.jl.id)|), s');
  }

  lemma AdvancedInOrder(h: History, j: Job, flags: nat, h': History)
    requires j.id in h.uploads && CopyInOrder(h, j) && flags <= TallyIn(h.tally, j.id).filterFlags
    requires h'.uploads == h.uploads && h'.failed == h.failed
    requires var t := TallyIn(h.tally, j.id); h'.tally == h.tally[j.id := t.(advanced := t.advanced + 1)]
    ensures CopyInOrder(h', j.(processed := j.processed + 1, flagged := flags)) && HistoryGrows(h, h')
  {
  }

  lemma AdvancedBounded(s: State, s': State)
    requires StoreSide(s) && Bounded(s) && s.jl.JobRunning? && JobLeaves(s, s') && FlagsLeft(s, s')
    requires var t, j := TallyIn(s.hist.tally, s.jl.id), Obj(s.mem, s.jl.ref);
             && s'.hist.tally == s.hist.tally[s.jl.id := t.(advanced := t.advanced + 1)]
             && s'.mem.heap == s.mem.heap[s.jl.ref := j.(processed := j.processed + 1, flagged := LoopFlags(s.jl))]
    requires s'.hist.failed == s.hist.failed
    ensures Bounded(s')
  {
    var j := Obj(s.mem, s.jl.ref);
    AdvancedInOrder(s.hist, j, LoopFlags(s.jl), s'.hist);
    JobChangeBounded(s, j.(processed := j.processed + 1, flagged := LoopFlags(s.jl)), s');
  }

  lemma JobAdvanceBounded(s: State, s': State)
    requires StoreSide(s) && Bounded(s) && AdvancesLoop(s) == Some(s')
    ensures Bounded(s')
  {
    AdvanceShape(s, s');
    AdvancedBounded(s, s');
  }

  lemma JobFinishBounded(s: State, s': State)
    requires StoreSide(s) && Bounded(s) && LeavesLoop(s) == Some(s')
    ensures Bounded(s')
  {
    JobChangeBounded(s, s'.mem.heap[s.jl.ref], s');
  }

  lemma JobStampBounded(s: State, s': State)
    requires StoreSide(s) && Bounded(s) && JobUpdate1(s) == Some(s')
    ensures Bounded(s')
  {
    JobChangeBounded(s, Obj(s.mem, s.jl.ref).(updatedAt := s.now), s');
  }

  lemma JobLoadBounded(s: State, r: Ref, ok: bool, s': State)
    requires StoreSide(s) && Bounded(s) && LoadsJob(s, r, ok) == Some(s')
    ensures Bounded(s')
  {
  }

  /** Events grow, and the store is as it was. */
  lemma JobEventBounded(s: State, t: Tally, s': State)
    requires Bounded(s) && JobLeaves(s, s') && s'.mem == s.mem && FailedLeft(s, s')
    requires s.jl.JobRunning? && s'.jl.JobRunning? && s'.jl.id == s.jl.id
    requires s'.hist.tally == s.hist.tally[s.jl.id := t]
    requires var t0 := TallyIn(s.hist.tally, s.jl.id);
             && t.advanced == t0.advanced && t.scored == t0.scored && t.llmFlags == t0.llmFlags
             && t.filterFlags >= t0.filterFlags
    requires LoopFlags(s'.jl) <= t.filterFlags
    ensures Bounded(s')
  {
  }

  lemma JobFlagBounded(s: State, ok: bool, s': State)
    requires Bounded(s) && FlagsTweet(s, ok) == Some(s')
    ensures Bounded(s')
  {
    JobEventBounded(s, s'.hist.tally[s.jl.id], s');
  }

  lemma JobMarkBounded(s: State, ok: bool, s': State)
    requires Bounded(s) && MarksTweet(s, ok) == Some(s')
    ensures Bounded(s')
  {
    if ok {
      NothingCounted(s, s');
    } else {
      JobEventBounded(s, s'.hist.tally[s.jl.id], s');
    }
  }

  lemma JobKeepsBounded(s: State, st: JobStep, s': State)
    requires Linked(s) && Bounded(s) && Failures(s) && JobNext(s, st) == Some(s')
    ensures Bounded(s')
  {
    if st.JobBegin? {
      JobBeginBounded(s, s');
    } else if st.JobParseFails? {
      JobFailBounded(s, st.message, s');
    } else if st.JobTotal? {
      JobTotalBounded(s, s');
    } else if st.JobAdvance? {
      JobAdvanceBounded(s, s');
    } else if st.JobFinish? {
      JobFinishBounded(s, s');
    } else if st.JobStore? {
      JobStampBounded(s, s');
    } else if st.JobLoad? {
      JobLoadBounded(s, st.r, st.ok, s');
    } else if st.JobFlag? {
      JobFlagBounded(s, st.ok, s');
    } else if st.JobMark? {
      JobMarkBounded(s, st.ok, s');
    } else {
      NothingCounted(s, s');
    }
  }

  // ------------------------------------------------------------------ the tweet loop

  /** The tweet loop changes its object to a copy that is in order. */
  lemma TweetChangeBounded(s: State, r: Ref, j: Job, s': State)
    requires Bounded(s) && TweetLeaves(s, s') && TallyLeft(s, s')
    requires s'.mem.heap == s.mem.heap[r := j] && CopyInOrder(s.hist, j)
    requires s'.tl.TweetHas? && s'.tl.at.Holding? ==> !s'.tl.at.at.Succeeded? && !s'.tl.at.at.Counted?
    ensures Bounded(s')
  {
  }

  lemma HeldNotFailed(s: State)
    requires StoreSide(s) && Bounded(s) && Failures(s) && s.tl.TweetHas? && s.tl.at.Holding?
    ensures var j := Obj(s.mem, s.tl.at.ref);
            j.id == s.tl.q.job && j.id in s.hist.uploads && CopyInOrder(s.hist, j) && !j.status.Failed?
  {
  }

  lemma TweetDoneBounded(s: State, s': State)
    requires StoreSide(s) && Bounded(s) && Failures(s) && ChecksDone(s) == Some(s')
    ensures Bounded(s')
  {
    HeldNotFailed(s);
    DoneShape(s, s');
    var job := Obj(s.mem, s.tl.at.ref);
    if job.processed >= job.total {
      TweetChangeBounded(s, s.tl.at.ref, job.(status := Done), s');
    } else {
      NothingCounted(s, s');
    }
  }

  lemma TweetResumeBounded(s: State, s': State)
    requires StoreSide(s) && Bounded(s) && Failures(s) && ResumesJob(s) == Some(s')
    ensures Bounded(s')
  {
    HeldNotFailed(s);
    TweetChangeBounded(s, s.tl.at.ref, Obj(s.mem, s.tl.at.ref).(status := Running), s');
  }

  lemma TweetStampBounded(s: State, s': State)
    requires StoreSide(s) && Bounded(s) && Failures(s) && TweetUpdate1(s) == Some(s')
    ensures Bounded(s')
  {
    HeldNotFailed(s);
    TweetChangeBounded(s, s.tl.at.ref, Obj(s.mem, s.tl.at.ref).(updatedAt := s.now), s');
  }

  lemma TweetTallyBounded(s: State, s': State)
    requires StoreSide(s) && Bounded(s) && Failures(s) && TalliesScore(s) == Some(s')
    ensures Bounded(s')
  {
    HeldNotFailed(s);
    TweetChangeBounded(s, s.tl.at.ref, s'.mem.heap[s.tl.at.ref], s');
  }

  lemma TweetLoadBounded(s: State, r: Ref, ok: bool, s': State)
    requires StoreSide(s) && Bounded(s) && LoadsForTweet(s, r, ok) == Some(s')
    ensures Bounded(s')
  {
    if s'.tl.at.Holding? {
      TweetChangeBounded(s, r, s.mem.jobs[s.tl.q.job], s');
    } else {
      NothingCounted(s, s');
    }
  }

  lemma PauseBounded(s: State, r: Ref, ok: bool, s': State)
    requires StoreSide(s) && Bounded(s) && Failures(s) && PausesJob(s, r, ok) == Some(s')
    ensures Bounded(s')
  {
    if s'.tl.at.Holding? {
      PauseShape(s, r, ok, s');
      TweetChangeBounded(s, r, s.mem.jobs[s.tl.q.job].(status := PausedQuota), s');
    } else {
      assert s' == s.(tl := TweetHas(s.tl.q, Drop));
      NothingCounted(s, s');
    }
  }

  lemma SuccessBounded(s: State, flag: bool, s': State)
    requires StoreSide(s) && Bounded(s) && ScoreReturns(s, Success(flag)) == Some(s')
    ensures Bounded(s')
  {
    SuccessShape(s, flag, s');
    ScoredBounded(s, flag, s');
  }

  /** One scoring more leaves room for the count that follows it. */
  lemma ScoredBounded(s: State, flag: bool, s': State)
    requires StoreSide(s) && Bounded(s) && s.tl.TweetHas? && s.tl.at.Holding? && s.tl.at.at.InCall?
    requires s'.tl == TweetHas(s.tl.q, Holding(s.tl.at.ref, Succeeded(flag)))
    requires s' == s.(tl := s'.tl, hist := s.hist.(scorings := s.hist.scorings + 1, tally := s'.hist.tally))
    requires var t, t' := TallyIn(s.hist.tally, s.tl.q.job), TallyIn(s'.hist.tally, s.tl.q.job);
             && s'.hist.tally == s.hist.tally[s.tl.q.job := t'] && t'.scored == t.scored + 1
             && t'.advanced == t.advanced && t'.filterFlags == t.filterFlags
             && t'.llmFlags == t.llmFlags + if flag then 1 else 0
    ensures Bounded(s')
  {
    assert HistoryGrows(s.hist, s'.hist);
    CopiesOutliveEvents(s.mem.heap, s.mem.jobs, s.hist, s'.hist);
    assert CopyInOrder(s.hist, s.mem.heap[s.tl.at.ref]);
  }

  lemma ReturnBounded(s: State, outcome: ScoreOutcome, s': State)
    requires StoreSide(s) && Bounded(s) && Failures(s) && ScoreReturns(s, outcome) == Some(s')
    ensures Bounded(s')
  {
    if outcome.Success? {
      SuccessBounded(s, outcome.flag, s');
    } else if outcome.QuotaSpent? {
      HeldNotFailed(s);
      TweetChangeBounded(s, s.tl.at.ref, Obj(s.mem, s.tl.at.ref).(status := PausedQuota), s');
    } else {
      NothingCounted(s, s');
    }
  }

  lemma TweetMovesBounded(s: State, st: TweetStep, s': State)
    requires Bounded(s) && TweetNext(s, st) == Some(s') && (!TweetStores(st) || st.TweetPut?)
    ensures Bounded(s')
  {
    NothingCounted(s, s');
  }

  lemma TweetKeepsBounded(s: State, st: TweetStep, s': State)
    requires StoreSide(s) && Bounded(s) && Failures(s) && TweetNext(s, st) == Some(s')
    ensures Bounded(s')
  {
    if st.TweetDone? {
      TweetDoneBounded(s, s');
    } else if st.TweetResume? {
      TweetResumeBounded(s, s');
    } else if st.TweetStore? {
      TweetStampBounded(s, s');
    } else if st.TweetTally? {
      TweetTallyBounded(s, s');
    } else if st.TweetLoad? {
      TweetLoadBounded(s, st.r, st.ok, s');
    } else if st.TweetPause? {
      PauseBounded(s, st.r, st.ok, s');
    } else if st.TweetReturn? {
      ReturnBounded(s, st.outcome, s');
    } else {
      TweetMovesBounded(s, st, s');
    }
  }

  // ------------------------------------------------------------------ callers and flusher

  lemma NewJobInOrder(heap: Heap, jobs: map<JobId, Job>, h: History, r: Ref, job: Job, u: Upload, h': History)
    requires CopiesOk(heap, jobs, h)
    requires (forall k :: k in heap ==> heap[k].id != job.id) && job.id !in jobs
    requires forall id :: id in jobs ==> jobs[id].id == id
    requires h' == h.(uploads := h.uploads[job.id := u], tally := h.tally[job.id := NO_EVENTS], phase := h'.phase)
    requires job == Job(job.id, u.fileId, Queued, 0, 0, 0, 0, u.criteria, "", u.createdAt, u.createdAt)
    ensures CopiesOk(heap[r := job], jobs, h') && CopiesOk(heap[r := job], SaveJob(jobs, job), h')
  {
  }

  lemma NewJobBounded(s: State, id: JobId, r: Ref, fileId: FileId, criteria: Option<Criteria>, ok: bool, s': State)
    requires Linked(s) && Bounded(s) && SavesNewJob(s, id, r, fileId, criteria, ok) == Some(s')
    ensures Bounded(s')
  {
    NewJobShape(s, id, r, fileId, criteria, ok, s');
    NewJobInOrder(s.mem.heap, s.mem.jobs, s.hist, r, s'.mem.heap[r], s'.hist.uploads[id], s'.hist);
    RoomUntouched(s.jl, s.tl, s.mem.heap, s.hist.tally, id, r, s'.mem.heap[r]);
  }

  lemma RoomUntouched(jl: JobLoop, tl: TweetLoop, heap: Heap, tally: map<JobId, Tally>, id: JobId, r: Ref, job: Job)
    requires LoopCountOk(jl, tally) && HandRoomOk(tl, heap, tally) && r !in heap
    requires jl.JobRunning? ==> jl.id != id
    requires tl.TweetHas? ==> tl.q.job != id && (tl.at.Holding? ==> tl.at.ref in heap)
    ensures LoopCountOk(jl, tally[id := NO_EVENTS]) && HandRoomOk(tl, heap[r := job], tally[id := NO_EVENTS])
  {
  }

  lemma ReadBounded(s: State, id: JobId, r: Ref, s': State)
    requires StoreSide(s) && Bounded(s) && ReadsMissed(s, id, r) == Some(s')
    ensures Bounded(s')
  {
  }

  lemma WriteBounded(s: State, id: JobId, ok: bool, s': State)
    requires StoreSide(s) && Bounded(s) && OtherNext(s, FlushWrite(id, ok)) == Some(s')
    ensures Bounded(s')
  {
    if ok {
      RowWritten(s.mem.heap, s.mem.jobs, s.hist, s.mem.heap[s.mem.batch[id]]);
    }
  }

  lemma OtherKeepsBounded(s: State, st: OtherStep, s': State)
    requires Linked(s) && Bounded(s) && OtherNext(s, st) == Some(s')
    ensures Bounded(s')
  {
    if st.EnqueueSave? {
      NewJobBounded(s, st.id, st.r, st.fileId, st.criteria, st.ok, s');
    } else if st.GetRead? {
      ReadBounded(s, st.id, st.r, s');
    } else if st.FlushWrite? {
      WriteBounded(s, st.id, st.ok, s');
    } else {
      NothingCounted(s, s');
    }
  }

  // ------------------------------------------------------------------ failures

  lemma FailuresLeft(s: State, s': State)
    requires Failures(s) && s'.hist.failed == s.hist.failed && s'.archive == s.archive
    requires s'.hist.phase == s.hist.phase && s'.jl == s.jl
    ensures Failures(s')
  {
  }

  /** Within a job the loop leaves its last update only by ending. */
  lemma JobMovesKeepFailures(s: State, s': State)
    requires Failures(s) && s'.hist.failed == s.hist.failed && QueuesLeft(s, s')
    requires !Updating(s.jl) || (s'.jl.JobRunning? && AtEnd(s'.jl.at))
    ensures Failures(s')
  {
  }

  lemma TakeKeepsFailures(s: State, s': State)
    requires Linked(s) && Failures(s) && TakesJob(s) == Some(s')
    ensures Failures(s')
  {
  }

  lemma LoadKeepsFailures(s: State, r: Ref, ok: bool, s': State)
    requires Linked(s) && Failures(s) && LoadsJob(s, r, ok) == Some(s')
    ensures Failures(s')
  {
  }

  lemma ParseKeepsFailures(s: State, tweets: seq<Tweet>, s': State)
    requires Linked(s) && Failures(s) && ParsesArchive(s, tweets) == Some(s')
    ensures Failures(s')
  {
  }

  lemma HandOverKeepsFailures(s: State, s': State)
    requires Failures(s) && JobUpdate2(s) == Some(s')
    ensures Failures(s')
  {
  }

  lemma FailureAdded(s: State, s': State)
    requires Linked(s) && Failures(s) && s.jl.JobRunning? && s.jl.at.Parse?
    requires s'.jl == JobRunning(s.jl.id, s.jl.ref, Store1(ToEnd)) && s'.archive == s.archive
    requires s'.hist.failed == s.hist.failed + {s.jl.id} && s'.hist.phase == s.hist.phase
    ensures Failures(s')
  {
  }

  lemma FailureRecorded(s: State, message: string, s': State)
    requires Linked(s) && Failures(s) && FailsParsing(s, message) == Some(s')
    ensures Failures(s')
  {
    FailShape(s, message, s');
    FailureAdded(s, s');
  }

  lemma SendKeepsFailures(s: State, s': State)
    requires Failures(s) && SendsTweet(s) == Some(s')
    ensures Failures(s')
  {
  }

  lemma StampKeepsFailures(s: State, s': State)
    requires Failures(s) && JobUpdate1(s) == Some(s')
    ensures Failures(s')
  {
  }

  lemma JobKeepsFailures(s: State, st: JobStep, s': State)
    requires Linked(s) && Failures(s) && JobNext(s, st) == Some(s')
    ensures Failures(s')
  {
    if st.JobTake? {
      TakeKeepsFailures(s, s');
    } else if st.JobLoad? {
      LoadKeepsFailures(s, st.r, st.ok, s');
    } else if st.JobParses? {
      ParseKeepsFailures(s, st.tweets, s');
    } else if st.JobPut? {
      HandOverKeepsFailures(s, s');
    } else if st.JobParseFails? {
      FailureRecorded(s, st.message, s');
    } else if st.JobSend? {
      SendKeepsFailures(s, s');
    } else if st.JobStore? {
      StampKeepsFailures(s, s');
    } else {
      JobMovesKeepFailures(s, s');
    }
  }

  lemma UploadKeepsFailures(s: State, st: OtherStep, s': State)
    requires Linked(s) && Failures(s) && OtherNext(s, st) == Some(s') && st.EnqueueSave?
    ensures Failures(s')
  {
  }

  lemma SentKeepsFailures(s: State, id: JobId, s': State)
    requires QueueSide(s) && Failures(s) && SendsNewJob(s, id) == Some(s')
    ensures Failures(s')
  {
    assert s.hist.phase[id].Entering?;
  }

  lemma OtherKeepsFailures(s: State, st: OtherStep, s': State)
    requires Linked(s) && Failures(s) && OtherNext(s, st) == Some(s')
    ensures Failures(s')
  {
    if st.EnqueueSave? {
      UploadKeepsFailures(s, st, s');
    } else if st.EnqueueSend? {
      SentKeepsFailures(s, st.id, s');
    } else {
      FailuresLeft(s, s');
    }
  }

  // ------------------------------------------------------------------ every step, every run

  ghost predicate Kept(s: State) {
    Linked(s) && Bounded(s) && Failures(s)
  }

  lemma StepKeeps(s: State, st: Step, s': State)
    requires Kept(s) && Next(s, st) == Some(s')
    ensures Kept(s')
  {
    StepKeepsLinks(s, st, s');
    match st {
      case J(js) => JobKeepsBounded(s, js, s'); JobKeepsFailures(s, js, s');
      case T(ts) => TweetKeepsBounded(s, ts, s'); FailuresLeft(s, s');
      case O(os) => OtherKeepsBounded(s, os, s'); OtherKeepsFailures(s, os, s');
    }
  }
}
