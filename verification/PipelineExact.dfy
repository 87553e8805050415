/** Flush-separated runs: a job whose updates were all in the database whenever the tweet loop loaded it has
  exact counters. */
module PipelineExact {
  import opened Model
  import opened Pipeline
  import opened PipelineShapes
  import opened PipelineLinks
  import opened PipelineCopies
  import opened PipelineStore
  import opened PipelineFlow
  import opened FlowPlaces
  import opened FlowTally

  predicate Exact(t: Tally, j: Job) {
    && j.gemini == t.scored
    && j.flagged == t.filterFlags + t.llmFlags
    && j.processed == t.advanced + t.scored
  }

  /** A scoring has been counted and is not in the job's counters yet. */
  predicate OneBehind(t: Tally, j: Job, flag: bool) {
    && j.gemini + 1 == t.scored
    && j.flagged + (if flag then 1 else 0) == t.filterFlags + t.llmFlags
    && j.processed + 1 == t.advanced + t.scored
  }

  predicate TotalSet(archive: Archive, id: JobId, j: Job) {
    id in archive ==> j.total == |archive[id]|
  }

  predicate InPhase2(at: JobAt) {
    || at.Filter? || at.FlagSaved? || at.Marked? || at.Advance?
    || ((at.Store1? || at.Store2?) && at.goto.ToFilter?)
  }

  /** The job loop's object, as long as the tweet loop has not loaded the job. */
  ghost predicate WorkExact(t: Tally, j: Job, archive: Archive, jl: JobLoop)
    requires jl.JobRunning?
  {
    && t.scored == 0 && t.llmFlags == 0 && j.gemini == 0 && j.processed == t.advanced
    && (if InPhase2(jl.at) then LoopFlags(jl) == t.filterFlags && TotalSet(archive, jl.id, j)
        else if AtEnd(jl.at) then j.flagged == t.filterFlags && TotalSet(archive, jl.id, j)
        else t.advanced == 0 && t.filterFlags == 0 && j.flagged == 0)
  }

  ghost predicate JobExact(jl: JobLoop, heap: Heap, archive: Archive, tally: map<JobId, Tally>, mixed: set<JobId>) {
    jl.JobRunning? && jl.id !in mixed && jl.ref in heap ==>
      WorkExact(TallyIn(tally, jl.id), heap[jl.ref], archive, jl)
  }

  predicate JobOn(jl: JobLoop, id: JobId) {
    jl.JobRunning? && jl.id == id
  }

  predicate Tallying(at: HeldAt) {
    at.Succeeded? || at.Counted?
  }

  ghost predicate HeldExact(tl: TweetLoop, jl: JobLoop, heap: Heap, archive: Archive, tally: map<JobId, Tally>,
                            mixed: set<JobId>) {
    tl.TweetHas? && tl.at.Holding? && tl.q.job !in mixed && tl.at.ref in heap ==>
      var t, j := TallyIn(tally, tl.q.job), heap[tl.at.ref];
      && !JobOn(jl, tl.q.job) && TotalSet(archive, tl.q.job, j)
      && (if Tallying(tl.at.at) then OneBehind(t, j, tl.at.at.flag) else Exact(t, j))
  }

  /** The tweet loop has scored a tweet of job `id`, or changed the job, and has not handed the job over. */
  predicate Busy(tl: TweetLoop, id: JobId) {
    && tl.TweetHas? && tl.q.job == id && tl.at.Holding?
    && (Tallying(tl.at.at) || tl.at.at.Tallied? || tl.at.at.Put1? || tl.at.at.Put2?)
  }

  /** What was last handed over for a job no loop is changing. */
  ghost predicate LatestOk(s: State, id: JobId) {
    id in s.mem.latest && id !in s.hist.mixed && !JobOn(s.jl, id) && !Busy(s.tl, id) ==>
      && s.mem.latest[id] in s.mem.heap
      && Exact(TallyIn(s.hist.tally, id), s.mem.heap[s.mem.latest[id]])
      && TotalSet(s.archive, id, s.mem.heap[s.mem.latest[id]])
  }

  ghost predicate Separated(s: State) {
    && JobExact(s.jl, s.mem.heap, s.archive, s.hist.tally, s.hist.mixed)
    && HeldExact(s.tl, s.jl, s.mem.heap, s.archive, s.hist.tally, s.hist.mixed)
    && forall id {:trigger LatestOk(s, id)} :: LatestOk(s, id)
  }

  lemma SeparatedAtStart(s: State)
    requires Init(s)
    ensures Separated(s)
  {
  }

  // ------------------------------------------------------------------ what steps leave alone

  /** Nothing about job `id` changes, but perhaps which loop is at it. */
  ghost predicate Elsewhere(s: State, id: JobId, s': State) {
    && TallyIn(s'.hist.tally, id) == TallyIn(s.hist.tally, id)
    && (id in s'.archive <==> id in s.archive) && (id in s.archive ==> s'.archive[id] == s.archive[id])
    && (id in s'.mem.latest <==> id in s.mem.latest)
    && (id in s.mem.latest ==> s'.mem.latest[id] == s.mem.latest[id])
    && (id in s.hist.mixed ==> id in s'.hist.mixed)
  }

  ghost predicate SameObject(heap: Heap, r: Ref, heap': Heap) {
    r in heap ==> r in heap' && heap'[r] == heap[r]
  }

  lemma LatestLeft(s: State, id: JobId, s': State)
    requires LatestOk(s, id) && Elsewhere(s, id, s')
    requires id in s.mem.latest ==> SameObject(s.mem.heap, s.mem.latest[id], s'.mem.heap)
    requires JobOn(s.jl, id) ==> JobOn(s'.jl, id)
    requires Busy(s.tl, id) ==> Busy(s'.tl, id)
    ensures LatestOk(s', id)
  {
  }

  lemma WorkLeft(s: State, s': State)
    requires JobExact(s.jl, s.mem.heap, s.archive, s.hist.tally, s.hist.mixed)
    requires s'.jl == s.jl
    requires s.jl.JobRunning? && s.jl.id !in s'.hist.mixed ==>
               && Elsewhere(s, s.jl.id, s') && s.jl.ref in s.mem.heap
               && SameObject(s.mem.heap, s.jl.ref, s'.mem.heap)
    ensures JobExact(s'.jl, s'.mem.heap, s'.archive, s'.hist.tally, s'.hist.mixed)
  {
  }

  lemma HeldLeft(s: State, s': State)
    requires HeldExact(s.tl, s.jl, s.mem.heap, s.archive, s.hist.tally, s.hist.mixed)
    requires s'.tl == s.tl && s'.hist.mixed == s.hist.mixed
    requires s.tl.TweetHas? && s.tl.at.Holding? && s.tl.q.job !in s.hist.mixed ==>
               && Elsewhere(s, s.tl.q.job, s') && s.tl.at.ref in s.mem.heap
               && SameObject(s.mem.heap, s.tl.at.ref, s'.mem.heap)
               && !JobOn(s'.jl, s.tl.q.job)
    ensures HeldExact(s'.tl, s'.jl, s'.mem.heap, s'.archive, s'.hist.tally, s'.hist.mixed)
  {
  }

  // ------------------------------------------------------------------ the job loop

  /** A step of the job loop on its job changes its own object and its job's events only. */
  ghost predicate OwnJob(s: State, s': State) {
    && s.jl.JobRunning? && (s'.jl.JobIdle? || (s'.jl.JobRunning? && s'.jl.id == s.jl.id && s'.jl.ref == s.jl.ref))
    && (forall r :: r != s.jl.ref ==> SameObject(s.mem.heap, r, s'.mem.heap))
    && (forall id :: id != s.jl.id ==> Elsewhere(s, id, s'))
  }

  /** The job loop's own job is in order after the step. */
  ghost predicate WorkGoesOn(s: State, s': State) {
    && s.jl.JobRunning? && JobExact(s'.jl, s'.mem.heap, s'.archive, s'.hist.tally, s'.hist.mixed)
    && (s'.jl.JobIdle? ==> LatestOk(s', s.jl.id))
  }

  lemma OwnJobSeparated(s: State, s': State)
    requires StoreSide(s) && Separated(s) && JobLeaves(s, s') && OwnJob(s, s') && WorkGoesOn(s, s')
    ensures Separated(s')
  {
    HeldLeft(s, s');
    forall id ensures LatestOk(s', id) {
      assert LatestOk(s, id);
      if id != s.jl.id {
        assert id in s.mem.latest ==> s.mem.latest[id] != s.jl.ref;
        LatestLeft(s, id, s');
      }
    }
  }

  /** The job loop changes its object: the general case of a step within a job. */
  lemma WorkStep(s: State, j: Job, t: Tally, s': State)
    requires StoreSide(s) && Separated(s) && JobLeaves(s, s') && s.jl.JobRunning? && s'.jl.JobRunning?
    requires s'.jl.id == s.jl.id && s'.jl.ref == s.jl.ref
    requires s'.mem.heap == s.mem.heap[s.jl.ref := j] && s'.mem.latest == s.mem.latest && s'.archive == s.archive
    requires s'.hist.tally == s.hist.tally[s.jl.id := t]
    requires s.jl.id !in s.hist.mixed ==> WorkExact(t, j, s.archive, s'.jl)
    ensures Separated(s')
  {
    OwnJobSeparated(s, s');
  }

  lemma BeginExact(s: State, s': State)
    requires StoreSide(s) && EventsCounted(s) && Separated(s) && BeginsJob(s) == Some(s')
    ensures Separated(s')
  {
    WorkStep(s, s'.mem.heap[s.jl.ref], s.hist.tally[s.jl.id], s');
  }

  lemma FailExact(s: State, message: string, s': State)
    requires StoreSide(s) && EventsCounted(s) && Separated(s) && FailsParsing(s, message) == Some(s')
    ensures Separated(s')
  {
    WorkStep(s, s'.mem.heap[s.jl.ref], s.hist.tally[s.jl.id], s');
  }

  lemma TotalExact(s: State, s': State)
    requires StoreSide(s) && EventsCounted(s) && Separated(s) && SetsTotal(s) == Some(s')
    ensures Separated(s')
  {
    WorkStep(s, s'.mem.heap[s.jl.ref], s.hist.tally[s.jl.id], s');
  }

  lemma AdvanceExact(s: State, s': State)
    requires StoreSide(s) && EventsCounted(s) && Separated(s) && AdvancesLoop(s) == Some(s')
    ensures Separated(s')
  {
    WorkStep(s, s'.mem.heap[s.jl.ref], s'.hist.tally[s.jl.id], s');
  }

  lemma LeaveExact(s: State, s': State)
    requires StoreSide(s) && EventsCounted(s) && Separated(s) && LeavesLoop(s) == Some(s')
    ensures Separated(s')
  {
    WorkStep(s, s'.mem.heap[s.jl.ref], s.hist.tally[s.jl.id], s');
  }

  lemma StampExact(s: State, s': State)
    requires StoreSide(s) && EventsCounted(s) && Separated(s) && JobUpdate1(s) == Some(s')
    ensures Separated(s')
  {
    WorkStep(s, s'.mem.heap[s.jl.ref], s.hist.tally[s.jl.id], s');
  }

  lemma FlagExact(s: State, ok: bool, s': State)
    requires StoreSide(s) && EventsCounted(s) && Separated(s) && FlagsTweet(s, ok) == Some(s')
    ensures Separated(s')
  {
    WorkStep(s, s.mem.heap[s.jl.ref], s'.hist.tally[s.jl.id], s');
  }

  lemma MarkedExact(s: State, s': State)
    requires StoreSide(s) && EventsCounted(s) && Separated(s) && MarksTweet(s, true) == Some(s')
    ensures Separated(s')
  {
    WorkStep(s, s.mem.heap[s.jl.ref], s.hist.tally[s.jl.id], s');
  }

  lemma PassedOverExact(s: State, s': State)
    requires StoreSide(s) && EventsCounted(s) && Separated(s) && MarksTweet(s, false) == Some(s')
    ensures Separated(s')
  {
    WorkStep(s, s.mem.heap[s.jl.ref], s'.hist.tally[s.jl.id], s');
  }

  lemma MarkExact(s: State, ok: bool, s': State)
    requires StoreSide(s) && EventsCounted(s) && Separated(s) && MarksTweet(s, ok) == Some(s')
    ensures Separated(s')
  {
    if ok {
      MarkedExact(s, s');
    } else {
      PassedOverExact(s, s');
    }
  }

  lemma SaveExact(s: State, ok: bool, s': State)
    requires StoreSide(s) && EventsCounted(s) && Separated(s) && SavesTweet(s, ok) == Some(s')
    ensures Separated(s')
  {
    WorkStep(s, s.mem.heap[s.jl.ref], s.hist.tally[s.jl.id], s');
  }

  lemma FlagMarkExact(s: State, ok: bool, s': State)
    requires StoreSide(s) && EventsCounted(s) && Separated(s) && MarksFlagged(s, ok) == Some(s')
    ensures Separated(s')
  {
    WorkStep(s, s.mem.heap[s.jl.ref], s.hist.tally[s.jl.id], s');
  }

  lemma SendExact(s: State, s': State)
    requires StoreSide(s) && EventsCounted(s) && Separated(s) && SendsTweet(s) == Some(s')
    ensures Separated(s')
  {
    WorkStep(s, s.mem.heap[s.jl.ref], s.hist.tally[s.jl.id], s');
  }

  lemma UnscoredExact(s: State, ok: bool, s': State)
    requires StoreSide(s) && EventsCounted(s) && Separated(s) && SkipsScorer(s, ok) == Some(s')
    ensures Separated(s')
  {
    UnscoredShape(s, ok, s');
    WorkStep(s, s.mem.heap[s.jl.ref], s.hist.tally[s.jl.id], s');
  }

  lemma HandOverExact(s: State, s': State)
    requires StoreSide(s) && Separated(s) && JobUpdate2(s) == Some(s')
    ensures Separated(s')
  {
    HandOverShape(s, s');
    HandedOver(s, s.jl.at.goto, s');
  }

  lemma HandedOver(s: State, goto: JobGoto, s': State)
    requires StoreSide(s) && Separated(s) && s.jl.JobRunning? && s.jl.at == Store2(goto) && JobLeaves(s, s')
    requires s'.mem.heap == s.mem.heap && s'.mem.latest == s.mem.latest[s.jl.id := s.jl.ref]
    requires s'.hist.tally == s.hist.tally && s'.archive == s.archive
    requires s'.jl == if goto.ToEnd? then JobIdle else JobRunning(s.jl.id, s.jl.ref, JobReturnsTo(goto))
    ensures Separated(s')
  {
    OwnJobSeparated(s, s');
  }

  lemma ParseExact(s: State, tweets: seq<Tweet>, s': State)
    requires StoreSide(s) && Separated(s) && ParsesArchive(s, tweets) == Some(s')
    ensures Separated(s')
  {
    OwnJobSeparated(s, s');
  }

  lemma TakeExact(s: State, s': State)
    requires Separated(s) && TakesJob(s) == Some(s')
    ensures Separated(s')
  {
    forall id ensures LatestOk(s', id) {
      assert LatestOk(s, id);
    }
  }

  /** A job that is not parsed yet has no events. */
  lemma NoEventsYet(s: State, id: JobId)
    requires Conserved(FlowOf(s)) && TalliesOk(FlowOf(s)) && id in s.hist.tally && id !in s.archive
    ensures var t := TallyIn(s.hist.tally, id);
            t.scored == 0 && t.llmFlags == 0 && t.filterFlags == 0 && t.advanced == 0
  {
    EventsBounded(FlowOf(s), id);
  }

  lemma LoadExact(s: State, r: Ref, ok: bool, s': State)
    requires Linked(s) && Bounded(s) && EventsCounted(s) && Separated(s)
    requires Conserved(FlowOf(s)) && TalliesOk(FlowOf(s)) && LoadsJob(s, r, ok) == Some(s')
    ensures Separated(s')
  {
    if s'.jl.JobRunning? {
      assert s.hist.phase[s.jl.id].Working?;
      NoEventsYet(s, s.jl.id);
      assert CopyInOrder(s.hist, s.mem.jobs[s.jl.id]);
      LoadedExact(s, s.jl.id, r, s.mem.jobs[s.jl.id], s');
    } else {
      forall id ensures LatestOk(s', id) {
        assert LatestOk(s, id);
      }
    }
  }

  lemma LoadedExact(s: State, id: JobId, r: Ref, j: Job, s': State)
    requires StoreSide(s) && Separated(s) && JobLeaves(s, s') && s.jl == JobTaken(id)
    requires s'.jl == JobRunning(id, r, Begin)
    requires id !in s.archive && j.gemini == 0 && j.processed == 0 && j.flagged == 0
    requires s'.mem == Alloc(s.mem, r, j, JobWorker) && r !in s.mem.heap && s'.hist.tally == s.hist.tally
    requires s'.archive == s.archive
    requires var t := TallyIn(s.hist.tally, id);
             t.scored == 0 && t.llmFlags == 0 && t.filterFlags == 0 && t.advanced == 0
    ensures Separated(s')
  {
    forall k ensures LatestOk(s', k) {
      assert LatestOk(s, k);
      LatestLeft(s, k, s');
    }
  }

  lemma JobKeepsSeparated(s: State, st: JobStep, s': State)
    requires Linked(s) && Bounded(s) && EventsCounted(s) && Separated(s)
    requires Conserved(FlowOf(s)) && TalliesOk(FlowOf(s)) && JobNext(s, st) == Some(s')
    ensures Separated(s')
  {
    if st.JobTake? {
      TakeExact(s, s');
    } else if st.JobLoad? {
      LoadExact(s, st.r, st.ok, s');
    } else {
      WorkKeepsSeparated(s, st, s');
    }
  }

  lemma WorkKeepsSeparated(s: State, st: JobStep, s': State)
    requires StoreSide(s) && EventsCounted(s) && Separated(s) && JobNext(s, st) == Some(s') && !st.JobTake?
    requires !st.JobLoad?
    ensures Separated(s')
  {
    if st.JobBegin? {
      BeginExact(s, s');
    } else if st.JobStore? {
      StampExact(s, s');
    } else if st.JobPut? {
      HandOverExact(s, s');
    } else if st.JobParseFails? {
      FailExact(s, st.message, s');
    } else if st.JobParses? {
      ParseExact(s, st.tweets, s');
    } else if st.JobSaveTweet? {
      SaveExact(s, st.ok, s');
    } else if st.JobTotal? {
      TotalExact(s, s');
    } else if st.JobFlag? {
      FlagExact(s, st.ok, s');
    } else if st.JobFlagMark? {
      FlagMarkExact(s, st.ok, s');
    } else if st.JobMark? {
      MarkExact(s, st.ok, s');
    } else if st.JobSend? {
      SendExact(s, s');
    } else if st.JobUnscored? {
      UnscoredExact(s, st.ok, s');
    } else if st.JobAdvance? {
      AdvanceExact(s, s');
    } else {
      LeaveExact(s, s');
    }
  }

  // ------------------------------------------------------------------ the tweet loop

  /** The tweet loop changes at most the object in its hand, and its own job's events. */
  lemma HandStep(s: State, r: Ref, j: Job, t: Tally, s': State)
    requires StoreSide(s) && Separated(s) && TweetLeaves(s, s') && s.tl.TweetHas? && s'.tl.TweetHas?
    requires s'.tl.q == s.tl.q
    requires s'.tl.at.Holding? && s'.tl.at.ref == r && (s.tl.at.Holding? ==> s.tl.at.ref == r)
    requires s'.mem.heap == s.mem.heap[r := j] && (r in s.mem.heap ==> s.tl.at.Holding?)
    requires s'.mem.latest == s.mem.latest
    requires s'.hist.tally == s.hist.tally[s.tl.q.job := t] && s.hist.mixed <= s'.hist.mixed
    requires s.hist.mixed == s'.hist.mixed || !s.tl.at.Holding?
    requires s.tl.q.job !in s'.hist.mixed ==>
               && !JobOn(s.jl, s.tl.q.job) && TotalSet(s.archive, s.tl.q.job, j)
               && (if Tallying(s'.tl.at.at) then OneBehind(t, j, s'.tl.at.at.flag) else Exact(t, j))
               && (Busy(s'.tl, s.tl.q.job)
                   || (!Busy(s.tl, s.tl.q.job) && t == TallyIn(s.hist.tally, s.tl.q.job)
                       && SameObject(s.mem.heap, r, s'.mem.heap)))
    ensures Separated(s')
  {
    WorkLeft(s, s');
    forall id ensures LatestOk(s', id) {
      assert LatestOk(s, id);
      if id != s.tl.q.job {
        assert id in s.mem.latest ==> s.mem.latest[id] != r;
        LatestLeft(s, id, s');
      } else if !Busy(s'.tl, id) && id !in s'.hist.mixed {
        LatestLeft(s, id, s');
      }
    }
  }

  /** The tweet loop has nothing in its hand that it changed and did not hand over. */
  lemma HandFree(s: State, s': State)
    requires Separated(s) && StoreSide(s) && TweetLeaves(s, s') && ObjectsLeft(s, s') && TallyLeft(s, s')
    requires s'.mem.latest == s.mem.latest && s'.hist.mixed == s.hist.mixed
    requires !(s'.tl.TweetHas? && s'.tl.at.Holding?)
    requires s.tl.TweetHas? ==> !Busy(s.tl, s.tl.q.job)
    ensures Separated(s')
  {
    WorkLeft(s, s');
    forall id ensures LatestOk(s', id) {
      assert LatestOk(s, id);
      LatestLeft(s, id, s');
    }
  }

  /** What the database holds of a job with no update unwritten is what was last handed over. */
  lemma SettledRowExact(s: State, id: JobId)
    requires StoreSide(s) && Layered(s.mem) && Separated(s) && id in s.hist.uploads && id in s.mem.jobs
    requires id !in s.hist.mixed && !Unsettled(s, id) && HeldRef(s.tl).None?
    ensures !JobOn(s.jl, id) && Exact(TallyIn(s.hist.tally, id), s.mem.jobs[id])
    ensures TotalSet(s.archive, id, s.mem.jobs[id])
  {
    assert LatestOk(s, id);
    assert LayerOf(s.mem, id, s.mem.latest[id]);
    assert s.mem.latest[id] !in s.mem.dirty;
  }

  /** The tweet loop gets a row of its job, or what it makes of it, in hand. */
  lemma RowInHand(s: State, r: Ref, j: Job, s': State)
    requires StoreSide(s) && EventsCounted(s) && Layered(s.mem) && Separated(s) && TweetLeaves(s, s')
    requires s.tl.TweetHas? && !s.tl.at.Holding? && s.tl.q.job in s.mem.jobs && r !in s.mem.heap
    requires var row := s.mem.jobs[s.tl.q.job];
             && j.gemini == row.gemini && j.flagged == row.flagged
             && j.processed == row.processed && j.total == row.total
    requires s'.mem.heap == s.mem.heap[r := j] && s'.mem.latest == s.mem.latest && s'.hist.tally == s.hist.tally
    requires s'.tl.TweetHas? && s'.tl.q == s.tl.q && HeldRef(s'.tl) == Some(r) && !Tallying(s'.tl.at.at)
    requires s'.hist.mixed == s.hist.mixed + if Unsettled(s, s.tl.q.job) then {s.tl.q.job} else {}
    ensures Separated(s')
  {
    var id := s.tl.q.job;
    if id !in s'.hist.mixed {
      SettledRowExact(s, id);
    }
    assert s.hist.tally[id := s.hist.tally[id]] == s.hist.tally;
    HandStep(s, r, j, s.hist.tally[id], s');
  }

  lemma LoadedRowExact(s: State, r: Ref, s': State)
    requires StoreSide(s) && EventsCounted(s) && Layered(s.mem) && Separated(s) && TweetLeaves(s, s')
    requires s.tl.TweetHas? && s.tl.at.Load? && s.tl.q.job in s.mem.jobs && r !in s.mem.heap
    requires s'.mem == Alloc(s.mem, r, s.mem.jobs[s.tl.q.job], TweetWorker) && s'.hist.tally == s.hist.tally
    requires s'.tl == TweetHas(s.tl.q, Holding(r, Loaded))
    requires s'.hist.mixed == s.hist.mixed + if Unsettled(s, s.tl.q.job) then {s.tl.q.job} else {}
    ensures Separated(s')
  {
    RowInHand(s, r, s.mem.jobs[s.tl.q.job], s');
  }

  lemma TweetLoadExact(s: State, r: Ref, ok: bool, s': State)
    requires StoreSide(s) && EventsCounted(s) && Layered(s.mem) && Separated(s) && LoadsForTweet(s, r, ok) == Some(s')
    ensures Separated(s')
  {
    LoadShape(s, r, ok, s');
    if s'.tl.at.Holding? {
      LoadedRowExact(s, r, s');
    } else {
      HandFree(s, s');
    }
  }

  lemma PausedExact(s: State, r: Ref, s': State)
    requires StoreSide(s) && EventsCounted(s) && Layered(s.mem) && Separated(s) && TweetLeaves(s, s')
    requires s.tl.TweetHas? && s.tl.at.OverQuota? && s.tl.q.job in s.mem.jobs && r !in s.mem.heap
    requires s'.mem.heap == s.mem.heap[r := s.mem.jobs[s.tl.q.job].(status := PausedQuota)]
    requires s'.mem.latest == s.mem.latest && s'.hist.tally == s.hist.tally
    requires s'.tl == TweetHas(s.tl.q, Holding(r, Put1(ToDrop)))
    requires s'.hist.mixed == s.hist.mixed + if Unsettled(s, s.tl.q.job) then {s.tl.q.job} else {}
    ensures Separated(s')
  {
    RowInHand(s, r, s.mem.jobs[s.tl.q.job].(status := PausedQuota), s');
  }

  lemma PauseExact(s: State, r: Ref, ok: bool, s': State)
    requires StoreSide(s) && EventsCounted(s) && Layered(s.mem) && Separated(s) && PausesJob(s, r, ok) == Some(s')
    ensures Separated(s')
  {
    if s'.tl.at.Holding? {
      PauseShape(s, r, ok, s');
      PausedExact(s, r, s');
    } else {
      HandFree(s, s');
    }
  }

  /** The tweet loop keeps its object in hand. */
  lemma HandStays(s: State, j: Job, t: Tally, s': State)
    requires StoreSide(s) && Separated(s) && TweetLeaves(s, s') && s.tl.TweetHas? && s'.tl.TweetHas?
    requires s'.tl.q == s.tl.q
    requires s.tl.at.Holding? && s'.tl.at.Holding? && s'.tl.at.ref == s.tl.at.ref
    requires s'.mem.heap == s.mem.heap[s.tl.at.ref := j] && s'.mem.latest == s.mem.latest
    requires s'.hist.tally == s.hist.tally[s.tl.q.job := t] && s'.hist.mixed == s.hist.mixed
    requires s.tl.q.job !in s.hist.mixed ==>
               && TotalSet(s.archive, s.tl.q.job, j)
               && (if Tallying(s'.tl.at.at) then OneBehind(t, j, s'.tl.at.at.flag) else Exact(t, j))
               && (Busy(s'.tl, s.tl.q.job)
                   || (!Busy(s.tl, s.tl.q.job) && t == TallyIn(s.hist.tally, s.tl.q.job)
                       && SameObject(s.mem.heap, s.tl.at.ref, s'.mem.heap)))
    ensures Separated(s')
  {
    HandStep(s, s.tl.at.ref, j, t, s');
  }

  lemma CriteriaExact(s: State, s': State)
    requires StoreSide(s) && EventsCounted(s) && Separated(s) && SetsCriteria(s) == Some(s')
    ensures Separated(s')
  {
    HandStays(s, s.mem.heap[s.tl.at.ref], s.hist.tally[s.tl.q.job], s');
  }

  lemma CallExact(s: State, s': State)
    requires StoreSide(s) && EventsCounted(s) && Separated(s) && CallsScore(s) == Some(s')
    ensures Separated(s')
  {
    HandStays(s, s.mem.heap[s.tl.at.ref], s.hist.tally[s.tl.q.job], s');
  }

  lemma SuccessExact(s: State, flag: bool, s': State)
    requires StoreSide(s) && EventsCounted(s) && Separated(s) && ScoreReturns(s, Success(flag)) == Some(s')
    ensures Separated(s')
  {
    SuccessShape(s, flag, s');
    HandStays(s, s.mem.heap[s.tl.at.ref], s'.hist.tally[s.tl.q.job], s');
  }

  lemma SpentExact(s: State, s': State)
    requires StoreSide(s) && EventsCounted(s) && Separated(s) && ScoreReturns(s, QuotaSpent) == Some(s')
    ensures Separated(s')
  {
    SpentShape(s, s');
    HandStays(s, s'.mem.heap[s.tl.at.ref], s.hist.tally[s.tl.q.job], s');
  }

  lemma FailureExact(s: State, s': State)
    requires StoreSide(s) && EventsCounted(s) && Separated(s) && ScoreReturns(s, Failure) == Some(s')
    ensures Separated(s')
  {
    HandFree(s, s');
  }

  lemma ReturnExact(s: State, outcome: ScoreOutcome, s': State)
    requires StoreSide(s) && EventsCounted(s) && Separated(s) && ScoreReturns(s, outcome) == Some(s')
    ensures Separated(s')
  {
    match outcome {
      case Success(flag) => SuccessExact(s, flag, s');
      case QuotaSpent => SpentExact(s, s');
      case Failure => FailureExact(s, s');
    }
  }

  lemma CountExact(s: State, ok: bool, s': State)
    requires StoreSide(s) && EventsCounted(s) && Separated(s) && CountsQuota(s, ok) == Some(s')
    ensures Separated(s')
  {
    HandStays(s, s.mem.heap[s.tl.at.ref], s.hist.tally[s.tl.q.job], s');
  }

  lemma TallyExact(s: State, s': State)
    requires StoreSide(s) && EventsCounted(s) && Separated(s) && TalliesScore(s) == Some(s')
    ensures Separated(s')
  {
    TallyShape(s, s');
    HandStays(s, s'.mem.heap[s.tl.at.ref], s.hist.tally[s.tl.q.job], s');
  }

  lemma SaveFlagExact(s: State, ok: bool, s': State)
    requires StoreSide(s) && EventsCounted(s) && Separated(s) && SavesFlag(s, ok) == Some(s')
    ensures Separated(s')
  {
    HandStays(s, s.mem.heap[s.tl.at.ref], s.hist.tally[s.tl.q.job], s');
  }

  lemma TweetStampExact(s: State, s': State)
    requires StoreSide(s) && EventsCounted(s) && Separated(s) && TweetUpdate1(s) == Some(s')
    ensures Separated(s')
  {
    HandStays(s, s'.mem.heap[s.tl.at.ref], s.hist.tally[s.tl.q.job], s');
  }

  lemma ResumeExact(s: State, s': State)
    requires StoreSide(s) && EventsCounted(s) && Separated(s) && ResumesJob(s) == Some(s')
    ensures Separated(s')
  {
    HandStays(s, s'.mem.heap[s.tl.at.ref], s.hist.tally[s.tl.q.job], s');
  }

  lemma NotDoneExact(s: State, s': State)
    requires StoreSide(s) && EventsCounted(s) && Separated(s) && s.tl.TweetHas? && s.tl.at.Holding?
    requires s.tl.at.at.CheckDone? && s' == s.(tl := TweetHas(s.tl.q, Mark(true)))
    ensures Separated(s')
  {
    HandFree(s, s');
  }

  lemma DoneExact(s: State, s': State)
    requires StoreSide(s) && EventsCounted(s) && Separated(s) && ChecksDone(s) == Some(s')
    ensures Separated(s')
  {
    DoneShape(s, s');
    var job := Obj(s.mem, s.tl.at.ref);
    if job.processed >= job.total {
      HandStays(s, job.(status := Done), s.hist.tally[s.tl.q.job], s');
    } else {
      NotDoneExact(s, s');
    }
  }

  lemma TweetHandOverExact(s: State, s': State)
    requires StoreSide(s) && Separated(s) && TweetUpdate2(s) == Some(s')
    ensures Separated(s')
  {
    WorkLeft(s, s');
    forall id ensures LatestOk(s', id) {
      assert LatestOk(s, id);
      if id != s.tl.q.job {
        LatestLeft(s, id, s');
      }
    }
  }

  /** The tweet loop has no object in hand, before or after. */
  lemma EmptyHanded(s: State, st: TweetStep, s': State)
    requires TweetNext(s, st) == Some(s')
    requires st.TweetTake? || st.TweetCheck? || st.TweetMark? || st.TweetRequeue? || st.TweetDrop?
    ensures !(s'.tl.TweetHas? && s'.tl.at.Holding?) && (s.tl.TweetHas? ==> !s.tl.at.Holding?)
    ensures s'.hist.mixed == s.hist.mixed && s'.mem == s.mem
  {
    match st {
      case TweetTake => TakeShape(s, s');
      case TweetCheck(ok) => CheckShape(s, ok, s');
      case TweetMark(ok) => MarkShape(s, ok, s');
      case TweetRequeue => RequeueShape(s, s');
      case TweetDrop => DropShape(s, s');
    }
  }

  lemma EmptyExact(s: State, s': State)
    requires StoreSide(s) && Separated(s) && TweetLeaves(s, s') && TallyLeft(s, s') && s'.mem == s.mem
    requires !(s'.tl.TweetHas? && s'.tl.at.Holding?) && (s.tl.TweetHas? ==> !s.tl.at.Holding?)
    requires s'.hist.mixed == s.hist.mixed
    ensures Separated(s')
  {
    HandFree(s, s');
  }

  lemma TweetKeepsSeparated(s: State, st: TweetStep, s': State)
    requires StoreSide(s) && EventsCounted(s) && Layered(s.mem) && Separated(s) && TweetNext(s, st) == Some(s')
    ensures Separated(s')
  {
    if st.TweetLoad? {
      TweetLoadExact(s, st.r, st.ok, s');
    } else if st.TweetPause? {
      PauseExact(s, st.r, st.ok, s');
    } else if st.TweetCriteria? {
      CriteriaExact(s, s');
    } else if st.TweetCall? {
      CallExact(s, s');
    } else if st.TweetReturn? {
      ReturnExact(s, st.outcome, s');
    } else if st.TweetCount? {
      CountExact(s, st.ok, s');
    } else if st.TweetTally? {
      TallyExact(s, s');
    } else if st.TweetFlag? {
      SaveFlagExact(s, st.ok, s');
    } else if st.TweetStore? {
      TweetStampExact(s, s');
    } else if st.TweetPut? {
      TweetHandOverExact(s, s');
    } else if st.TweetDone? {
      DoneExact(s, s');
    } else if st.TweetResume? {
      ResumeExact(s, s');
    } else {
      EmptyHanded(s, st, s');
      EmptyExact(s, s');
    }
  }

  // ------------------------------------------------------------------ callers and flusher

  lemma UploadExact(s: State, id: JobId, r: Ref, fileId: FileId, criteria: Option<Criteria>, ok: bool, s': State)
    requires Linked(s) && Separated(s) && SavesNewJob(s, id, r, fileId, criteria, ok) == Some(s')
    ensures Separated(s')
  {
    NewJobShape(s, id, r, fileId, criteria, ok, s');
    NewJobExact(s, s'.mem.heap[r], r, s');
  }

  lemma NewJobExact(s: State, job: Job, r: Ref, s': State)
    requires StoreSide(s) && Separated(s)
    requires job.id !in s.hist.uploads && r !in s.mem.heap && Exact(NO_EVENTS, job)
    requires s'.mem.heap == s.mem.heap[r := job] && s'.mem.latest == s.mem.latest[job.id := r]
    requires s'.hist.tally == s.hist.tally[job.id := NO_EVENTS] && s'.hist.mixed == s.hist.mixed
    requires s'.archive == s.archive && s'.jl == s.jl && s'.tl == s.tl
    ensures Separated(s')
  {
    WorkLeft(s, s');
    HeldLeft(s, s');
    forall k ensures LatestOk(s', k) {
      assert LatestOk(s, k);
      if k != job.id {
        LatestLeft(s, k, s');
      }
    }
  }

  lemma ObjectsKept(s: State, s': State)
    requires StoreSide(s) && Separated(s) && OtherLeaves(s, s') && TallyLeft(s, s') && s'.mem.latest == s.mem.latest
    requires forall r :: SameObject(s.mem.heap, r, s'.mem.heap)
    ensures Separated(s')
  {
    WorkLeft(s, s');
    HeldLeft(s, s');
    forall id ensures LatestOk(s', id) {
      assert LatestOk(s, id);
      LatestLeft(s, id, s');
    }
  }

  lemma ReadExact(s: State, st: OtherStep, s': State)
    requires StoreSide(s) && Separated(s) && OtherNext(s, st) == Some(s') && st.GetRead?
    ensures Separated(s')
  {
    ObjectsKept(s, s');
  }

  lemma OtherKeepsSeparated(s: State, st: OtherStep, s': State)
    requires Linked(s) && Separated(s) && OtherNext(s, st) == Some(s')
    ensures Separated(s')
  {
    if st.EnqueueSave? {
      UploadExact(s, st.id, st.r, st.fileId, st.criteria, st.ok, s');
    } else if st.GetRead? {
      ReadExact(s, st, s');
    } else {
      assert s'.mem.heap == s.mem.heap && s'.mem.latest == s.mem.latest;
      ObjectsKept(s, s');
    }
  }
}
