/** A job that failed stays failed. */
module PipelineFailures {
  import opened Model
  import opened Pipeline
  import opened PipelineShapes
  import opened PipelineLinks
  import opened PipelineCopies

  predicate StaysFailed(j: Job) {
    j.status.Failed? && j.error != ""
  }

  /** The object last handed over for a job, or the one its loop is about to hand over. */
  function HandOverOf(s: State, id: JobId): Ref
    requires id in s.mem.latest
  {
    if s.jl.JobRunning? && s.jl.id == id then s.jl.ref else s.mem.latest[id]
  }

  ghost predicate FailedJob(s: State, id: JobId) {
    id in s.hist.failed && id in s.mem.latest ==>
      HandOverOf(s, id) in s.mem.heap && StaysFailed(s.mem.heap[HandOverOf(s, id)])
  }

  ghost predicate FailedStay(s: State) {
    forall id {:trigger FailedJob(s, id)} :: FailedJob(s, id)
  }

  lemma FailedAtStart(s: State)
    requires Init(s)
    ensures FailedStay(s)
  {
  }

  lemma SameObjectFails(s: State, id: JobId, s': State)
    requires FailedJob(s, id) && (id in s'.hist.failed ==> id in s.hist.failed)
    requires id in s'.hist.failed && id in s'.mem.latest ==>
               && id in s.mem.latest && HandOverOf(s', id) == HandOverOf(s, id)
               && (HandOverOf(s, id) in s.mem.heap ==>
                     && HandOverOf(s, id) in s'.mem.heap
                     && s'.mem.heap[HandOverOf(s, id)] == s.mem.heap[HandOverOf(s, id)])
    ensures FailedJob(s', id)
  {
  }

  /** A step of the tweet loop for job `own`, which has not failed, with its object in hand or none. */
  lemma OthersStayFailed(s: State, own: JobId, r: Option<Ref>, s': State)
    requires StoreLinked(s.mem, s.hist.uploads.Keys) && JobLoopLinked(s.jl, s.mem.heap, s.archive, s.hist.uploads.Keys)
    requires FailedStay(s) && s'.hist.failed == s.hist.failed && own !in s.hist.failed && s'.jl == s.jl
    requires r.Some? && r.value in s.mem.heap ==> s.mem.heap[r.value].id == own
    requires forall x :: x in s.mem.heap && r != Some(x) ==> x in s'.mem.heap && s'.mem.heap[x] == s.mem.heap[x]
    requires forall k :: k in s'.mem.latest && k != own ==> k in s.mem.latest && s'.mem.latest[k] == s.mem.latest[k]
    ensures FailedStay(s')
  {
    forall id ensures FailedJob(s', id) {
      assert FailedJob(s, id);
      SameObjectFails(s, id, s');
    }
  }

  lemma WorkNotFailed(s: State)
    requires Linked(s) && Failures(s)
    ensures s.jl.JobRunning? && !AtEnd(s.jl.at) ==> s.jl.id !in s.hist.failed
    ensures s.jl.JobTaken? ==> s.jl.id !in s.hist.failed
    ensures s.tl.TweetHas? ==> s.tl.q.job !in s.hist.failed
  {
    assert !s.jl.JobIdle? ==> s.hist.phase[s.jl.id].Working?;
  }

  lemma StampStaysFailed(s: State, s': State)
    requires StoreSide(s) && FailedStay(s) && JobUpdate1(s) == Some(s')
    ensures FailedStay(s')
  {
    forall id ensures FailedJob(s', id) {
      assert FailedJob(s, id);
      if id != s.jl.id {
        SameObjectFails(s, id, s');
      }
    }
  }

  lemma HandOverStaysFailed(s: State, s': State)
    requires StoreSide(s) && FailedStay(s) && JobUpdate2(s) == Some(s')
    ensures FailedStay(s')
  {
    HandOverShape(s, s');
    HandedOverFails(s, s');
  }

  lemma HandedOverFails(s: State, s': State)
    requires StoreSide(s) && FailedStay(s) && s.jl.JobRunning? && s'.mem == Put(s.mem, s.jl.ref, JobWorker)
    requires s'.hist.failed == s.hist.failed
    requires s'.jl.JobIdle? || (s'.jl.JobRunning? && s'.jl.id == s.jl.id && s'.jl.ref == s.jl.ref)
    ensures FailedStay(s')
  {
    forall id ensures FailedJob(s', id) {
      assert FailedJob(s, id);
      if id != s.jl.id {
        SameObjectFails(s, id, s');
      }
    }
  }

  lemma FailureStays(s: State, message: string, s': State)
    requires StoreSide(s) && FailedStay(s) && FailsParsing(s, message) == Some(s')
    ensures FailedStay(s')
  {
    forall id ensures FailedJob(s', id) {
      assert FailedJob(s, id);
      if id != s.jl.id {
        SameObjectFails(s, id, s');
      }
    }
  }

  /** Steps of the loops that neither begin nor end an update change objects of the loops' own only. */
  lemma HolderSteps(s: State, s': State)
    requires StoreSide(s) && FailedStay(s) && StoreKept(s, s') && StoreSide(s')
    requires s'.hist.failed == s.hist.failed
    requires s.jl.JobRunning? ==> s.jl.id !in s.hist.failed
    requires s'.jl.JobRunning? ==> s'.jl.id !in s.hist.failed
    requires s'.tl.TweetHas? ==> s'.tl.q.job !in s.hist.failed
    ensures FailedStay(s')
  {
    forall id ensures FailedJob(s', id) {
      assert FailedJob(s, id);
      if id in s.hist.failed && id in s.mem.latest {
        SameObjectFails(s, id, s');
      }
    }
  }

  lemma JobKeepsFailed(s: State, st: JobStep, s': State)
    requires Kept(s) && FailedStay(s) && JobNext(s, st) == Some(s') && Kept(s')
    ensures FailedStay(s')
  {
    if st.JobStore? {
      StampStaysFailed(s, s');
    } else if st.JobPut? {
      HandOverStaysFailed(s, s');
    } else if st.JobParseFails? {
      FailureStays(s, st.message, s');
    } else {
      WorkNotFailed(s);
      JobNotFailedNext(s, st, s');
      WorkNotFailed(s');
      HolderSteps(s, s');
    }
  }

  lemma JobNotFailedNext(s: State, st: JobStep, s': State)
    requires JobNext(s, st) == Some(s') && !st.JobStore? && !st.JobPut?
    ensures s'.jl.JobRunning? ==> (s.jl.JobRunning? || s.jl.JobTaken?) && s'.jl.id == s.jl.id
  {
    if !JobQueues(st) {
      assert QueuesLeft(s, s');
    } else if st.JobTake? {
    } else if st.JobLoad? {
    } else if st.JobParses? {
    } else {
    }
  }

  lemma TweetHandOverFails(s: State, s': State)
    requires Kept(s) && FailedStay(s) && TweetUpdate2(s) == Some(s')
    ensures FailedStay(s')
  {
    WorkNotFailed(s);
    OthersStayFailed(s, s.tl.q.job, HeldRef(s.tl), s');
  }

  lemma LatestKept(s: State, st: TweetStep, s': State)
    requires TweetNext(s, st) == Some(s') && !st.TweetPut?
    ensures s'.mem.latest == s.mem.latest && s'.jl == s.jl && s'.hist.failed == s.hist.failed && HandOnly(s, s')
  {
  }

  lemma TweetKeepsFailed(s: State, st: TweetStep, s': State)
    requires Kept(s) && FailedStay(s) && TweetNext(s, st) == Some(s')
    ensures FailedStay(s')
  {
    if st.TweetPut? {
      TweetHandOverFails(s, s');
    } else {
      LatestKept(s, st, s');
      HandKeepsFailed(s, s');
    }
  }

  /** What the tweet loop changes is no failed job's record. */
  lemma HandKeepsFailed(s: State, s': State)
    requires Kept(s) && FailedStay(s) && s'.mem.latest == s.mem.latest && s'.hist.failed == s.hist.failed
    requires s'.jl == s.jl && HandOnly(s, s')
    ensures FailedStay(s')
  {
    WorkNotFailed(s);
    forall id ensures FailedJob(s', id) {
      assert FailedJob(s, id);
      SameObjectFails(s, id, s');
    }
  }

  lemma NewJobNotFailed(s: State, st: OtherStep, s': State)
    requires Linked(s) && Failures(s) && FailedStay(s) && OtherNext(s, st) == Some(s') && st.EnqueueSave?
    ensures FailedStay(s')
  {
    NewJobShape(s, st.id, st.r, st.fileId, st.criteria, st.ok, s');
    forall id ensures FailedJob(s', id) {
      assert FailedJob(s, id);
      assert id == st.id ==> id !in s.hist.failed;
    }
  }

  lemma OtherKeepsFailed(s: State, st: OtherStep, s': State)
    requires Kept(s) && FailedStay(s) && OtherNext(s, st) == Some(s')
    ensures FailedStay(s')
  {
    if st.EnqueueSave? {
      NewJobNotFailed(s, st, s');
    } else {
      OtherObjectsKept(s, st, s');
      forall id ensures FailedJob(s', id) {
        assert FailedJob(s, id);
        SameObjectFails(s, id, s');
      }
    }
  }

  lemma OtherObjectsKept(s: State, st: OtherStep, s': State)
    requires OtherNext(s, st) == Some(s') && !st.EnqueueSave?
    ensures s'.mem.latest == s.mem.latest && s'.jl == s.jl && s'.hist.failed == s.hist.failed
    ensures forall r :: r in s.mem.heap ==> r in s'.mem.heap && s'.mem.heap[r] == s.mem.heap[r]
  {
  }

  lemma StepKeepsFailed(s: State, st: Step, s': State)
    requires Kept(s) && FailedStay(s) && Next(s, st) == Some(s') && Kept(s')
    ensures FailedStay(s')
  {
    match st {
      case J(js) => JobKeepsFailed(s, js, s');
      case T(ts) => TweetKeepsFailed(s, ts, s');
      case O(os) => OtherKeepsFailed(s, os, s');
    }
  }

  // ------------------------------------------------------------------ what is pending of a job without tweets

  /** The job loop has not loaded the job yet. */
  predicate NotLoaded(s: State, id: JobId) {
    s.jl == JobTaken(id) || (id in s.hist.phase && (s.hist.phase[id].Entering? || s.hist.phase[id].Waiting?))
  }

  /** Only the job loop hands over a job without an archive: what is pending and what is in the batch is its
      object. */
  ghost predicate LoopAlone(s: State, id: JobId) {
    id in s.mem.latest && id !in s.archive ==>
      && (id in s.mem.pending ==> s.mem.pending[id] == HandOverOf(s, id))
      && (id in s.mem.batch ==> s.mem.batch[id] == HandOverOf(s, id))
      && (NotLoaded(s, id) ==> id !in s.mem.pending && id !in s.mem.batch)
  }

  ghost predicate LoopsAlone(s: State) {
    forall id {:trigger LoopAlone(s, id)} :: LoopAlone(s, id)
  }

  lemma AloneAtStart(s: State)
    requires Init(s)
    ensures LoopsAlone(s)
  {
  }

  lemma AloneLeft(s: State, id: JobId, s': State)
    requires LoopAlone(s, id) && (id in s.archive ==> id in s'.archive) && (NotLoaded(s', id) ==> NotLoaded(s, id))
    requires id in s'.mem.latest ==> id in s.mem.latest && HandOverOf(s', id) == HandOverOf(s, id)
    requires id in s'.mem.pending ==> id in s.mem.pending && s'.mem.pending[id] == s.mem.pending[id]
    requires id in s'.mem.batch ==> id in s.mem.batch && s'.mem.batch[id] == s.mem.batch[id]
    ensures LoopAlone(s', id)
  {
  }

  /** The loop goes on with its job, or with none. */
  lemma AloneOn(s: State, s': State)
    requires LoopsAlone(s) && s'.mem.latest == s.mem.latest && s'.mem.pending == s.mem.pending
    requires s'.mem.batch == s.mem.batch && s.archive.Keys <= s'.archive.Keys && s'.hist.phase == s.hist.phase
    requires s'.jl == s.jl
             || (s.jl.JobRunning? && s'.jl.JobRunning? && s'.jl.id == s.jl.id && s'.jl.ref == s.jl.ref)
    ensures LoopsAlone(s')
  {
    forall id ensures LoopAlone(s', id) {
      assert LoopAlone(s, id);
      AloneLeft(s, id, s');
    }
  }

  lemma TakeAlone(s: State, s': State)
    requires QueueSide(s) && LoopsAlone(s) && TakesJob(s) == Some(s')
    ensures LoopsAlone(s')
  {
    assert s.hist.phase[s.jobQ[0]].Waiting?;
    forall id ensures LoopAlone(s', id) {
      assert LoopAlone(s, id);
      AloneLeft(s, id, s');
    }
  }

  lemma LoadAlone(s: State, r: Ref, ok: bool, s': State)
    requires LoopsAlone(s) && LoadsJob(s, r, ok) == Some(s')
    ensures LoopsAlone(s')
  {
    forall id ensures LoopAlone(s', id) {
      assert LoopAlone(s, id);
    }
  }

  lemma PutAlone(s: State, s': State)
    requires StoreSide(s) && LoopsAlone(s) && s.jl.JobRunning? && s'.mem == Put(s.mem, s.jl.ref, JobWorker)
    requires s'.archive == s.archive
    requires s'.jl.JobIdle? || (s'.jl.JobRunning? && s'.jl.id == s.jl.id && s'.jl.ref == s.jl.ref)
    requires s'.hist.phase == s.hist.phase || s'.hist.phase == s.hist.phase[s.jl.id := Ended]
    requires !NotLoaded(s, s.jl.id)
    ensures LoopsAlone(s')
  {
    forall id ensures LoopAlone(s', id) {
      assert LoopAlone(s, id);
      if id != s.jl.id {
        AloneLeft(s, id, s');
      }
    }
  }

  lemma JobPutAlone(s: State, s': State)
    requires StoreSide(s) && QueueSide(s) && LoopsAlone(s) && JobUpdate2(s) == Some(s')
    ensures LoopsAlone(s')
  {
    HandOverShape(s, s');
    assert s.hist.phase[s.jl.id].Working?;
    PutAlone(s, s');
  }

  lemma JobKeepsAlone(s: State, st: JobStep, s': State)
    requires Linked(s) && LoopsAlone(s) && JobNext(s, st) == Some(s')
    ensures LoopsAlone(s')
  {
    if st.JobTake? {
      TakeAlone(s, s');
    } else if st.JobLoad? {
      LoadAlone(s, st.r, st.ok, s');
    } else if st.JobPut? {
      JobPutAlone(s, s');
    } else {
      JobStaysAlone(s, st, s');
      AloneOn(s, s');
    }
  }

  lemma JobStaysAlone(s: State, st: JobStep, s': State)
    requires JobNext(s, st) == Some(s') && !st.JobTake? && !st.JobLoad? && !st.JobPut?
    ensures s'.mem.latest == s.mem.latest && s'.mem.pending == s.mem.pending && s'.mem.batch == s.mem.batch
    ensures s.archive.Keys <= s'.archive.Keys && s'.hist.phase == s.hist.phase
    ensures s'.jl == s.jl || (s.jl.JobRunning? && s'.jl.JobRunning? && s'.jl.id == s.jl.id && s'.jl.ref == s.jl.ref)
  {
    if st.JobParses? || st.JobSend? {
      assert s'.mem == s.mem;
    } else if st.JobStore? {
      assert QueuesLeft(s, s');
    } else {
      assert QueuesLeft(s, s') && StoreKept(s, s');
    }
  }

  lemma TweetPutAlone(s: State, s': State)
    requires StoreSide(s) && LoopsAlone(s) && TweetUpdate2(s) == Some(s')
    ensures LoopsAlone(s')
  {
    forall id ensures LoopAlone(s', id) {
      assert LoopAlone(s, id);
      if id != s.tl.q.job {
        AloneLeft(s, id, s');
      }
    }
  }

  lemma TweetStoreAlone(s: State, s': State)
    requires LoopsAlone(s) && TweetUpdate1(s) == Some(s')
    ensures LoopsAlone(s')
  {
    AloneOn(s, s');
  }

  lemma TweetKeepsAlone(s: State, st: TweetStep, s': State)
    requires StoreSide(s) && LoopsAlone(s) && TweetNext(s, st) == Some(s')
    ensures LoopsAlone(s')
  {
    if st.TweetPut? {
      TweetPutAlone(s, s');
    } else if st.TweetStore? {
      TweetStoreAlone(s, s');
    } else {
      assert TweetLeaves(s, s') && StoreKept(s, s');
      AloneOn(s, s');
    }
  }

  lemma NewJobAlone(s: State, st: OtherStep, s': State)
    requires Linked(s) && LoopsAlone(s) && OtherNext(s, st) == Some(s') && st.EnqueueSave?
    ensures LoopsAlone(s')
  {
    NewJobShape(s, st.id, st.r, st.fileId, st.criteria, st.ok, s');
    forall id ensures LoopAlone(s', id) {
      assert LoopAlone(s, id);
    }
  }

  lemma SentAlone(s: State, id: JobId, s': State)
    requires QueueSide(s) && LoopsAlone(s) && SendsNewJob(s, id) == Some(s')
    ensures LoopsAlone(s')
  {
    forall k ensures LoopAlone(s', k) {
      assert LoopAlone(s, k);
      AloneLeft(s, k, s');
    }
  }

  lemma FlushAlone(s: State, st: OtherStep, s': State)
    requires LoopsAlone(s) && OtherNext(s, st) == Some(s') && (st.FlushTake? || st.FlushWrite?)
    ensures LoopsAlone(s')
  {
    forall id ensures LoopAlone(s', id) {
      assert LoopAlone(s, id);
    }
  }

  lemma OtherKeepsAlone(s: State, st: OtherStep, s': State)
    requires Linked(s) && LoopsAlone(s) && OtherNext(s, st) == Some(s')
    ensures LoopsAlone(s')
  {
    match st {
      case EnqueueSave(_, _, _, _, _) => NewJobAlone(s, st, s');
      case EnqueueSend(id) => SentAlone(s, id, s');
      case FlushTake => FlushAlone(s, st, s');
      case FlushWrite(_, _) => FlushAlone(s, st, s');
      case _ => QuietAlone(s, st, s');
    }
  }

  lemma QuietAlone(s: State, st: OtherStep, s': State)
    requires LoopsAlone(s) && OtherNext(s, st) == Some(s')
    requires st.EnqueueStore? || st.GetMiss? || st.GetRead? || st.GetStore? || st.Tick?
    ensures LoopsAlone(s')
  {
    AloneOn(s, s');
  }

  lemma StepKeepsAlone(s: State, st: Step, s': State)
    requires Linked(s) && LoopsAlone(s) && Next(s, st) == Some(s')
    ensures LoopsAlone(s')
  {
    match st {
      case J(js) => JobKeepsAlone(s, js, s');
      case T(ts) => TweetKeepsAlone(s, ts, s');
      case O(os) => OtherKeepsAlone(s, os, s');
    }
  }
}
