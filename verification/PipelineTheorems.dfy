/** What the pipeline's users may rely on in every run about copies of jobs, the cache and the database. */
module PipelineTheorems {
  import opened Model
  import opened Pipeline
  import opened PipelineShapes
  import opened PipelineLinks
  import opened PipelineCopies
  import opened PipelineStore
  import opened CacheLogs
  import opened PipelineCache
  import opened PipelineTotals
  import opened PipelineFlow
  import opened FlowPlaces
  import opened FlowTally
  import opened PipelineRuns

  // ------------------------------------------------------------------ copies

  /** `j` is a row of the database or an object in memory. */
  ghost predicate IsCopy(s: State, j: Job) {
    (j.id in s.mem.jobs && s.mem.jobs[j.id] == j) || (exists r :: r in s.mem.heap && s.mem.heap[r] == j)
  }

  lemma CopyBounded(s: State, j: Job)
    requires Bounded(s) && Totals(s) && EventsCounted(s) && Conserved(FlowOf(s)) && TalliesOk(FlowOf(s))
    requires IsCopy(s, j) && j.id in s.hist.uploads
    ensures CopyInOrder(s.hist, j) && ReportFits(s.archive, j)
    ensures var t, n := TallyIn(s.hist.tally, j.id), |Tweets(s, j.id)|;
            t.scored <= n && t.filterFlags + t.llmFlags <= n && t.advanced + t.skipped <= n
  {
    EventsBounded(FlowOf(s), j.id);
  }

  /** However stale, lost or overwritten, no copy of a job reports more than has happened: at most one scoring
      and one flag for each tweet of the archive, and at most two advances; its total is the archive's length or
      still 0; and it is not done before a tweet was scored. */
  lemma NoCopyOverReports(s: State, j: Job)
    requires Reachable(s)
    requires IsCopy(s, j) && j.id in s.hist.uploads
    ensures var t, n := TallyIn(s.hist.tally, j.id), |Tweets(s, j.id)|;
            && 0 <= j.gemini <= t.scored <= n
            && 0 <= j.flagged <= t.filterFlags + t.llmFlags <= n
            && 0 <= j.processed <= t.advanced + t.scored <= 2 * n
            && (j.total == 0 || j.total == n)
            && (j.status.Done? ==> t.scored >= 1)
    ensures j.fileId == s.hist.uploads[j.id].fileId && j.criteria == s.hist.uploads[j.id].criteria
    ensures (j.status.Failed? <==> j.error != "") && (j.status.Failed? ==> j.id in s.hist.failed)
  {
    Reached(s);
    CopyBounded(s, j);
  }

  /** All that the program reaches jobs by leads to copies of those jobs. */
  lemma ReferencesAreCopies(s: State, id: JobId, r: Ref)
    requires Reachable(s)
    requires || (s.jl.JobRunning? && s.jl.id == id && s.jl.ref == r)
             || (s.tl.TweetHas? && s.tl.q.job == id && HeldRef(s.tl) == Some(r))
             || (id in s.mem.cache && s.mem.cache[id] == r)
             || (id in s.mem.pending && s.mem.pending[id] == r)
             || (id in s.mem.batch && s.mem.batch[id] == r)
    ensures Obj(s.mem, r).id == id && IsCopy(s, Obj(s.mem, r))
  {
    Reached(s);
    assert r in s.mem.heap;
  }

  // ------------------------------------------------------------------ write-behind

  /** In every reachable state, what was last handed over for an uploaded job is the pending update if there is
      one, or else the entry of the batch being written, or else in the database as far as rows can tell, unless
      that write failed or the object has changed since. */
  lemma WriteBehind(s: State, id: JobId)
    requires Reachable(s) && id in s.hist.uploads
    ensures id in s.mem.latest && var r := s.mem.latest[id];
            if id in s.mem.pending then s.mem.pending[id] == r
            else if id in s.mem.batch then s.mem.batch[id] == r
            else id !in s.mem.lost && r !in s.mem.dirty ==> id in s.mem.jobs && Agree(s.mem.jobs[id], Obj(s.mem, r))
  {
    Reached(s);
    assert LayerOf(s.mem, id, s.mem.latest[id]);
  }

  /** No update of the job is between its halves, and its upload is not under way. */
  predicate BetweenUpdates(s: State, id: JobId) {
    !JobMid(s, id) && !TweetMid(s, id) && (id in s.callers ==> s.callers[id].stored)
  }

  lemma CacheIsHandOver(s: State, id: JobId)
    requires StoreSide(s) && Logged(s, id) && id in s.mem.cache && id in s.mem.latest && BetweenUpdates(s, id)
    ensures s.mem.cache[id] == s.mem.latest[id] <==> !Overtaken(LogOf(s.mem.log, id))
  {
    var log := LogOf(s.mem.log, id);
    OvertakenIff(log);
    GiverStored(log);
  }

  /** Between updates of a job its cache entry is the object last handed over exactly if that update was not
      overtaken: no update of the job by the other loop lay within it, and no reader has stored the job since it
      reached the cache.  Updates that merely overlap do no harm. */
  lemma CacheShowsHandOverIff(s: State, id: JobId)
    requires Reachable(s) && id in s.mem.cache && id in s.hist.uploads && BetweenUpdates(s, id)
    ensures id in s.mem.latest
    ensures s.mem.cache[id] == s.mem.latest[id] <==> !Overtaken(LogOf(s.mem.log, id))
  {
    Reached(s);
    assert Logged(s, id);
    CacheIsHandOver(s, id);
  }

  /** What a step adds to the log of a job: the first and second halves of the loops' updates, those of its
      upload, and readers' entries. */
  function CacheEvents(s: State, st: Step, id: JobId): Log {
    match st
    case J(JobStore) => if s.jl.JobRunning? && s.jl.id == id then [Stores(JobWorker)] else []
    case J(JobPut) => if s.jl.JobRunning? && s.jl.id == id then [Hands(JobWorker)] else []
    case T(TweetStore) => if s.tl.TweetHas? && s.tl.q.job == id then [Stores(TweetWorker)] else []
    case T(TweetPut) => if s.tl.TweetHas? && s.tl.q.job == id then [Hands(TweetWorker)] else []
    case O(EnqueueSave(k, _, _, _, _)) => if k == id then [Hands(Uploader)] else []
    case O(EnqueueStore(k)) => if k == id then [Stores(Uploader)] else []
    case O(GetStore(r)) => if Obj(s.mem, r).id == id then [Stores(Reader)] else []
    case _ => []
  }

  lemma JobLogs(s: State, st: JobStep, s': State, id: JobId)
    requires StoreSide(s) && OwnMake(s) && JobNext(s, st) == Some(s') && (st.JobStore? || st.JobPut?)
    ensures LogOf(s'.mem.log, id) == LogOf(s.mem.log, id) + CacheEvents(s, J(st), id)
  {
    if st.JobStore? {
      JobStoresShape(s, s.jl.id, s.jl.ref, s');
    } else {
      JobHandsShape(s, s.jl.id, s.jl.ref, s');
    }
  }

  lemma TweetLogs(s: State, st: TweetStep, s': State, id: JobId)
    requires StoreSide(s) && OwnMake(s) && TweetNext(s, st) == Some(s') && (st.TweetStore? || st.TweetPut?)
    ensures LogOf(s'.mem.log, id) == LogOf(s.mem.log, id) + CacheEvents(s, T(st), id)
  {
    if st.TweetStore? {
      TweetStoresShape(s, s.tl.q.job, s.tl.at.ref, s');
    } else {
      TweetHandsShape(s, s.tl.q.job, s.tl.at.ref, s');
    }
  }

  lemma OtherLogs(s: State, st: OtherStep, s': State, id: JobId)
    requires OtherNext(s, st) == Some(s')
    ensures LogOf(s'.mem.log, id) == LogOf(s.mem.log, id) + CacheEvents(s, O(st), id)
  {
  }

  lemma NothingLogged(s: State, st: Step, s': State)
    requires Next(s, st) == Some(s') && !st.O?
    requires st != J(JobStore) && st != J(JobPut) && st != T(TweetStore) && st != T(TweetPut)
    ensures s'.mem.log == s.mem.log
  {
    if st.J? {
      assert StoreKept(s, s');
    } else {
      assert StoreKept(s, s');
    }
  }

  lemma StepLogs(s: State, st: Step, s': State, id: JobId)
    requires StoreSide(s) && OwnMake(s) && Next(s, st) == Some(s')
    ensures LogOf(s'.mem.log, id) == LogOf(s.mem.log, id) + CacheEvents(s, st, id)
  {
    if st.O? {
      OtherLogs(s, st.os, s', id);
    } else if st == J(JobStore) || st == J(JobPut) {
      JobLogs(s, st.js, s', id);
    } else if st == T(TweetStore) || st == T(TweetPut) {
      TweetLogs(s, st.ts, s', id);
    } else {
      NothingLogged(s, st, s');
    }
  }

  /** The log of a job is the record of those steps, in order. */
  lemma LogRecordsSteps(s: State, st: Step, s': State, id: JobId)
    requires Reachable(s) && Next(s, st) == Some(s')
    ensures LogOf(s'.mem.log, id) == LogOf(s.mem.log, id) + CacheEvents(s, st, id)
  {
    Reached(s);
    StepLogs(s, st, s', id);
  }

  // ------------------------------------------------------------------ flushing

  /** A batch is taken and then written, without a failure and with nothing in between. */
  predicate Flushes(steps: seq<Step>) {
    && |steps| > 0 && steps[0] == O(FlushTake)
    && forall i :: 1 <= i < |steps| ==> steps[i].O? && steps[i].os.FlushWrite? && steps[i].os.ok
  }

  /** What a flush has done by state `t`, of the batch it took from `s`. */
  ghost predicate FlushedSoFar(s: State, t: State) {
    && t.mem == s.mem.(pending := map[], batch := t.mem.batch, jobs := t.mem.jobs, lost := t.mem.lost)
    && t.jl == s.jl && t.tl == s.tl && t.hist == s.hist && t.callers == s.callers && t.mem.lost <= s.mem.lost
    && forall id :: id in s.mem.pending && id !in t.mem.batch ==> id !in t.mem.lost
  }

  lemma BatchTaken(s: State, t: State)
    requires OtherNext(s, FlushTake) == Some(t)
    ensures FlushedSoFar(s, t)
  {
  }

  lemma EntryWritten(s: State, t: State, id: JobId, u: State)
    requires FlushedSoFar(s, t) && OtherNext(t, FlushWrite(id, true)) == Some(u)
    ensures FlushedSoFar(s, u)
  {
  }

  lemma {:induction false} BatchWritten(run: seq<State>, steps: seq<Step>, i: nat)
    requires IsRun(run, steps) && Flushes(steps) && 1 <= i <= |steps|
    ensures FlushedSoFar(run[0], run[i])
  {
    assert Link(run, steps, i - 1);
    if i == 1 {
      BatchTaken(run[0], run[1]);
    } else {
      BatchWritten(run, steps, i - 1);
      EntryWritten(run[0], run[i - 1], steps[i - 1].os.id, run[i]);
    }
  }

  /** After a complete flush with no update in between, the database agrees with what was last handed over of every
      job that was pending, or that had no failed write before; and so with the cache, unless the update last
      handed over was overtaken. */
  lemma FlushCompletes(run: seq<State>, steps: seq<Step>, id: JobId)
    requires IsRun(run, steps) && Reachable(run[0]) && Flushes(steps) && run[|steps|].mem.batch == map[]
    requires var s := run[0];
             && id in s.hist.uploads && id in s.mem.latest && s.mem.latest[id] !in s.mem.dirty
             && (id in s.mem.pending || id !in s.mem.lost)
    ensures var s, s' := run[0], run[|steps|];
            && s'.mem.cache == s.mem.cache && s'.mem.heap == s.mem.heap && s'.mem.latest == s.mem.latest
            && id in s'.mem.jobs && Agree(s'.mem.jobs[id], Obj(s'.mem, s.mem.latest[id]))
            && (id in s.mem.cache && BetweenUpdates(s, id) && !Overtaken(LogOf(s.mem.log, id)) ==>
                  Agree(s'.mem.jobs[id], Obj(s'.mem, s'.mem.cache[id])))
  {
    var s, s' := run[0], run[|steps|];
    Reached(s);
    RunKeepsInv(run, steps, |steps|);
    BatchWritten(run, steps, |steps|);
    assert LayerOf(s'.mem, id, s'.mem.latest[id]);
    if id in s.mem.cache && BetweenUpdates(s, id) {
      assert Logged(s, id);
      CacheIsHandOver(s, id);
    }
  }
}
