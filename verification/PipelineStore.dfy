/** The write-behind layers: what was last handed over for a job is in the pending updates, or else in the
  batch being written, or else in the database. */
module PipelineStore {
  import opened Model
  import opened Pipeline
  import opened PipelineShapes
  import opened PipelineLinks
  import opened PipelineCopies

  predicate LayerOf(m: Store, id: JobId, r: Ref) {
    if id in m.pending then m.pending[id] == r
    else if id in m.batch then m.batch[id] == r
    else id !in m.lost && r !in m.dirty ==> id in m.jobs && Agree(m.jobs[id], Obj(m, r))
  }

  ghost predicate Layered(m: Store) {
    && (forall id :: id in m.latest ==> LayerOf(m, id, m.latest[id]))
    && forall id :: id in m.latest && id in m.jobs ==> m.jobs[id].createdAt % SECOND == 0
  }

  lemma LayersAtStart(s: State)
    requires Init(s)
    ensures Layered(s.mem)
  {
  }

  // ------------------------------------------------------------------ the store's operations

  /** A holder changes, or a loop loads, an object that is not handed over as it is. */
  lemma CleanLayers(m: Store, m': Store)
    requires Layered(m) && Refers(m.heap, m.latest)
    requires m'.pending == m.pending && m'.batch == m.batch && m'.jobs == m.jobs && m'.lost == m.lost
    requires m'.latest == m.latest && m.dirty <= m'.dirty
    requires forall r :: r in m.heap && r !in m'.dirty ==> r in m'.heap && m'.heap[r] == m.heap[r]
    ensures Layered(m')
  {
  }

  lemma PutLayers(m: Store, r: Ref, who: Actor, uploads: set<JobId>)
    requires Layered(m) && StoreLinked(m, uploads) && r in m.heap && m.heap[r].id in uploads
    ensures Layered(Put(m, r, who))
  {
  }

  lemma TakeLayers(m: Store)
    requires Layered(m) && m.batch == map[]
    ensures Layered(TakeBatch(m))
  {
  }

  /** A row carries the file and creation time of the job's upload, as the object does. */
  lemma SavedRowAgrees(jobs: map<JobId, Job>, j: Job)
    requires j.id in jobs ==> jobs[j.id].fileId == j.fileId && SecondOf(jobs[j.id].createdAt, j.createdAt)
    ensures Agree(SaveJob(jobs, j)[j.id], j)
  {
    SaveJobSaves(jobs, j);
  }

  lemma WriteLayers(m: Store, id: JobId, ok: bool, uploads: set<JobId>, h: History)
    requires Layered(m) && StoreLinked(m, uploads) && uploads == h.uploads.Keys && CopiesOk(m.heap, m.jobs, h)
    requires id in m.batch
    ensures Layered(WriteOne(m, id, ok))
  {
    var m', j := WriteOne(m, id, ok), Obj(m, m.batch[id]);
    assert j.id == id && CopyInOrder(h, j);
    assert id in m.jobs ==> CopyInOrder(h, m.jobs[id]);
    SavedRowAgrees(m.jobs, j);
    forall k | k in m'.latest ensures LayerOf(m', k, m'.latest[k]) {
      assert LayerOf(m, k, m.latest[k]);
    }
  }

  lemma NewJobLayers(m: Store, id: JobId, r: Ref, job: Job, ok: bool, uploads: set<JobId>, m': Store)
    requires Layered(m) && StoreLinked(m, uploads) && r !in m.heap && job.id == id && id !in uploads && id !in m.jobs
    requires m' == Alloc(m, r, job, Uploader).(
                     latest := m.latest[id := r], jobs := if ok then SaveJob(m.jobs, job) else m.jobs,
                     lost := if ok then m.lost - {id} else m.lost + {id}, log := m'.log)
    ensures Layered(m')
  {
    SavedRowAgrees(m.jobs, job);
    forall k | k in m'.latest ensures LayerOf(m', k, m'.latest[k]) {
      assert k != id ==> LayerOf(m, k, m.latest[k]);
    }
  }

  // ------------------------------------------------------------------ the loops

  lemma JobStampLayers(s: State, s': State)
    requires StoreSide(s) && Layered(s.mem) && JobUpdate1(s) == Some(s')
    ensures Layered(s'.mem)
  {
    CleanLayers(s.mem, s'.mem);
  }

  lemma JobPutLayers(s: State, s': State)
    requires StoreSide(s) && Layered(s.mem) && JobUpdate2(s) == Some(s')
    ensures Layered(s'.mem)
  {
    HandOverShape(s, s');
    PutLayers(s.mem, s.jl.ref, JobWorker, s.hist.uploads.Keys);
  }

  lemma JobKeepsLayers(s: State, st: JobStep, s': State)
    requires StoreSide(s) && Layered(s.mem) && JobNext(s, st) == Some(s')
    ensures Layered(s'.mem)
  {
    if st.JobPut? {
      JobPutLayers(s, s');
    } else if st.JobStore? {
      JobStampLayers(s, s');
    } else {
      assert JobLeaves(s, s') && StoreKept(s, s');
      CleanLayers(s.mem, s'.mem);
    }
  }

  lemma TweetKeepsLayers(s: State, st: TweetStep, s': State)
    requires StoreSide(s) && Layered(s.mem) && TweetNext(s, st) == Some(s')
    ensures Layered(s'.mem)
  {
    if st.TweetPut? {
      PutLayers(s.mem, s.tl.at.ref, TweetWorker, s.hist.uploads.Keys);
    } else {
      CleanLayers(s.mem, s'.mem);
    }
  }

  // ------------------------------------------------------------------ callers and flusher

  lemma NewJobKeepsLayers(s: State, st: OtherStep, s': State)
    requires Linked(s) && Layered(s.mem) && OtherNext(s, st) == Some(s') && st.EnqueueSave?
    ensures Layered(s'.mem)
  {
    NewJobLayers(s.mem, st.id, st.r, s'.mem.heap[st.r], st.ok, s.hist.uploads.Keys, s'.mem);
  }

  lemma ReaderKeepsLayers(s: State, st: OtherStep, s': State)
    requires Linked(s) && Layered(s.mem) && OtherNext(s, st) == Some(s')
    requires st.EnqueueStore? || st.GetRead? || st.GetStore?
    ensures Layered(s'.mem)
  {
    CleanLayers(s.mem, s'.mem);
  }

  lemma FlushKeepsLayers(s: State, st: OtherStep, s': State)
    requires Linked(s) && Bounded(s) && Layered(s.mem) && OtherNext(s, st) == Some(s')
    requires st.FlushTake? || st.FlushWrite?
    ensures Layered(s'.mem)
  {
    if st.FlushTake? {
      TakeLayers(s.mem);
    } else {
      WriteLayers(s.mem, st.id, st.ok, s.hist.uploads.Keys, s.hist);
    }
  }

  lemma OtherKeepsLayers(s: State, st: OtherStep, s': State)
    requires Linked(s) && Bounded(s) && Layered(s.mem) && OtherNext(s, st) == Some(s')
    ensures Layered(s'.mem)
  {
    if st.EnqueueSave? {
      NewJobKeepsLayers(s, st, s');
    } else if st.EnqueueStore? || st.GetRead? || st.GetStore? {
      ReaderKeepsLayers(s, st, s');
    } else if st.FlushTake? || st.FlushWrite? {
      FlushKeepsLayers(s, st, s');
    } else {
      assert s'.mem == s.mem;
    }
  }

  lemma StepKeepsLayers(s: State, st: Step, s': State)
    requires Kept(s) && Layered(s.mem) && Next(s, st) == Some(s')
    ensures Layered(s'.mem)
  {
    match st {
      case J(js) => JobKeepsLayers(s, js, s');
      case T(ts) => TweetKeepsLayers(s, ts, s');
      case O(os) => OtherKeepsLayers(s, os, s');
    }
  }
}
