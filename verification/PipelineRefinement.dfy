/** The worker's code does what runs of the step machine do. */
module PipelineRefinement {
  import opened Model
  import opened Pipeline
  import opened PipelineLinks
  import opened Workers

  // ------------------------------------------------------------------ phase 2

  /** A run of phase 2: the job, the address of its record, its tweets, what else phase 2 depends on, the cache
      and the pending updates before the phase, and the machine before it. */
  datatype Scene = Scene(
    id: JobId, r: Ref, tweets: seq<Tweet>, around: Surroundings, cache: map<JobId, Ref>, updates: map<JobId, Ref>,
    base: State)

  /** What phase 2 leaves alone. */
  ghost predicate Apart(s: State, base: State) {
    && s.tl == base.tl && s.archive == base.archive && s.cfg == base.cfg && s.now == base.now && s.today == base.today
    && s.quota == base.quota && s.criteria == base.criteria && s.hist.uploads == base.hist.uploads
    && s.mem.jobs == base.mem.jobs && s.mem.batch == base.mem.batch && s.mem.heap.Keys == base.mem.heap.Keys
  }

  /** All but the cache and the position in the code. */
  ghost predicate Agrees(s: State, c: Scene, p: PhaseTwo) {
    && Apart(s, c.base) && c.r in s.mem.heap && s.mem.heap[c.r] == p.job && p.job.id == c.id
    && c.id in s.archive && s.archive[c.id] == c.tweets && p.next <= |c.tweets|
    && s.rows == p.rows && s.flagged == p.flagged && s.tweetQ == p.queue
    && s.mem.pending == (if p.reports != [] then c.updates[c.id := c.r] else c.updates)
    && s.cfg.policy == c.around.policy && s.cfg.hasScorer == c.around.hasScorer
    && s.cfg.tweetCap == c.around.queueSize && s.now == c.around.now
  }

  /** The machine is in phase 2 where the code is. */
  ghost predicate Here(s: State, c: Scene, p: PhaseTwo, at: JobAt) {
    && Agrees(s, c, p) && s.jl == JobRunning(c.id, c.r, at)
    && s.mem.cache == (if p.reports != [] then c.cache[c.id := c.r] else c.cache)
  }

  ghost predicate AtTweet(s: State, c: Scene, p: PhaseTwo) {
    Here(s, c, p, Filter(p.next, p.flags)) && p.next < |c.tweets| && !p.blocked
  }

  lemma FlagsShape(s: State, id: JobId, r: Ref, i: nat, f: nat, ok: bool) returns (t: State)
    requires s.jl == JobRunning(id, r, Filter(i, f)) && i < |Tweets(s, id)|
    requires FiltersFlag(s.cfg.policy, Obj(s.mem, r).criteria, TweetIn(s.archive, Occ(id, i)))
    ensures JobNext(s, JobFlag(ok)) == Some(t) && t.hist.uploads == s.hist.uploads
    ensures var row := FlaggedRow(Occ(id, i), TweetIn(s.archive, Occ(id, i)).id, false);
            t == s.(jl := JobRunning(id, r, FlagSaved(i, f + 1)),
                    flagged := if ok then s.flagged + [row] else s.flagged, hist := t.hist)
  {
    t := FlagsTweet(s, ok).value;
  }

  lemma FlagStep(s: State, c: Scene, p: PhaseTwo, q: PhaseTwo) returns (t: State)
    requires AtTweet(s, c, p) && ToFlag(p, c.tweets[p.next], c.around)
    requires var row := FlaggedRow(Occ(c.id, p.next), c.tweets[p.next].id, false);
             q == p.(flags := p.flags + 1, flagged := if c.around.saves(p.next) then p.flagged + [row] else p.flagged)
    ensures JobNext(s, JobFlag(c.around.saves(p.next))) == Some(t) && Here(t, c, q, FlagSaved(p.next, q.flags))
  {
    t := FlagsShape(s, c.id, c.r, p.next, p.flags, c.around.saves(p.next));
  }

  lemma FlagMarkStep(s: State, c: Scene, p: PhaseTwo, q: PhaseTwo) returns (t: State)
    requires p.next < |c.tweets| && Here(s, c, p, FlagSaved(p.next, p.flags))
    requires var k := Key(c.id, c.tweets[p.next].id);
             q == p.(rows := if c.around.marks(p.next) then MarkProcessed(p.rows, k) else p.rows)
    ensures JobNext(s, JobFlagMark(c.around.marks(p.next))) == Some(t) && Here(t, c, q, Advance(p.next, p.flags))
  {
    t := MarksFlagged(s, c.around.marks(p.next)).value;
  }

  lemma MarkStep(s: State, c: Scene, p: PhaseTwo, q: PhaseTwo) returns (t: State)
    requires AtTweet(s, c, p) && !ToFlag(p, c.tweets[p.next], c.around) && c.around.hasScorer && c.around.marks(p.next)
    requires q == p.(needsGemini := p.needsGemini + 1, rows := MarkNeeds(p.rows, Key(c.id, c.tweets[p.next].id)))
    ensures JobNext(s, JobMark(true)) == Some(t) && Here(t, c, q, Marked(p.next, p.flags))
  {
    t := MarksTweet(s, true).value;
  }

  lemma PassStep(s: State, c: Scene, p: PhaseTwo) returns (t: State)
    requires AtTweet(s, c, p) && PassedOver(p, c.tweets[p.next], c.around)
    ensures JobNext(s, JobMark(false)) == Some(t) && Here(t, c, p.(next := p.next + 1), Filter(p.next + 1, p.flags))
  {
    t := MarksTweet(s, false).value;
  }

  lemma SendStep(s: State, c: Scene, p: PhaseTwo) returns (t: State)
    requires p.next < |c.tweets| && Here(s, c, p, Marked(p.next, p.flags)) && |p.queue| < c.around.queueSize
    ensures JobNext(s, JobSend) == Some(t)
    ensures Here(t, c, p.(queue := p.queue + [Occ(c.id, p.next)]), Advance(p.next, p.flags))
  {
    t := SendsTweet(s).value;
  }

  lemma CloseStep(s: State, c: Scene, p: PhaseTwo, q: PhaseTwo) returns (t: State)
    requires AtTweet(s, c, p) && !ToFlag(p, c.tweets[p.next], c.around) && !c.around.hasScorer
    requires var k := Key(c.id, c.tweets[p.next].id);
             q == p.(rows := if c.around.marks(p.next) then MarkProcessed(p.rows, k) else p.rows)
    ensures JobNext(s, JobUnscored(c.around.marks(p.next))) == Some(t) && Here(t, c, q, Advance(p.next, p.flags))
  {
    t := SkipsScorer(s, c.around.marks(p.next)).value;
  }

  lemma AdvancesShape(s: State, id: JobId, r: Ref, i: nat, f: nat) returns (t: State)
    requires s.jl == JobRunning(id, r, Advance(i, f)) && r in s.mem.heap
    ensures JobNext(s, JobAdvance) == Some(t) && t == s.(jl := t.jl, mem := t.mem, hist := t.hist)
    ensures var j := s.mem.heap[r].(processed := s.mem.heap[r].processed + 1, flagged := f);
            && t.mem == Mutate(s.mem, r, j) && t.hist.uploads == s.hist.uploads
            && t.jl == JobRunning(
                         id, r, if j.processed % 100 == 0 then Store1(ToFilter(i + 1, f)) else Filter(i + 1, f))
  {
    t := AdvancesLoop(s).value;
  }

  lemma CountStep(s: State, c: Scene, p: PhaseTwo, q: PhaseTwo) returns (t: State)
    requires p.next < |c.tweets| && Here(s, c, p, Advance(p.next, p.flags))
    requires q == p.(next := p.next + 1, job := p.job.(processed := p.job.processed + 1, flagged := p.flags))
    ensures JobNext(s, JobAdvance) == Some(t)
    ensures Here(t, c, q,
                 if q.job.processed % 100 == 0 then Store1(ToFilter(q.next, q.flags)) else Filter(q.next, q.flags))
  {
    t := AdvancesShape(s, c.id, c.r, p.next, p.flags);
  }

  lemma JobStampShape(s: State, id: JobId, r: Ref, goto: JobGoto) returns (t: State)
    requires s.jl == JobRunning(id, r, Store1(goto)) && r in s.mem.heap && s.mem.heap[r].id == id
    ensures JobNext(s, JobStore) == Some(t) && t == s.(jl := JobRunning(id, r, Store2(goto)), mem := t.mem)
    ensures t.mem.heap == s.mem.heap[r := s.mem.heap[r].(updatedAt := s.now)]
    ensures t.mem == s.mem.(heap := t.mem.heap, cache := s.mem.cache[id := r], dirty := t.mem.dirty, log := t.mem.log)
  {
    t := JobUpdate1(s).value;
  }

  lemma StampStep(s: State, c: Scene, p: PhaseTwo, goto: JobGoto) returns (t: State)
    requires Here(s, c, p, Store1(goto))
    ensures JobNext(s, JobStore) == Some(t) && t.jl == JobRunning(c.id, c.r, Store2(goto))
    ensures Agrees(t, c, p.(job := p.job.(updatedAt := c.around.now))) && t.mem.cache == c.cache[c.id := c.r]
  {
    t := JobStampShape(s, c.id, c.r, goto);
    StampAgrees(s, c, p, goto, t);
  }

  lemma StampAgrees(s: State, c: Scene, p: PhaseTwo, goto: JobGoto, t: State)
    requires Here(s, c, p, Store1(goto)) && t == s.(jl := JobRunning(c.id, c.r, Store2(goto)), mem := t.mem)
    requires t.mem.heap == s.mem.heap[c.r := s.mem.heap[c.r].(updatedAt := s.now)]
    requires t.mem == s.mem.(heap := t.mem.heap, cache := s.mem.cache[c.id := c.r], dirty := t.mem.dirty,
                             log := t.mem.log)
    ensures Agrees(t, c, p.(job := p.job.(updatedAt := c.around.now))) && t.mem.cache == c.cache[c.id := c.r]
  {
  }

  lemma JobPutShape(s: State, id: JobId, r: Ref, i: nat, f: nat) returns (t: State)
    requires s.jl == JobRunning(id, r, Store2(ToFilter(i, f))) && r in s.mem.heap && s.mem.heap[r].id == id
    ensures JobNext(s, JobPut) == Some(t)
    ensures t == s.(jl := JobRunning(id, r, Filter(i, f)), mem := t.mem, hist := t.hist)
    ensures t.mem == s.mem.(pending := s.mem.pending[id := r], latest := s.mem.latest[id := r], dirty := t.mem.dirty,
                            log := t.mem.log)
    ensures t.hist.uploads == s.hist.uploads
  {
    t := JobUpdate2(s).value;
  }

  lemma PutStep(s: State, c: Scene, p: PhaseTwo, i: nat, f: nat) returns (t: State)
    requires Agrees(s, c, p) && s.jl == JobRunning(c.id, c.r, Store2(ToFilter(i, f)))
    requires s.mem.cache == c.cache[c.id := c.r]
    ensures JobNext(s, JobPut) == Some(t) && Here(t, c, p.(reports := p.reports + [p.job]), Filter(i, f))
  {
    t := JobPutShape(s, c.id, c.r, i, f);
    PutAgrees(s, c, p, i, f, t);
  }

  lemma PutAgrees(s: State, c: Scene, p: PhaseTwo, i: nat, f: nat, t: State)
    requires Agrees(s, c, p) && s.mem.cache == c.cache[c.id := c.r]
    requires t == s.(jl := JobRunning(c.id, c.r, Filter(i, f)), mem := t.mem, hist := t.hist)
    requires t.mem == s.mem.(pending := s.mem.pending[c.id := c.r], latest := s.mem.latest[c.id := c.r],
                             dirty := t.mem.dirty, log := t.mem.log)
    requires t.hist.uploads == s.hist.uploads
    ensures Here(t, c, p.(reports := p.reports + [p.job]), Filter(i, f))
  {
  }

  /** The job is stamped and handed over. */
  function Updated(p: PhaseTwo, now: Time): PhaseTwo {
    p.(job := p.job.(updatedAt := now), reports := p.reports + [p.job.(updatedAt := now)])
  }

  // ------------------------------------------------------------------ turns of the loop

  lemma Updates(s0: State, s: State, c: Scene, p: PhaseTwo, i: nat, f: nat) returns (u: State)
    requires Reaches(s0, s) && Here(s, c, p, Store1(ToFilter(i, f)))
    ensures Reaches(s0, u) && Here(u, c, Updated(p, c.around.now), Filter(i, f))
  {
    var t := StampStep(s, c, p, ToFilter(i, f));
    ReachesThen(s0, s, J(JobStore), t);
    u := PutStep(t, c, p.(job := p.job.(updatedAt := c.around.now)), i, f);
    ReachesThen(s0, t, J(JobPut), u);
  }

  lemma Flags(s0: State, s: State, c: Scene, p: PhaseTwo) returns (u: State)
    requires Reaches(s0, s) && AtTweet(s, c, p) && ToFlag(p, c.tweets[p.next], c.around)
    ensures var h := Handled(p, c.tweets[p.next], c.around); Reaches(s0, u) && Here(u, c, h, Advance(p.next, h.flags))
  {
    var h := Handled(p, c.tweets[p.next], c.around);
    var t := FlagStep(s, c, p, h.(rows := p.rows));
    ReachesThen(s0, s, J(JobFlag(c.around.saves(p.next))), t);
    u := FlagMarkStep(t, c, h.(rows := p.rows), h);
    ReachesThen(s0, t, J(JobFlagMark(c.around.marks(p.next))), u);
  }

  lemma Queues(s0: State, s: State, c: Scene, p: PhaseTwo) returns (u: State)
    requires Reaches(s0, s) && AtTweet(s, c, p) && !ToFlag(p, c.tweets[p.next], c.around)
    requires c.around.hasScorer && c.around.marks(p.next) && |p.queue| < c.around.queueSize
    ensures var h := Handled(p, c.tweets[p.next], c.around); Reaches(s0, u) && Here(u, c, h, Advance(p.next, h.flags))
  {
    var h := Handled(p, c.tweets[p.next], c.around);
    var t := MarkStep(s, c, p, h.(queue := p.queue));
    ReachesThen(s0, s, J(JobMark(true)), t);
    u := SendStep(t, c, h.(queue := p.queue));
    ReachesThen(s0, t, J(JobSend), u);
  }

  lemma Handles(s0: State, s: State, c: Scene, p: PhaseTwo) returns (u: State)
    requires Reaches(s0, s) && AtTweet(s, c, p)
    requires !SendWaits(p, c.tweets[p.next], c.around) && !PassedOver(p, c.tweets[p.next], c.around)
    ensures var h := Handled(p, c.tweets[p.next], c.around); Reaches(s0, u) && Here(u, c, h, Advance(p.next, h.flags))
  {
    if ToFlag(p, c.tweets[p.next], c.around) {
      u := Flags(s0, s, c, p);
    } else if c.around.hasScorer {
      u := Queues(s0, s, c, p);
    } else {
      u := CloseStep(s, c, p, Handled(p, c.tweets[p.next], c.around));
      ReachesThen(s0, s, J(JobUnscored(c.around.marks(p.next))), u);
    }
  }

  lemma Counts(s0: State, s: State, c: Scene, p: PhaseTwo, q: PhaseTwo) returns (u: State)
    requires Reaches(s0, s) && p.next < |c.tweets| && Here(s, c, p, Advance(p.next, p.flags))
    requires q == p.(next := p.next + 1, job := p.job.(processed := p.job.processed + 1, flagged := p.flags))
    ensures Reaches(s0, u)
    ensures Here(u, c, if q.job.processed % 100 == 0 then Updated(q, c.around.now) else q,
                 Filter(q.next, q.flags))
  {
    var t := CountStep(s, c, p, q);
    ReachesThen(s0, s, J(JobAdvance), t);
    if q.job.processed % 100 == 0 {
      u := Updates(s0, t, c, q, q.next, q.flags);
    } else {
      u := t;
    }
  }

  /** Where the machine is after turns of the loop. */
  function LoopAt(q: PhaseTwo): JobAt {
    if q.blocked then Marked(q.next, q.flags) else Filter(q.next, q.flags)
  }

  lemma TurnWaits(s0: State, s: State, c: Scene, p: PhaseTwo) returns (u: State)
    requires Reaches(s0, s) && AtTweet(s, c, p) && SendWaits(p, c.tweets[p.next], c.around)
    ensures var q := Turn(p, c.tweets[p.next], c.around); Reaches(s0, u) && Here(u, c, q, LoopAt(q))
  {
    u := MarkStep(s, c, p, Turn(p, c.tweets[p.next], c.around).(blocked := false));
    ReachesThen(s0, s, J(JobMark(true)), u);
  }

  lemma TurnPasses(s0: State, s: State, c: Scene, p: PhaseTwo) returns (u: State)
    requires Reaches(s0, s) && AtTweet(s, c, p) && PassedOver(p, c.tweets[p.next], c.around)
    ensures var q := Turn(p, c.tweets[p.next], c.around); Reaches(s0, u) && Here(u, c, q, LoopAt(q))
  {
    assert Turn(p, c.tweets[p.next], c.around) == p.(next := p.next + 1);
    u := PassStep(s, c, p);
    ReachesThen(s0, s, J(JobMark(false)), u);
  }

  lemma CountedOnIs(p: PhaseTwo, now: Time, q: PhaseTwo)
    requires q == p.(next := p.next + 1, job := p.job.(processed := p.job.processed + 1, flagged := p.flags))
    ensures CountedOn(p, now) == if q.job.processed % 100 == 0 then Updated(q, now) else q
  {
  }

  lemma TurnGoes(s0: State, s: State, c: Scene, p: PhaseTwo) returns (u: State)
    requires Reaches(s0, s) && AtTweet(s, c, p)
    requires !SendWaits(p, c.tweets[p.next], c.around) && !PassedOver(p, c.tweets[p.next], c.around)
    ensures var q := CountedOn(Handled(p, c.tweets[p.next], c.around), c.around.now);
            Reaches(s0, u) && Here(u, c, q, Filter(q.next, q.flags))
  {
    var h := Handled(p, c.tweets[p.next], c.around);
    var t := Handles(s0, s, c, p);
    var q := h.(next := h.next + 1, job := h.job.(processed := h.job.processed + 1, flagged := h.flags));
    u := Counts(s0, t, c, h, q);
    CountedOnIs(h, c.around.now, q);
  }

  lemma TurnReached(s0: State, s: State, c: Scene, p: PhaseTwo) returns (u: State)
    requires Reaches(s0, s) && AtTweet(s, c, p)
    ensures var q := Turn(p, c.tweets[p.next], c.around); Reaches(s0, u) && Here(u, c, q, LoopAt(q))
  {
    if SendWaits(p, c.tweets[p.next], c.around) {
      u := TurnWaits(s0, s, c, p);
    } else if PassedOver(p, c.tweets[p.next], c.around) {
      u := TurnPasses(s0, s, c, p);
    } else {
      u := TurnGoes(s0, s, c, p);
    }
  }

  lemma {:induction false} TurnsReached(s0: State, s: State, c: Scene, p: PhaseTwo) returns (u: State)
    requires Reaches(s0, s) && Here(s, c, p, LoopAt(p))
    ensures var q := Turns(p, c.tweets, c.around, |c.tweets|); Reaches(s0, u) && Here(u, c, q, LoopAt(q))
    decreases |c.tweets| - p.next, !p.blocked
  {
    if p.next == |c.tweets| || p.blocked {
      u := s;
    } else {
      u := TurnReached(s0, s, c, p);
      if !SendWaits(p, c.tweets[p.next], c.around) {
        u := TurnsReached(s0, u, c, Turn(p, c.tweets[p.next], c.around));
      }
    }
  }

  lemma FinishStep(s: State, c: Scene, p: PhaseTwo) returns (t: State)
    requires Here(s, c, p, Filter(|c.tweets|, p.flags))
    ensures JobNext(s, JobFinish) == Some(t) && Here(t, c, p.(job := p.job.(flagged := p.flags)), Store1(ToEnd))
  {
    t := LeavesLoop(s).value;
  }

  lemma EndStep(s: State, c: Scene, p: PhaseTwo) returns (t: State)
    requires Agrees(s, c, p) && s.jl == JobRunning(c.id, c.r, Store2(ToEnd))
    ensures JobNext(s, JobPut) == Some(t) && t.jl == JobIdle
    ensures Agrees(t, c, p.(reports := p.reports + [p.job])) && t.mem.cache == s.mem.cache
  {
    t := JobUpdate2(s).value;
  }

  /** The end of phase 2. */
  lemma Ends(s0: State, s: State, c: Scene, p: PhaseTwo) returns (u: State)
    requires Reaches(s0, s) && Here(s, c, p, Filter(|c.tweets|, p.flags)) && p.next == |c.tweets|
    ensures Reaches(s0, u) && u.jl == JobIdle && u.mem.cache == c.cache[c.id := c.r]
    ensures Agrees(u, c, Updated(p.(job := p.job.(flagged := p.flags)), c.around.now))
  {
    var q := p.(job := p.job.(flagged := p.flags));
    var q' := p.(job := p.job.(flagged := p.flags, updatedAt := c.around.now));
    var t := FinishStep(s, c, p);
    ReachesThen(s0, s, J(JobFinish), t);
    var t' := StampStep(t, c, q, ToEnd);
    ReachesThen(s0, t, J(JobStore), t');
    u := EndStep(t', c, q');
    ReachesThen(s0, t', J(JobPut), u);
  }

  /** Phase 2 of the job whose record is at `r`, as it begins. */
  function AtLoop(s: State, r: Ref): PhaseTwo {
    PhaseTwo(Obj(s.mem, r), [], 0, 0, 0, s.rows, s.flagged, s.tweetQ, false)
  }

  /** Phase 2 as the code runs it is a run of the machine, from the top of the loop to the job's end or, where
      the channel is full, to the send that waits: with the records, rows, flagged rows, channel, cache and
      pending updates that `ApplyFiltersAndQueue` leaves. */
  lemma PhaseTwoRefines(s: State, c: Scene) returns (u: State)
    requires c.base == s
    requires Here(s, c, AtLoop(s, c.r), Filter(0, 0))
    ensures var p := Turns(AtLoop(s, c.r), c.tweets, c.around, |c.tweets|);
            && Reaches(s, u) && Apart(u, s)
            && u.rows == p.rows && u.flagged == p.flagged && u.tweetQ == p.queue
            && Obj(u.mem, c.r) == (if p.blocked then p.job else p.job.(flagged := p.flags, updatedAt := c.around.now))
            && u.mem.cache == (if p.reports != [] || !p.blocked then s.mem.cache[c.id := c.r] else s.mem.cache)
            && u.mem.pending == (if p.reports != [] || !p.blocked then s.mem.pending[c.id := c.r] else s.mem.pending)
            && (if p.blocked then u.jl == JobRunning(c.id, c.r, Marked(p.next, p.flags)) else u.jl == JobIdle)
  {
    ReachesSelf(s);
    var p0 := AtLoop(s, c.r);
    u := TurnsReached(s, s, c, p0);
    var p := Turns(p0, c.tweets, c.around, |c.tweets|);
    TurnsEnd(p0, c.tweets, c.around);
    if !p.blocked {
      u := Ends(s, u, c, p);
    }
  }

  lemma {:induction false} TurnsEnd(p: PhaseTwo, tweets: seq<Tweet>, around: Surroundings)
    requires p.next <= |tweets|
    ensures var q := Turns(p, tweets, around, |tweets|); q.blocked || q.next == |tweets|
    decreases |tweets| - p.next
  {
    if p.next == |tweets| || p.blocked || SendWaits(p, tweets[p.next], around) {
    } else {
      TurnsEnd(Turn(p, tweets[p.next], around), tweets, around);
    }
  }

  // ------------------------------------------------------------------ flushing

  function ValuesOf(heap: Heap, refs: map<JobId, Ref>): map<JobId, Job> {
    map id | id in refs && refs[id] in heap :: heap[refs[id]]
  }

  /** The flusher has still `batch` to write, of all the jobs in `values`. */
  ghost predicate Flushing(s: State, before: map<JobId, Job>, values: map<JobId, Job>, succeeds: JobId -> bool) {
    && s.mem.batch.Keys <= values.Keys && Refers(s.mem.heap, s.mem.batch)
    && (forall id :: id in s.mem.batch ==> s.mem.heap[s.mem.batch[id]] == values[id])
    && (forall id :: id in values ==> values[id].id == id)
    && FlushedTo(before, values, values.Keys - s.mem.batch.Keys, succeeds, s.mem.jobs)
  }

  /** Writing a batch changes rows only. */
  ghost predicate FlushLeaves(s: State, t: State) {
    t == s.(mem := s.mem.(batch := t.mem.batch, jobs := t.mem.jobs, lost := t.mem.lost))
  }

  lemma WriteStep(s: State, before: map<JobId, Job>, values: map<JobId, Job>, succeeds: JobId -> bool, id: JobId)
    returns (t: State)
    requires Flushing(s, before, values, succeeds) && id in s.mem.batch
    ensures OtherNext(s, FlushWrite(id, succeeds(id))) == Some(t) && Flushing(t, before, values, succeeds)
    ensures t.mem.batch == s.mem.batch - {id} && FlushLeaves(s, t)
  {
    t := s.(mem := WriteOne(s.mem, id, succeeds(id)));
    FlushOne(before, values, values.Keys - s.mem.batch.Keys, succeeds, s.mem.jobs, id);
    assert values.Keys - t.mem.batch.Keys == values.Keys - s.mem.batch.Keys + {id};
  }

  lemma {:induction false} BatchReached(s0: State, s: State, before: map<JobId, Job>, values: map<JobId, Job>,
                                        succeeds: JobId -> bool)
    returns (u: State)
    requires Reaches(s0, s) && Flushing(s, before, values, succeeds)
    ensures Reaches(s0, u) && Flushing(u, before, values, succeeds)
    ensures u.mem.batch == map[] && FlushLeaves(s, u)
    decreases |s.mem.batch|
  {
    if s.mem.batch == map[] {
      u := s;
    } else {
      var id :| id in s.mem.batch;
      var t := WriteStep(s, before, values, succeeds, id);
      ReachesThen(s0, s, O(FlushWrite(id, succeeds(id))), t);
      u := BatchReached(s0, t, before, values, succeeds);
    }
  }

  /** A flush as the code runs it is a run of the machine, with the rows that `FlushJobUpdates` leaves. */
  lemma FlushRefines(s: State, succeeds: JobId -> bool) returns (u: State)
    requires s.mem.batch == map[] && s.mem.pending != map[] && Refers(s.mem.heap, s.mem.pending)
    ensures Reaches(s, u) && u == s.(mem := s.mem.(pending := map[], jobs := u.mem.jobs, lost := u.mem.lost))
    ensures FlushedTo(s.mem.jobs, ValuesOf(s.mem.heap, s.mem.pending), s.mem.pending.Keys, succeeds, u.mem.jobs)
  {
    var t, values := s.(mem := TakeBatch(s.mem)), ValuesOf(s.mem.heap, s.mem.pending);
    ReachesSelf(s);
    ReachesThen(s, s, O(FlushTake), t);
    assert values.Keys == s.mem.pending.Keys;
    u := BatchReached(s, t, s.mem.jobs, values, succeeds);
    assert values.Keys - u.mem.batch.Keys == s.mem.pending.Keys;
  }
}
