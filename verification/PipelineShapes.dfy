/** What the steps of the loops do, in one equation each, for the proofs that go step by step. */
module PipelineShapes {
  import opened Model
  import opened Pipeline

  // ------------------------------------------------------------------ the job loop

  lemma HandOverShape(s: State, s': State)
    requires JobUpdate2(s) == Some(s')
    ensures s.jl.JobRunning? && s.jl.at.Store2? && s'.mem == Put(s.mem, s.jl.ref, JobWorker)
    ensures JobLeaves(s, s') && TracksLeft(s, s')
    ensures s'.jl == if s.jl.at.goto.ToEnd? then JobIdle else JobRunning(s.jl.id, s.jl.ref, JobReturnsTo(s.jl.at.goto))
  {
  }

  lemma FailShape(s: State, message: string, s': State)
    requires FailsParsing(s, message) == Some(s')
    ensures s.jl.JobRunning? && s.jl.at.Parse? && message != ""
    ensures var r := s.jl.ref;
            s' == s.(jl := JobRunning(s.jl.id, r, Store1(ToEnd)),
                     mem := Mutate(s.mem, r, Obj(s.mem, r).(status := Failed, error := message)),
                     hist := s.hist.(failed := s.hist.failed + {s.jl.id}))
  {
  }

  lemma AdvanceShape(s: State, s': State)
    requires s.jl.JobRunning? && AdvancesLoop(s) == Some(s')
    ensures var t, j := TallyIn(s.hist.tally, s.jl.id), Obj(s.mem, s.jl.ref);
            && s'.hist.tally == s.hist.tally[s.jl.id := t.(advanced := t.advanced + 1)]
            && s'.mem.heap == s.mem.heap[s.jl.ref := j.(processed := j.processed + 1, flagged := LoopFlags(s.jl))]
    ensures s'.hist.uploads == s.hist.uploads && s'.hist.failed == s.hist.failed
  {
  }

  lemma UnscoredShape(s: State, ok: bool, s': State)
    requires SkipsScorer(s, ok) == Some(s')
    ensures s.jl.JobRunning? && s.jl.at.Filter?
    ensures s'.jl == JobRunning(s.jl.id, s.jl.ref, Advance(s.jl.at.next, s.jl.at.flagged))
    ensures s' == s.(jl := s'.jl, rows := s'.rows,
                     hist := s.hist.(place := s'.hist.place, closed := s'.hist.closed, faulty := s'.hist.faulty))
  {
  }

  // ------------------------------------------------------------------ the tweet loop, with nothing in hand but a tweet

  lemma TakeShape(s: State, s': State)
    requires TakesTweet(s) == Some(s')
    ensures s.tl == TweetIdle && s.tweetQ != [] && s'.tl == TweetHas(s.tweetQ[0], Check)
    ensures s' == s.(tl := s'.tl, tweetQ := s.tweetQ[1..],
                     hist := s.hist.(place := s.hist.place[s.tweetQ[0] := InTweetHand]))
  {
  }

  lemma CheckShape(s: State, ok: bool, s': State)
    requires ChecksQuota(s, ok) == Some(s')
    ensures s.tl.TweetHas? && s.tl.at.Check?
    ensures s'.tl == TweetHas(s.tl.q, if ok && Quota(s.quota, s.today) >= s.cfg.limit then OverQuota else Load)
    ensures s' == s.(tl := s'.tl, hist := s.hist.(checkedOn := s.today, checkOk := ok, unchecked := s'.hist.unchecked))
  {
  }

  lemma MarkShape(s: State, ok: bool, s': State)
    requires MarksDone(s, ok) == Some(s')
    ensures s.tl.TweetHas? && s.tl.at.Mark? && s'.tl == TweetIdle
    ensures s'.rows == if ok then MarkProcessed(s.rows, KeyIn(s.archive, s.tl.q)) else s.rows
    ensures s'.hist.place == s.hist.place[s.tl.q := if s.tl.at.scored then Scored else ScoreFailed]
    ensures s'.hist.closed == if s.tl.at.scored then s.hist.closed
                              else s.hist.closed[s.tl.q.job := ClosedIn(s.hist.closed, s.tl.q.job) + 1]
    ensures s'.hist.faulty == if ok then s.hist.faulty else s.hist.faulty + {KeyIn(s.archive, s.tl.q)}
    ensures s' == s.(tl := TweetIdle, rows := s'.rows,
                     hist := s.hist.(place := s'.hist.place, closed := s'.hist.closed, faulty := s'.hist.faulty))
  {
  }

  lemma RequeueShape(s: State, s': State)
    requires RequeuesTweet(s) == Some(s')
    ensures s.tl.TweetHas? && s.tl.at.Requeue? && |s.tweetQ| < s.cfg.tweetCap
    ensures s' == s.(tl := TweetIdle, tweetQ := s.tweetQ + [s.tl.q],
                     hist := s.hist.(place := s.hist.place[s.tl.q := InChannel]))
  {
  }

  lemma DropShape(s: State, s': State)
    requires DropsTweet(s) == Some(s')
    ensures s.tl.TweetHas? && s.tl.at.Drop?
    ensures s' == s.(tl := TweetIdle, hist := s.hist.(place := s.hist.place[s.tl.q := Dropped]))
  {
  }

  // ------------------------------------------------------------------ the tweet loop, with its job's object

  lemma LoadShape(s: State, r: Ref, ok: bool, s': State)
    requires LoadsForTweet(s, r, ok) == Some(s')
    ensures s.tl.TweetHas? && s.tl.at.Load? && r !in s.mem.heap && s'.tl.TweetHas?
    ensures if s'.tl.at.Holding? then
              && s.tl.q.job in s.mem.jobs && s'.tl == TweetHas(s.tl.q, Holding(r, Loaded))
              && s'.mem == Alloc(s.mem, r, s.mem.jobs[s.tl.q.job], TweetWorker)
              && s'.hist.loaded == s.mem.jobs[s.tl.q.job]
              && s'.hist.mixed == s.hist.mixed + (if Unsettled(s, s.tl.q.job) then {s.tl.q.job} else {})
              && s' == s.(tl := s'.tl, mem := s'.mem,
                          hist := s.hist.(loaded := s'.hist.loaded, mixed := s'.hist.mixed))
            else s' == s.(tl := TweetHas(s.tl.q, Drop))
  {
  }

  lemma PauseShape(s: State, r: Ref, ok: bool, s': State)
    requires PausesJob(s, r, ok) == Some(s') && s'.tl.at.Holding?
    ensures s.tl.TweetHas? && s.tl.at.OverQuota? && s.tl.q.job in s.mem.jobs && r !in s.mem.heap
    ensures s'.mem == s.mem.(heap := s.mem.heap[r := s.mem.jobs[s.tl.q.job].(status := PausedQuota)],
                             maker := s.mem.maker[r := TweetWorker], dirty := s.mem.dirty + {r})
    ensures s'.tl == TweetHas(s.tl.q, Holding(r, Put1(ToDrop)))
    ensures s'.hist.mixed == s.hist.mixed + if Unsettled(s, s.tl.q.job) then {s.tl.q.job} else {}
    ensures s'.hist.loaded == s.mem.jobs[s.tl.q.job]
  {
    var row := s.mem.jobs[s.tl.q.job];
    assert s.mem.heap[r := row][r := row.(status := PausedQuota)] == s.mem.heap[r := row.(status := PausedQuota)];
  }

  lemma SuccessShape(s: State, flag: bool, s': State)
    requires ScoreReturns(s, Success(flag)) == Some(s')
    ensures s.tl.TweetHas? && s.tl.at.Holding? && s.tl.at.at.InCall?
    ensures s'.tl == TweetHas(s.tl.q, Holding(s.tl.at.ref, Succeeded(flag)))
    ensures var t := TallyIn(s.hist.tally, s.tl.q.job);
            s'.hist.tally
            == s.hist.tally[s.tl.q.job := t.(scored := t.scored + 1, scoredAt := t.scoredAt + {s.tl.q.pos},
                                             llmFlags := t.llmFlags + if flag then 1 else 0)]
    ensures s' == s.(tl := s'.tl, hist := s.hist.(scorings := s.hist.scorings + 1, tally := s'.hist.tally))
  {
  }

  lemma SpentShape(s: State, s': State)
    requires ScoreReturns(s, QuotaSpent) == Some(s')
    ensures s.tl.TweetHas? && s.tl.at.Holding? && s.tl.at.at.InCall?
    ensures var r := s.tl.at.ref;
            s' == s.(tl := TweetHas(s.tl.q, Holding(r, Put1(ToSleep))),
                     mem := Mutate(s.mem, r, Obj(s.mem, r).(status := PausedQuota)))
  {
  }

  lemma FailureShape(s: State, s': State)
    requires ScoreReturns(s, Failure) == Some(s')
    ensures s.tl.TweetHas? && s.tl.at.Holding? && s.tl.at.at.InCall?
    ensures s' == s.(tl := TweetHas(s.tl.q, Mark(false)))
  {
  }

  lemma TallyShape(s: State, s': State)
    requires TalliesScore(s) == Some(s')
    ensures s.tl.TweetHas? && s.tl.at.Holding? && s.tl.at.at.Counted?
    ensures var r, flag := s.tl.at.ref, s.tl.at.at.flag;
            var j := Obj(s.mem, r);
            s' == s.(tl := TweetHas(s.tl.q, Holding(r, if flag then Tallied else Put1(ToDone))),
                     mem := Mutate(s.mem, r, j.(gemini := j.gemini + 1, processed := j.processed + 1,
                                                flagged := j.flagged + if flag then 1 else 0)))
  {
  }

  lemma TweetHandOverShape(s: State, s': State)
    requires TweetUpdate2(s) == Some(s')
    ensures s.tl.TweetHas? && s.tl.at.Holding? && s.tl.at.at.Put2?
    ensures s' == s.(tl := TweetHas(s.tl.q, TweetReturnsTo(s.tl.at.ref, s.tl.at.at.goto)),
                     mem := Put(s.mem, s.tl.at.ref, TweetWorker))
  {
  }

  lemma DoneShape(s: State, s': State)
    requires ChecksDone(s) == Some(s')
    ensures s.tl.TweetHas? && s.tl.at.Holding? && s.tl.at.at.CheckDone?
    ensures var r := s.tl.at.ref;
            var j := Obj(s.mem, r);
            s' == if j.processed >= j.total
                  then s.(tl := TweetHas(s.tl.q, Holding(r, Put1(ToMark))), mem := Mutate(s.mem, r, j.(status := Done)))
                  else s.(tl := TweetHas(s.tl.q, Mark(true)))
  {
  }

  lemma ResumeShape(s: State, s': State)
    requires ResumesJob(s) == Some(s')
    ensures s.tl.TweetHas? && s.tl.at.Holding? && s.tl.at.at.Sleeping?
    ensures var r := s.tl.at.ref;
            s' == s.(tl := TweetHas(s.tl.q, Holding(r, Put1(ToRequeue))),
                     mem := Mutate(s.mem, r, Obj(s.mem, r).(status := Running)))
  {
  }

  // ------------------------------------------------------------------ callers

  lemma NewJobShape(s: State, id: JobId, r: Ref, fileId: FileId, criteria: Option<Criteria>, ok: bool, s': State)
    requires SavesNewJob(s, id, r, fileId, criteria, ok) == Some(s')
    ensures var u := Upload(fileId, criteria, s.now);
            var job := Job(id, fileId, Queued, 0, 0, 0, 0, criteria, "", s.now, s.now);
            && s'.hist == s.hist.(uploads := s.hist.uploads[id := u], tally := s.hist.tally[id := NO_EVENTS],
                                  phase := s'.hist.phase)
            && s'.mem.heap == s.mem.heap[r := job] && s'.mem.maker == s.mem.maker[r := Uploader]
            && s'.mem.jobs == (if ok then SaveJob(s.mem.jobs, job) else s.mem.jobs)
            && s'.mem.latest == s.mem.latest[id := r] && s'.mem.log == Noted(s.mem.log, id, Hands(Uploader))
            && s'.mem.cache == s.mem.cache && s'.mem.pending == s.mem.pending && s'.mem.batch == s.mem.batch
    ensures forall k :: k in s.mem.heap ==> s.mem.heap[k].id != id
    ensures id !in s.mem.jobs && id !in s.hist.uploads && r !in s.mem.heap && id !in s.mem.cache
    ensures s'.jl == s.jl && s'.tl == s.tl && s'.archive == s.archive && s'.readers == s.readers
    ensures s'.callers == s.callers[id := Caller(r, false)]
  {
  }
}
