/** What the history records: which steps add to the ghost fields that the theorems compare the program's data with. */
module Histories {
  import opened Model
  import opened Pipeline
  import opened PipelineShapes

  // ------------------------------------------------------------------ the records

  /** A write to a tweet's row fails. */
  function NewFaulty(s: State, st: Step): set<Key> {
    match st
    case J(JobSaveTweet(ok)) => if ok then {} else RowInJobHand(s)
    case J(JobFlagMark(ok)) => if ok then {} else RowInJobHand(s)
    case J(JobUnscored(ok)) => if ok then {} else RowInJobHand(s)
    case T(TweetMark(ok)) => if !ok && s.tl.TweetHas? then {KeyIn(s.archive, s.tl.q)} else {}
    case _ => {}
  }

  function RowInJobHand(s: State): set<Key> {
    match s.jl
    case JobRunning(id, _, Save(i)) => {KeyIn(s.archive, Occ(id, i))}
    case JobRunning(id, _, Filter(i, _)) => {KeyIn(s.archive, Occ(id, i))}
    case JobRunning(id, _, FlagSaved(i, _)) => {KeyIn(s.archive, Occ(id, i))}
    case _ => {}
  }

  /** The tweet loop reads its job's row. */
  predicate LoadsRow(s: State, st: Step) {
    match st
    case T(TweetLoad(_, ok)) => ok && s.tl.TweetHas? && s.tl.q.job in s.mem.jobs
    case T(TweetPause(_, ok)) => ok && s.tl.TweetHas? && s.tl.q.job in s.mem.jobs
    case _ => false
  }

  /** Some update of the job is pending, or being written, or was lost, or the job loop still works on it. */
  predicate Unwritten(s: State, id: JobId) {
    || id in s.mem.pending || id in s.mem.batch || id in s.mem.lost
    || (s.jl.JobRunning? && s.jl.id == id)
  }

  /** The loops' updates of their objects' fields. */
  function Written(s: State, st: Step): set<Ref> {
    match st
    case J(js) =>
      if s.jl.JobRunning? && (js.JobBegin? || js.JobStore? || js.JobParseFails? || js.JobTotal? || js.JobAdvance?
                              || js.JobFinish?)
      then {s.jl.ref} else {}
    case T(TweetPause(r, _)) => if LoadsRow(s, st) then {r} else {}
    case T(TweetDone) =>
      if s.tl.TweetHas? && s.tl.at.Holding? && Obj(s.mem, s.tl.at.ref).processed >= Obj(s.mem, s.tl.at.ref).total
      then {s.tl.at.ref} else {}
    case T(ts) =>
      if s.tl.TweetHas? && s.tl.at.Holding?
         && (ts.TweetTally? || ts.TweetStore? || ts.TweetResume? || ts == TweetReturn(QuotaSpent))
      then {s.tl.at.ref} else {}
    case _ => {}
  }

  function HandedOver(s: State, st: Step): set<Ref> {
    match st
    case J(JobPut) => if s.jl.JobRunning? then {s.jl.ref} else {}
    case T(TweetPut) => if s.tl.TweetHas? && s.tl.at.Holding? then {s.tl.at.ref} else {}
    case _ => {}
  }

  /** Jobs one of whose writes fails, and whose write succeeds. */
  function Losing(st: Step, success: bool): set<JobId> {
    match st
    case O(EnqueueSave(id, _, _, _, ok)) => if ok == success then {id} else {}
    case O(FlushWrite(id, ok)) => if ok == success then {id} else {}
    case _ => {}
  }

  ghost predicate JobsRecorded(s: State, st: Step, s': State) {
    && s'.hist.failed == s.hist.failed + (if st.J? && st.js.JobParseFails? && s.jl.JobRunning? then {s.jl.id} else {})
    && s'.mem.lost == s.mem.lost - Losing(st, true) + Losing(st, false)
    && s'.mem.dirty == s.mem.dirty + Written(s, st) - HandedOver(s, st)
    && s'.hist.uploads == (if st.O? && st.os.EnqueueSave?
                           then s.hist.uploads[st.os.id := Upload(st.os.fileId, st.os.criteria, s.now)]
                           else s.hist.uploads)
  }

  ghost predicate TweetsRecorded(s: State, st: Step, s': State) {
    && s'.hist.faulty == s.hist.faulty + NewFaulty(s, st)
    && s'.hist.mixed == s.hist.mixed + (if LoadsRow(s, st) && Unwritten(s, s.tl.q.job) then {s.tl.q.job} else {})
    && s'.hist.loaded == (if LoadsRow(s, st) then s.mem.jobs[s.tl.q.job] else s.hist.loaded)
    && s'.hist.calls == s.hist.calls + (if st == T(TweetCall) && s.tl.TweetHas?
                                        then [ScoreCall(s.tl.q.job, s.criteria)] else [])
    && s'.hist.scorings == s.hist.scorings + (if st.T? && st.ts.TweetReturn? && st.ts.outcome.Success? then 1 else 0)
    && s'.hist.uncounted == s.hist.uncounted + (if st == T(TweetCount(false)) then 1 else 0)
    && s'.hist.unchecked == s.hist.unchecked + (if st == T(TweetCheck(false)) then 1 else 0)
  }

  // ------------------------------------------------------------------ the job loop

  lemma BeginRecorded(s: State, s': State)
    requires BeginsJob(s) == Some(s')
    ensures JobsRecorded(s, J(JobBegin), s')
  {
  }

  lemma StampRecorded(s: State, s': State)
    requires JobUpdate1(s) == Some(s')
    ensures JobsRecorded(s, J(JobStore), s')
  {
  }

  lemma PutRecorded(s: State, s': State)
    requires JobUpdate2(s) == Some(s')
    ensures JobsRecorded(s, J(JobPut), s')
  {
    HandOverShape(s, s');
  }

  lemma FailRecorded(s: State, message: string, s': State)
    requires FailsParsing(s, message) == Some(s')
    ensures JobsRecorded(s, J(JobParseFails(message)), s')
  {
    FailShape(s, message, s');
  }

  lemma TotalRecorded(s: State, s': State)
    requires SetsTotal(s) == Some(s')
    ensures JobsRecorded(s, J(JobTotal), s')
  {
  }

  lemma AdvanceRecorded(s: State, s': State)
    requires AdvancesLoop(s) == Some(s')
    ensures JobsRecorded(s, J(JobAdvance), s')
  {
    AdvanceShape(s, s');
  }

  lemma FinishRecorded(s: State, s': State)
    requires LeavesLoop(s) == Some(s')
    ensures JobsRecorded(s, J(JobFinish), s')
  {
  }

  lemma JobLoadRecorded(s: State, r: Ref, ok: bool, s': State)
    requires LoadsJob(s, r, ok) == Some(s')
    ensures JobsRecorded(s, J(JobLoad(r, ok)), s')
  {
  }

  lemma JobMovesRecorded(s: State, st: JobStep, s': State)
    requires JobLeaves(s, s') && StoreLeft(s, s') && FailedLeft(s, s') && !JobStores(st)
    ensures JobsRecorded(s, J(st), s')
  {
  }

  lemma JobReportsRecorded(s: State, st: JobStep, s': State)
    requires JobNext(s, st) == Some(s')
    requires st.JobStore? || st.JobPut? || st.JobParseFails? || st.JobFinish?
    ensures JobsRecorded(s, J(st), s')
  {
    match st {
      case JobStore => StampRecorded(s, s');
      case JobPut => PutRecorded(s, s');
      case JobParseFails(message) => FailRecorded(s, message, s');
      case JobFinish => FinishRecorded(s, s');
    }
  }

  lemma JobWorkRecorded(s: State, st: JobStep, s': State)
    requires JobNext(s, st) == Some(s')
    requires st.JobLoad? || st.JobBegin? || st.JobTotal? || st.JobAdvance?
    ensures JobsRecorded(s, J(st), s')
  {
    match st {
      case JobLoad(r, ok) => JobLoadRecorded(s, r, ok, s');
      case JobBegin => BeginRecorded(s, s');
      case JobTotal => TotalRecorded(s, s');
      case JobAdvance => AdvanceRecorded(s, s');
    }
  }

  lemma JobRecorded(s: State, st: JobStep, s': State)
    requires JobNext(s, st) == Some(s')
    ensures JobsRecorded(s, J(st), s')
  {
    if st.JobStore? || st.JobPut? || st.JobParseFails? || st.JobFinish? {
      JobReportsRecorded(s, st, s');
    } else if st.JobLoad? || st.JobBegin? || st.JobTotal? || st.JobAdvance? {
      JobWorkRecorded(s, st, s');
    } else {
      JobMovesRecorded(s, st, s');
    }
  }

  lemma JobTweetsRecorded(s: State, st: JobStep, s': State)
    requires JobNext(s, st) == Some(s')
    ensures TweetsRecorded(s, J(st), s')
  {
    if !JobTracks(st) {
      assert TracksLeft(s, s');
    } else {
      JobFaults(s, st, s');
    }
  }

  lemma WriteFaults(s: State, st: JobStep, s': State)
    requires JobNext(s, st) == Some(s') && JobTracks(st)
    requires st.JobSaveTweet? || st.JobFlagMark? || st.JobUnscored?
    ensures s'.hist.faulty == s.hist.faulty + NewFaulty(s, J(st))
  {
    match st {
      case JobSaveTweet(ok) => SaveFaults(s, ok, s');
      case JobFlagMark(ok) => FlagMarkFaults(s, ok, s');
      case JobUnscored(ok) => UnscoredFaults(s, ok, s');
    }
  }

  lemma FilterFaults(s: State, st: JobStep, s': State)
    requires JobNext(s, st) == Some(s') && JobTracks(st)
    requires st.JobFlag? || st.JobMark? || st.JobSend?
    ensures s'.hist.faulty == s.hist.faulty + NewFaulty(s, J(st))
  {
    match st {
      case JobFlag(ok) => FlagFaults(s, ok, s');
      case JobMark(ok) => MarkFaults(s, ok, s');
      case JobSend => SendFaults(s, s');
    }
  }

  lemma LoopFaults(s: State, st: JobStep, s': State)
    requires JobNext(s, st) == Some(s') && JobTracks(st)
    requires st.JobParses? || st.JobTotal? || st.JobAdvance? || st.JobFinish?
    ensures s'.hist.faulty == s.hist.faulty + NewFaulty(s, J(st))
  {
    match st {
      case JobParses(tweets) => ParseFaults(s, tweets, s');
      case JobTotal => TotalFaults(s, s');
      case JobAdvance => AdvanceFaults(s, s');
      case JobFinish => FinishFaults(s, s');
    }
  }

  lemma JobFaults(s: State, st: JobStep, s': State)
    requires JobNext(s, st) == Some(s') && JobTracks(st)
    ensures s'.hist.faulty == s.hist.faulty + NewFaulty(s, J(st))
  {
    if st.JobSaveTweet? || st.JobFlagMark? || st.JobUnscored? {
      WriteFaults(s, st, s');
    } else if st.JobFlag? || st.JobMark? || st.JobSend? {
      FilterFaults(s, st, s');
    } else {
      LoopFaults(s, st, s');
    }
  }

  lemma SaveFaults(s: State, ok: bool, s': State)
    requires SavesTweet(s, ok) == Some(s')
    ensures s'.hist.faulty == s.hist.faulty + NewFaulty(s, J(JobSaveTweet(ok)))
  {
  }

  lemma FlagMarkFaults(s: State, ok: bool, s': State)
    requires MarksFlagged(s, ok) == Some(s')
    ensures s'.hist.faulty == s.hist.faulty + NewFaulty(s, J(JobFlagMark(ok)))
  {
  }

  lemma UnscoredFaults(s: State, ok: bool, s': State)
    requires SkipsScorer(s, ok) == Some(s')
    ensures s'.hist.faulty == s.hist.faulty + NewFaulty(s, J(JobUnscored(ok)))
  {
  }

  lemma FlagFaults(s: State, ok: bool, s': State)
    requires FlagsTweet(s, ok) == Some(s')
    ensures s'.hist.faulty == s.hist.faulty
  {
  }

  lemma MarkFaults(s: State, ok: bool, s': State)
    requires MarksTweet(s, ok) == Some(s')
    ensures s'.hist.faulty == s.hist.faulty
  {
  }

  lemma ParseFaults(s: State, tweets: seq<Tweet>, s': State)
    requires ParsesArchive(s, tweets) == Some(s')
    ensures s'.hist.faulty == s.hist.faulty
  {
  }

  lemma TotalFaults(s: State, s': State)
    requires SetsTotal(s) == Some(s')
    ensures s'.hist.faulty == s.hist.faulty
  {
  }

  lemma SendFaults(s: State, s': State)
    requires SendsTweet(s) == Some(s')
    ensures s'.hist.faulty == s.hist.faulty
  {
  }

  lemma AdvanceFaults(s: State, s': State)
    requires AdvancesLoop(s) == Some(s')
    ensures s'.hist.faulty == s.hist.faulty
  {
  }

  lemma FinishFaults(s: State, s': State)
    requires LeavesLoop(s) == Some(s')
    ensures s'.hist.faulty == s.hist.faulty
  {
  }

  // ------------------------------------------------------------------ the tweet loop

  lemma PauseWrites(s: State, r: Ref, ok: bool, s': State)
    requires PausesJob(s, r, ok) == Some(s')
    ensures JobsRecorded(s, T(TweetPause(r, ok)), s')
  {
    if s'.tl.at.Holding? {
      PauseShape(s, r, ok, s');
    }
  }

  lemma LoadWrites(s: State, r: Ref, ok: bool, s': State)
    requires LoadsForTweet(s, r, ok) == Some(s')
    ensures JobsRecorded(s, T(TweetLoad(r, ok)), s')
  {
    LoadShape(s, r, ok, s');
  }

  lemma ReturnWrites(s: State, outcome: ScoreOutcome, s': State)
    requires ScoreReturns(s, outcome) == Some(s')
    ensures JobsRecorded(s, T(TweetReturn(outcome)), s')
  {
  }

  lemma TallyWrites(s: State, s': State)
    requires TalliesScore(s) == Some(s')
    ensures JobsRecorded(s, T(TweetTally), s')
  {
    TallyShape(s, s');
  }

  lemma StampWrites(s: State, s': State)
    requires TweetUpdate1(s) == Some(s')
    ensures JobsRecorded(s, T(TweetStore), s')
  {
  }

  lemma PutWrites(s: State, s': State)
    requires TweetUpdate2(s) == Some(s')
    ensures JobsRecorded(s, T(TweetPut), s')
  {
    TweetHandOverShape(s, s');
  }

  lemma DoneWrites(s: State, s': State)
    requires ChecksDone(s) == Some(s')
    ensures JobsRecorded(s, T(TweetDone), s')
  {
    DoneShape(s, s');
  }

  lemma ResumeWrites(s: State, s': State)
    requires ResumesJob(s) == Some(s')
    ensures JobsRecorded(s, T(TweetResume), s')
  {
    ResumeShape(s, s');
  }

  lemma TweetMovesWrite(s: State, st: TweetStep, s': State)
    requires TweetLeaves(s, s') && StoreLeft(s, s') && !TweetStores(st)
    ensures JobsRecorded(s, T(st), s')
  {
  }

  lemma ReportWrites(s: State, st: TweetStep, s': State)
    requires TweetNext(s, st) == Some(s')
    requires st.TweetStore? || st.TweetPut? || st.TweetDone? || st.TweetResume?
    ensures JobsRecorded(s, T(st), s')
  {
    match st {
      case TweetStore => StampWrites(s, s');
      case TweetPut => PutWrites(s, s');
      case TweetDone => DoneWrites(s, s');
      case TweetResume => ResumeWrites(s, s');
    }
  }

  lemma VisitWrites(s: State, st: TweetStep, s': State)
    requires TweetNext(s, st) == Some(s')
    requires st.TweetPause? || st.TweetLoad?
    ensures JobsRecorded(s, T(st), s')
  {
    match st {
      case TweetPause(r, ok) => PauseWrites(s, r, ok, s');
      case TweetLoad(r, ok) => LoadWrites(s, r, ok, s');
    }
  }

  lemma ScoreWrites(s: State, st: TweetStep, s': State)
    requires TweetNext(s, st) == Some(s')
    requires st.TweetReturn? || st.TweetTally?
    ensures JobsRecorded(s, T(st), s')
  {
    match st {
      case TweetReturn(outcome) => ReturnWrites(s, outcome, s');
      case TweetTally => TallyWrites(s, s');
    }
  }

  lemma TweetJobsRecorded(s: State, st: TweetStep, s': State)
    requires TweetNext(s, st) == Some(s')
    ensures JobsRecorded(s, T(st), s')
  {
    if st.TweetStore? || st.TweetPut? || st.TweetDone? || st.TweetResume? {
      ReportWrites(s, st, s');
    } else if st.TweetPause? || st.TweetLoad? {
      VisitWrites(s, st, s');
    } else if st.TweetReturn? || st.TweetTally? {
      ScoreWrites(s, st, s');
    } else {
      TweetMovesWrite(s, st, s');
    }
  }

  lemma TakeRecorded(s: State, s': State)
    requires TakesTweet(s) == Some(s')
    ensures TweetsRecorded(s, T(TweetTake), s')
  {
    TakeShape(s, s');
  }

  lemma CheckRecorded(s: State, ok: bool, s': State)
    requires ChecksQuota(s, ok) == Some(s')
    ensures TweetsRecorded(s, T(TweetCheck(ok)), s')
  {
    CheckShape(s, ok, s');
  }

  lemma MarkRecorded(s: State, ok: bool, s': State)
    requires MarksDone(s, ok) == Some(s')
    ensures TweetsRecorded(s, T(TweetMark(ok)), s')
  {
    MarkShape(s, ok, s');
  }

  lemma RequeueRecorded(s: State, s': State)
    requires RequeuesTweet(s) == Some(s')
    ensures TweetsRecorded(s, T(TweetRequeue), s')
  {
    RequeueShape(s, s');
  }

  lemma DropRecorded(s: State, s': State)
    requires DropsTweet(s) == Some(s')
    ensures TweetsRecorded(s, T(TweetDrop), s')
  {
    DropShape(s, s');
  }

  lemma TallyRecorded(s: State, s': State)
    requires TalliesScore(s) == Some(s')
    ensures TweetsRecorded(s, T(TweetTally), s')
  {
    TallyShape(s, s');
  }

  lemma HandStampRecorded(s: State, s': State)
    requires TweetUpdate1(s) == Some(s')
    ensures TweetsRecorded(s, T(TweetStore), s')
  {
  }

  lemma HandPutRecorded(s: State, s': State)
    requires TweetUpdate2(s) == Some(s')
    ensures TweetsRecorded(s, T(TweetPut), s')
  {
    TweetHandOverShape(s, s');
  }

  lemma DoneRecorded(s: State, s': State)
    requires ChecksDone(s) == Some(s')
    ensures TweetsRecorded(s, T(TweetDone), s')
  {
    DoneShape(s, s');
  }

  lemma ResumeRecorded(s: State, s': State)
    requires ResumesJob(s) == Some(s')
    ensures TweetsRecorded(s, T(TweetResume), s')
  {
    ResumeShape(s, s');
  }

  lemma LoadRecorded(s: State, r: Ref, ok: bool, s': State)
    requires LoadsForTweet(s, r, ok) == Some(s')
    ensures TweetsRecorded(s, T(TweetLoad(r, ok)), s')
  {
  }

  lemma PauseRecorded(s: State, r: Ref, ok: bool, s': State)
    requires PausesJob(s, r, ok) == Some(s')
    ensures TweetsRecorded(s, T(TweetPause(r, ok)), s')
  {
  }

  lemma CallRecorded(s: State, st: TweetStep, s': State)
    requires TweetNext(s, st) == Some(s') && (st.TweetCriteria? || st.TweetCall?)
    ensures TweetsRecorded(s, T(st), s')
  {
  }

  lemma ReturnRecorded(s: State, outcome: ScoreOutcome, s': State)
    requires ScoreReturns(s, outcome) == Some(s')
    ensures TweetsRecorded(s, T(TweetReturn(outcome)), s')
  {
    match outcome {
      case Success(flag) => SuccessShape(s, flag, s');
      case QuotaSpent => SpentShape(s, s');
      case Failure => FailureShape(s, s');
    }
  }

  lemma CountRecorded(s: State, st: TweetStep, s': State)
    requires TweetNext(s, st) == Some(s') && (st.TweetCount? || st.TweetFlag?)
    ensures TweetsRecorded(s, T(st), s')
  {
  }

  lemma EmptyHandRecorded(s: State, st: TweetStep, s': State)
    requires TweetNext(s, st) == Some(s')
    requires st.TweetTake? || st.TweetCheck? || st.TweetMark?
    ensures TweetsRecorded(s, T(st), s')
  {
    match st {
      case TweetTake => TakeRecorded(s, s');
      case TweetCheck(ok) => CheckRecorded(s, ok, s');
      case TweetMark(ok) => MarkRecorded(s, ok, s');
    }
  }

  lemma GivingUpRecorded(s: State, st: TweetStep, s': State)
    requires TweetNext(s, st) == Some(s')
    requires st.TweetRequeue? || st.TweetDrop?
    ensures TweetsRecorded(s, T(st), s')
  {
    match st {
      case TweetRequeue => RequeueRecorded(s, s');
      case TweetDrop => DropRecorded(s, s');
    }
  }

  lemma LoadingRecorded(s: State, st: TweetStep, s': State)
    requires TweetNext(s, st) == Some(s')
    requires st.TweetLoad? || st.TweetPause?
    ensures TweetsRecorded(s, T(st), s')
  {
    match st {
      case TweetLoad(r, ok) => LoadRecorded(s, r, ok, s');
      case TweetPause(r, ok) => PauseRecorded(s, r, ok, s');
    }
  }

  lemma ReportingRecorded(s: State, st: TweetStep, s': State)
    requires TweetNext(s, st) == Some(s')
    requires st.TweetStore? || st.TweetPut? || st.TweetDone? || st.TweetResume?
    ensures TweetsRecorded(s, T(st), s')
  {
    match st {
      case TweetStore => HandStampRecorded(s, s');
      case TweetPut => HandPutRecorded(s, s');
      case TweetDone => DoneRecorded(s, s');
      case TweetResume => ResumeRecorded(s, s');
    }
  }

  lemma ScoringRecorded(s: State, st: TweetStep, s': State)
    requires TweetNext(s, st) == Some(s')
    requires st.TweetCriteria? || st.TweetCall? || st.TweetCount? || st.TweetFlag? || st.TweetTally?
    ensures TweetsRecorded(s, T(st), s')
  {
    match st {
      case TweetCriteria => CallRecorded(s, st, s');
      case TweetCall => CallRecorded(s, st, s');
      case TweetCount(_) => CountRecorded(s, st, s');
      case TweetFlag(_) => CountRecorded(s, st, s');
      case TweetTally => TallyRecorded(s, s');
    }
  }

  lemma TweetRecorded(s: State, st: TweetStep, s': State)
    requires TweetNext(s, st) == Some(s')
    ensures TweetsRecorded(s, T(st), s')
  {
    if st.TweetTake? || st.TweetCheck? || st.TweetMark? {
      EmptyHandRecorded(s, st, s');
    } else if st.TweetRequeue? || st.TweetDrop? {
      GivingUpRecorded(s, st, s');
    } else if st.TweetLoad? || st.TweetPause? {
      LoadingRecorded(s, st, s');
    } else if st.TweetReturn? {
      ReturnRecorded(s, st.outcome, s');
    } else if st.TweetStore? || st.TweetPut? || st.TweetDone? || st.TweetResume? {
      ReportingRecorded(s, st, s');
    } else {
      ScoringRecorded(s, st, s');
    }
  }

  // ------------------------------------------------------------------ callers, flusher and clock

  lemma OtherRecorded(s: State, st: OtherStep, s': State)
    requires OtherNext(s, st) == Some(s')
    ensures JobsRecorded(s, O(st), s') && TweetsRecorded(s, O(st), s')
  {
  }

  /** Each step adds to the history what its fields stand for, and nothing else: failed writes, failed jobs, uploads,
      objects changed since they were handed over, rows read by the tweet loop and whether an update of the job was
      unwritten then, and calls of the scorer with the criteria then in force. */
  lemma HistoryRecords(s: State, st: Step, s': State)
    requires Next(s, st) == Some(s')
    ensures JobsRecorded(s, st, s') && TweetsRecorded(s, st, s')
  {
    match st {
      case J(js) =>
        JobRecorded(s, js, s');
        JobTweetsRecorded(s, js, s');
      case T(ts) =>
        TweetJobsRecorded(s, ts, s');
        TweetRecorded(s, ts, s');
      case O(os) => OtherRecorded(s, os, s');
    }
  }
}
