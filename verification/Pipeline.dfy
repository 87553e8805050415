/** The moderation pipeline as a step system.

  The actors are one job loop, one tweet loop, one flusher and any number of HTTP callers.  Each step is one
  lock-protected section, one database statement, one channel operation or one group of field updates of a
  job.  Jobs in memory are objects identified by reference, so that the loops' pointers, the cache, the
  pending updates and the batch being flushed may share them; the database holds values. */
module Pipeline {
  import opened Model
  import Filters

  type JobId = nat
  type FileId = nat
  type TweetId = nat
  type Ref = nat
  type Time = nat
  type Day = nat
  type Heap = map<Ref, Job>
  type Archive = map<JobId, seq<Tweet>>

  // ------------------------------------------------------------------ jobs

  datatype Status = Queued | Running | Done | Failed | PausedQuota | PausedManual

  datatype Job = Job(
    id: JobId, fileId: FileId, status: Status,
    processed: int, total: int, gemini: int, flagged: int,
    criteria: Option<Criteria>, error: string, createdAt: Time, updatedAt: Time)

  const SECOND := 1_000_000_000

  function Seconds(t: Time): Time {
    t / SECOND * SECOND
  }

  /** A job as the database keeps it: times have whole seconds. */
  function Row(j: Job): Job {
    j.(createdAt := Seconds(j.createdAt), updatedAt := Seconds(j.updatedAt))
  }

  /** On conflict the row keeps its file and its creation time. */
  function SaveJob(jobs: map<JobId, Job>, j: Job): map<JobId, Job> {
    if j.id in jobs then
      jobs[j.id := Row(j).(fileId := jobs[j.id].fileId, createdAt := jobs[j.id].createdAt)]
    else
      jobs[j.id := Row(j)]
  }

  /** `t` is the second that `time` is in. */
  predicate SecondOf(t: Time, time: Time) {
    t % SECOND == 0 && t <= time < t + SECOND
  }

  /** The columns that a write always sets. */
  predicate SameColumns(row: Job, j: Job) {
    && row.id == j.id && row.status == j.status && row.error == j.error && row.criteria == j.criteria
    && row.processed == j.processed && row.total == j.total && row.gemini == j.gemini && row.flagged == j.flagged
    && SecondOf(row.updatedAt, j.updatedAt)
  }

  /** The row says what the job says, and when it was made and changed by the second. */
  predicate Agree(row: Job, j: Job) {
    SameColumns(row, j) && row.fileId == j.fileId && SecondOf(row.createdAt, j.createdAt)
  }

  /** What a write of `j` into `jobs` leaves as its row. */
  predicate IsSaved(jobs: map<JobId, Job>, j: Job, row: Job) {
    if j.id in jobs
    then SameColumns(row, j) && row.fileId == jobs[j.id].fileId && row.createdAt == jobs[j.id].createdAt
    else Agree(row, j)
  }

  lemma SaveJobSaves(jobs: map<JobId, Job>, j: Job)
    ensures var after := SaveJob(jobs, j);
            && after.Keys == jobs.Keys + {j.id} && IsSaved(jobs, j, after[j.id])
            && forall id :: id in jobs && id != j.id ==> after[id] == jobs[id]
  {
  }

  /** Who makes, caches and hands over job objects. */
  datatype Actor = Uploader | JobWorker | TweetWorker | Reader

  /** A job's object enters the cache, or is handed over for writing. */
  datatype CacheEvent = Stores(who: Actor) | Hands(who: Actor)

  /** The job objects, the maps that refer to them, and the jobs table.  `batch` is what the flusher still has
      to write.  The last five fields are history: which object was last handed over for writing, which
      objects were changed since, which jobs' last write failed, who made each object, and what was done with
      each job's objects. */
  datatype Store = Store(
    heap: Heap,
    cache: map<JobId, Ref>,
    pending: map<JobId, Ref>,
    batch: map<JobId, Ref>,
    jobs: map<JobId, Job>,
    latest: map<JobId, Ref>,
    dirty: set<Ref>,
    lost: set<JobId>,
    maker: map<Ref, Actor>,
    log: map<JobId, seq<CacheEvent>>)

  const BLANK := Job(0, 0, Queued, 0, 0, 0, 0, None, "", 0, 0)

  /** The object at `r`.  Every reference the program follows leads to an object, as `Linked` states. */
  function Obj(m: Store, r: Ref): Job {
    if r in m.heap then m.heap[r] else BLANK
  }

  function MakerOf(m: Store, r: Ref): Option<Actor> {
    if r in m.maker then Some(m.maker[r]) else None
  }

  function LogOf(log: map<JobId, seq<CacheEvent>>, id: JobId): seq<CacheEvent> {
    if id in log then log[id] else []
  }

  function Noted(log: map<JobId, seq<CacheEvent>>, id: JobId, e: CacheEvent): map<JobId, seq<CacheEvent>> {
    log[id := LogOf(log, id) + [e]]
  }

  /** A fresh object holding `j`. */
  function Alloc(m: Store, r: Ref, j: Job, who: Actor): Store {
    m.(heap := m.heap[r := j], maker := m.maker[r := who])
  }

  /** The holder of object `r` changes its fields. */
  function Mutate(m: Store, r: Ref, j: Job): Store {
    m.(heap := m.heap[r := j], dirty := m.dirty + {r})
  }

  /** The object at `r` becomes its job's entry in the cache. */
  function Shown(m: Store, r: Ref, who: Actor): Store {
    var id := Obj(m, r).id;
    m.(cache := m.cache[id := r], log := Noted(m.log, id, Stores(who)))
  }

  /** First half of `updateJob`: stamp and cache. */
  function Cached(m: Store, r: Ref, now: Time, who: Actor): Store {
    Shown(Mutate(m, r, Obj(m, r).(updatedAt := now)), r, who)
  }

  /** Second half of `updateJob`: hand over for the next flush. */
  function Put(m: Store, r: Ref, who: Actor): Store {
    var id := Obj(m, r).id;
    m.(pending := m.pending[id := r], latest := m.latest[id := r], dirty := m.dirty - {r},
       log := Noted(m.log, id, Hands(who)))
  }

  function TakeBatch(m: Store): Store {
    m.(batch := m.pending, pending := map[])
  }

  /** The flusher writes one entry of its batch; a failed write is not repeated. */
  function WriteOne(m: Store, id: JobId, ok: bool): Store
    requires id in m.batch
  {
    m.(batch := m.batch - {id},
       jobs := if ok then SaveJob(m.jobs, Obj(m, m.batch[id])) else m.jobs,
       lost := if ok then m.lost - {id} else m.lost + {id})
  }

  // ------------------------------------------------------------------ tweets

  datatype Tweet = Tweet(id: TweetId, text: string)

  /** The tweet record at a position of a job's parsed archive; this is what a queue entry points to. */
  datatype Occurrence = Occ(job: JobId, pos: nat)

  /** Primary key of the tweets table. */
  datatype Key = Key(job: JobId, tweet: TweetId)

  datatype TweetRow = TweetRow(tweet: Tweet, needsGemini: bool, processed: bool, savedAt: Time)

  datatype FlaggedRow = FlaggedRow(source: Occurrence, tweet: TweetId, byScorer: bool)

  /** `UPDATE ... WHERE`: no row, no effect. */
  function MarkNeeds(rows: map<Key, TweetRow>, k: Key): map<Key, TweetRow> {
    if k in rows then rows[k := rows[k].(needsGemini := true)] else rows
  }

  function MarkProcessed(rows: map<Key, TweetRow>, k: Key): map<Key, TweetRow> {
    if k in rows then rows[k := rows[k].(processed := true)] else rows
  }

  /** The row of `k`, if there is one, is marked, and nothing else in the table is touched. */
  predicate IsMarked(rows: map<Key, TweetRow>, k: Key, needs: bool, after: map<Key, TweetRow>) {
    && after.Keys == rows.Keys
    && (forall m :: m in rows && m != k ==> after[m] == rows[m])
    && (k in rows ==>
          after[k] == if needs then TweetRow(rows[k].tweet, true, rows[k].processed, rows[k].savedAt)
                      else TweetRow(rows[k].tweet, rows[k].needsGemini, true, rows[k].savedAt))
  }

  lemma MarksMark(rows: map<Key, TweetRow>, k: Key)
    ensures IsMarked(rows, k, true, MarkNeeds(rows, k)) && IsMarked(rows, k, false, MarkProcessed(rows, k))
  {
  }

  // ------------------------------------------------------------------ the actors

  /** Where `updateJob` returns to in the job loop. */
  datatype JobGoto = ToParse | ToFilter(next: nat, flagged: nat) | ToEnd

  /** Where the job loop is with its current job. */
  datatype JobAt =
    | Begin                                  // loaded, not yet marked running
    | Store1(goto: JobGoto)                  // about to run the first half of updateJob
    | Store2(goto: JobGoto)                  // about to run its second half
    | Parse
    | Save(next: nat)                        // saving tweets
    | Filter(next: nat, flagged: nat)        // top of the phase-2 loop
    | FlagSaved(next: nat, flagged: nat)     // flagged row written, tweet not yet marked processed
    | Marked(next: nat, flagged: nat)        // marked, about to send
    | Advance(next: nat, flagged: nat)       // end of the loop body

  datatype JobLoop = JobIdle | JobTaken(id: JobId) | JobRunning(id: JobId, ref: Ref, at: JobAt)

  datatype TweetGoto = ToDone | ToMark | ToSleep | ToRequeue | ToDrop

  /** Where the tweet loop is with the tweet in its hand, once it has loaded the tweet's job. */
  datatype HeldAt =
    | Loaded
    | Ready                                  // criteria set
    | InCall                                 // Score is running
    | Succeeded(flag: bool)
    | Counted(flag: bool)                    // quota incremented
    | Tallied                                // counters updated, flagged row still to write
    | Put1(goto: TweetGoto)
    | Put2(goto: TweetGoto)
    | CheckDone
    | Sleeping                               // until the quota is reset

  datatype TweetAt =
    | Check
    | OverQuota
    | Load
    | Holding(ref: Ref, at: HeldAt)
    | Mark(scored: bool)
    | Requeue
    | Drop

  datatype TweetLoop = TweetIdle | TweetHas(q: Occurrence, at: TweetAt)

  datatype Caller = Caller(ref: Ref, stored: bool)

  datatype Config = Config(limit: int, hasScorer: bool, policy: Option<seq<string>>, jobCap: nat, tweetCap: nat)

  // ------------------------------------------------------------------ history

  datatype Upload = Upload(fileId: FileId, criteria: Option<Criteria>, createdAt: Time)

  datatype Phase = Entering | Waiting | Working | Ended

  /** Where an occurrence of a tweet is. */
  datatype Place =
    | Unfiltered | Flagging | FilterFlagged | Unscored | Skipped
    | InJobHand | InChannel | InTweetHand | Scored | ScoreFailed | Dropped

  /** Events counted for one job: loop advances of phase 2, tweets it skipped, successful scorings, flags by
      the filters and by the scorer, and the positions scored. */
  datatype Tally = Tally(
    advanced: nat, skipped: nat, scored: nat, filterFlags: nat, llmFlags: nat, scoredAt: set<nat>)

  const NO_EVENTS := Tally(0, 0, 0, 0, 0, {})

  datatype ScoreCall = ScoreCall(job: JobId, criteria: Criteria)

  datatype History = History(
    uploads: map<JobId, Upload>,
    phase: map<JobId, Phase>,
    place: map<Occurrence, Place>,
    tally: map<JobId, Tally>,
    closed: map<JobId, nat>,        // tweets of a job closed without a score, with no scorer or by a failed call
    faulty: set<Key>,               // tweet rows some write to which failed
    failed: set<JobId>,             // jobs whose archive could not be parsed
    mixed: set<JobId>,              // jobs loaded by the tweet loop while an update was unwritten
    calls: seq<ScoreCall>,          // criteria each Score call ran with
    scorings: nat,                  // successful scorings of all jobs
    uncounted: nat,                 // scorings whose quota increment failed
    unchecked: nat,                 // tweets let through because the quota could not be read
    checkedOn: Day, checkOk: bool,  // the tweet loop's last look at the quota
    loaded: Job)                    // the row the tweet loop last read

  datatype State = State(
    cfg: Config, mem: Store,
    jobQ: seq<JobId>, tweetQ: seq<Occurrence>,
    jl: JobLoop, tl: TweetLoop,
    callers: map<JobId, Caller>, missed: set<JobId>, readers: set<Ref>,
    criteria: Criteria,
    archive: Archive,
    rows: map<Key, TweetRow>, flagged: seq<FlaggedRow>, quota: map<Day, nat>,
    now: Time, today: Day,
    hist: History)

  function Quota(quota: map<Day, nat>, d: Day): nat {
    if d in quota then quota[d] else 0
  }

  function CriteriaFor(c: Option<Criteria>): Criteria {
    match c
    case Some(it) => it
    case None => DEFAULT_CRITERIA
  }

  // ------------------------------------------------------------------ reading the state

  function Tweets(s: State, id: JobId): seq<Tweet> {
    if id in s.archive then s.archive[id] else []
  }

  predicate Known(s: State, o: Occurrence) {
    o.job in s.archive && o.pos < |s.archive[o.job]|
  }

  /** The tweet record a queue entry points to. */
  function TweetIn(archive: Archive, o: Occurrence): Tweet {
    if o.job in archive && o.pos < |archive[o.job]| then archive[o.job][o.pos] else Tweet(0, "")
  }

  function KeyIn(archive: Archive, o: Occurrence): Key {
    Key(o.job, TweetIn(archive, o).id)
  }

  function TallyIn(tally: map<JobId, Tally>, id: JobId): Tally {
    if id in tally then tally[id] else NO_EVENTS
  }

  /** The job loop is between the two halves of an update of job `id`. */
  predicate JobMid(s: State, id: JobId) {
    JobHalf(s.jl).Half? && s.jl.id == id
  }

  predicate TweetMid(s: State, id: JobId) {
    TweetHalf(s.tl).Half? && s.tl.q.job == id
  }

  /** A job's row may be behind: some update of it is not, or not properly, in the database. */
  predicate Unsettled(s: State, id: JobId) {
    || id in s.mem.pending || id in s.mem.batch || id in s.mem.lost
    || (s.jl.JobRunning? && s.jl.id == id)
  }

  /** The deterministic filters flag this tweet; a job without criteria skips them. */
  predicate FiltersFlag(policy: Option<seq<string>>, criteria: Option<Criteria>, tweet: Tweet) {
    criteria.Some? && Filters.FilterVerdict(policy, tweet.text).Some?
  }

  /** A channel without a buffer takes a tweet when the tweet loop is there to receive it; what it has taken is
      then at once the tweet loop's to receive. */
  predicate ChannelTakes(s: State) {
    || |s.tweetQ| < s.cfg.tweetCap
    || (s.cfg.tweetCap == 0 && s.tl.TweetIdle? && s.tweetQ == [])
  }

  predicate JobChannelTakes(s: State) {
    || |s.jobQ| < s.cfg.jobCap
    || (s.cfg.jobCap == 0 && s.jl.JobIdle? && s.jobQ == [])
  }

  // ------------------------------------------------------------------ writing the state

  function At(s: State, at: JobAt): State {
    if s.jl.JobRunning? then s.(jl := JobRunning(s.jl.id, s.jl.ref, at)) else s
  }

  function TweetGoes(s: State, at: TweetAt): State {
    if s.tl.TweetHas? then s.(tl := TweetHas(s.tl.q, at)) else s
  }

  function Placed(s: State, o: Occurrence, p: Place): State {
    s.(hist := s.hist.(place := s.hist.place[o := p]))
  }

  function Counting(s: State, id: JobId, t: Tally): State {
    s.(hist := s.hist.(tally := s.hist.tally[id := t]))
  }

  function ClosedIn(closed: map<JobId, nat>, id: JobId): nat {
    if id in closed then closed[id] else 0
  }

  function Closing(s: State, id: JobId): State {
    s.(hist := s.hist.(closed := s.hist.closed[id := ClosedIn(s.hist.closed, id) + 1]))
  }

  function Changed(s: State, r: Ref, j: Job): State {
    s.(mem := Mutate(s.mem, r, j))
  }

  function PhaseIs(s: State, id: JobId, p: Phase): State {
    s.(hist := s.hist.(phase := s.hist.phase[id := p]))
  }

  function Faulty(s: State, k: Key): State {
    s.(hist := s.hist.(faulty := s.hist.faulty + {k}))
  }

  /** Mark the row processed, or remember that the write failed. */
  function Processing(s: State, k: Key, ok: bool): State {
    if ok then s.(rows := MarkProcessed(s.rows, k)) else Faulty(s, k)
  }

  // ------------------------------------------------------------------ what each actor leaves alone

  ghost predicate JobLeaves(s: State, s': State) {
    && s'.cfg == s.cfg && s'.tl == s.tl && s'.criteria == s.criteria
    && s'.callers == s.callers && s'.missed == s.missed && s'.readers == s.readers
    && s'.quota == s.quota && s'.now == s.now && s'.today == s.today
    && s'.mem.batch == s.mem.batch && s'.mem.jobs == s.mem.jobs && s'.mem.lost == s.mem.lost
    && s'.hist == s.hist.(phase := s'.hist.phase, place := s'.hist.place,
                          tally := s'.hist.tally, closed := s'.hist.closed, faulty := s'.hist.faulty,
                          failed := s'.hist.failed)
  }

  ghost predicate TweetLeaves(s: State, s': State) {
    && s'.cfg == s.cfg && s'.jl == s.jl && s'.jobQ == s.jobQ && s'.archive == s.archive
    && s'.callers == s.callers && s'.missed == s.missed && s'.readers == s.readers
    && s'.now == s.now && s'.today == s.today
    && s'.mem.batch == s.mem.batch && s'.mem.jobs == s.mem.jobs && s'.mem.lost == s.mem.lost
    && s'.hist.uploads == s.hist.uploads && s'.hist.phase == s.hist.phase && s'.hist.failed == s.hist.failed
  }

  ghost predicate OtherLeaves(s: State, s': State) {
    && s'.cfg == s.cfg && s'.jl == s.jl && s'.tl == s.tl && s'.tweetQ == s.tweetQ && s'.criteria == s.criteria
    && s'.archive == s.archive && s'.rows == s.rows && s'.flagged == s.flagged && s'.quota == s.quota
    && s'.mem.dirty == s.mem.dirty
    && s'.hist == s.hist.(uploads := s'.hist.uploads, phase := s'.hist.phase, tally := s'.hist.tally)
  }

  /** Queues, phases, archives and the objects last handed over are untouched. */
  ghost predicate QueuesLeft(s: State, s': State) {
    && s'.jobQ == s.jobQ && s'.tweetQ == s.tweetQ && s'.archive == s.archive
    && s'.callers == s.callers && s'.readers == s.readers
    && s'.hist.phase == s.hist.phase && s'.hist.uploads == s.hist.uploads
    && s'.mem.latest == s.mem.latest && s.mem.heap.Keys <= s'.mem.heap.Keys
    && (s'.jl == s.jl
        || (s.jl.JobRunning? && s'.jl.JobRunning? && s'.jl.id == s.jl.id && s'.jl.ref == s.jl.ref))
  }

  ghost predicate StoreLeft(s: State, s': State) {
    s'.mem == s.mem
  }

  /** What lies between the two halves of an `updateJob`. */
  datatype Halfway = NoHalf | Half(id: JobId, ref: Ref)

  function JobHalf(jl: JobLoop): Halfway {
    if jl.JobRunning? && jl.at.Store2? then Half(jl.id, jl.ref) else NoHalf
  }

  function TweetHalf(tl: TweetLoop): Halfway {
    if tl.TweetHas? && tl.at.Holding? && tl.at.at.Put2? then Half(tl.q.job, tl.at.ref) else NoHalf
  }

  /** At most a holder's own object has changed, and no update has begun or ended. */
  ghost predicate StoreKept(s: State, s': State) {
    && s'.mem.cache == s.mem.cache && s'.mem.pending == s.mem.pending
    && s'.mem.latest == s.mem.latest && s'.mem.log == s.mem.log
    && s.mem.dirty <= s'.mem.dirty
    && (forall r :: r in s.mem.heap ==> MakerOf(s'.mem, r) == MakerOf(s.mem, r))
    && forall r :: r in s.mem.heap && r !in s'.mem.dirty ==> r in s'.mem.heap && s'.mem.heap[r] == s.mem.heap[r]
  }

  /** Of the objects there are, at most the one in the tweet loop's hand has changed. */
  ghost predicate HandOnly(s: State, s': State) {
    forall r :: r in s.mem.heap && !(s.tl.TweetHas? && s.tl.at.Holding? && s.tl.at.ref == r) ==>
      r in s'.mem.heap && s'.mem.heap[r] == s.mem.heap[r]
  }

  /** What the tweet loop still owes the quota for the tweet in its hand: nothing, a scoring it may make, or
      the count of one it has made. */
  datatype Owing = Nothing | Scoring | Count

  function Owes(tl: TweetLoop): Owing {
    match tl
    case TweetHas(_, Load) => Scoring
    case TweetHas(_, Holding(_, at)) =>
      if at.Loaded? || at.Ready? || at.InCall? then Scoring else if at.Succeeded? then Count else Nothing
    case _ => Nothing
  }

  ghost predicate QuotaLeft(s: State, s': State) {
    && s'.quota == s.quota && s'.hist.scorings == s.hist.scorings && s'.hist.uncounted == s.hist.uncounted
    && s'.hist.unchecked == s.hist.unchecked
    && s'.hist.checkedOn == s.hist.checkedOn && s'.hist.checkOk == s.hist.checkOk
    && (Owes(s'.tl) == Owes(s.tl) || (Owes(s.tl) == Scoring && Owes(s'.tl) == Nothing))
  }

  /** The part of the job loop's position that tweets depend on. */
  datatype JobTrack =
    | NoTrack
    | Saving(id: JobId, next: nat)
    | Looping(id: JobId, next: nat, hand: JobHand)

  datatype JobHand = NoHand | FlagHand | MarkHand | Passed

  function TrackOf(jl: JobLoop): JobTrack {
    match jl
    case JobRunning(id, _, Save(i)) => Saving(id, i)
    case JobRunning(id, _, Store1(ToFilter(i, _))) => Looping(id, i, NoHand)
    case JobRunning(id, _, Store2(ToFilter(i, _))) => Looping(id, i, NoHand)
    case JobRunning(id, _, Filter(i, _)) => Looping(id, i, NoHand)
    case JobRunning(id, _, FlagSaved(i, _)) => Looping(id, i, FlagHand)
    case JobRunning(id, _, Marked(i, _)) => Looping(id, i, MarkHand)
    case JobRunning(id, _, Advance(i, _)) => Looping(id, i, Passed)
    case _ => NoTrack
  }

  /** How far the tweet in the tweet loop's hand has come. */
  datatype HandStage = Empty | Before(q: Occurrence) | Unflagged(q: Occurrence) | Flagged(q: Occurrence)

  /** `Unflagged`: scored, and its flagged row, if there is to be one, not yet written. */
  function StageOf(tl: TweetLoop): HandStage {
    match tl
    case TweetIdle => Empty
    case TweetHas(q, Holding(_, at)) =>
      if at.Succeeded? || at.Counted? || at.Tallied? then Unflagged(q)
      else if at.CheckDone? then Flagged(q)
      else if (at.Put1? || at.Put2?) && (at.goto.ToDone? || at.goto.ToMark?) then Flagged(q)
      else Before(q)
    case TweetHas(q, Mark(scored)) => if scored then Flagged(q) else Before(q)
    case TweetHas(q, _) => Before(q)
  }

  /** Nothing that says where tweets are has changed. */
  ghost predicate TracksLeft(s: State, s': State) {
    && s'.tweetQ == s.tweetQ && s'.archive == s.archive && s'.rows == s.rows && s'.flagged == s.flagged
    && s'.hist.place == s.hist.place && s'.hist.tally == s.hist.tally && s'.hist.closed == s.hist.closed
    && s'.hist.faulty == s.hist.faulty
    && TrackOf(s'.jl) == TrackOf(s.jl) && StageOf(s'.tl) == StageOf(s.tl)
  }

  /** The phase-2 loop's own count of flags. */
  function LoopFlags(jl: JobLoop): nat {
    match jl
    case JobRunning(_, _, Store1(ToFilter(_, f))) => f
    case JobRunning(_, _, Store2(ToFilter(_, f))) => f
    case JobRunning(_, _, Filter(_, f)) => f
    case JobRunning(_, _, FlagSaved(_, f)) => f
    case JobRunning(_, _, Marked(_, f)) => f
    case JobRunning(_, _, Advance(_, f)) => f
    case _ => 0
  }

  /** The loop's count is unchanged, or has been reset. */
  ghost predicate FlagsLeft(s: State, s': State) {
    s'.jl.JobRunning? ==>
      || LoopFlags(s'.jl) == 0
      || (s.jl.JobRunning? && s'.jl.id == s.jl.id && LoopFlags(s'.jl) == LoopFlags(s.jl))
  }

  /** The scorer's criteria are set, and `Score` not yet back. */
  predicate CriteriaSet(tl: TweetLoop) {
    tl.TweetHas? && tl.at.Holding? && (tl.at.at.Ready? || tl.at.at.InCall?)
  }

  ghost predicate CriteriaLeft(s: State, s': State) {
    && s'.criteria == s.criteria && s'.hist.calls == s.hist.calls
    && !CriteriaSet(s'.tl)
  }

  ghost predicate FailedLeft(s: State, s': State) {
    s'.hist.failed == s.hist.failed
  }

  /** No object and no row of a job has changed. */
  ghost predicate ObjectsLeft(s: State, s': State) {
    s'.mem.heap == s.mem.heap && s'.mem.jobs == s.mem.jobs
  }

  ghost predicate CacheLeft(s: State, s': State) {
    s'.mem.cache == s.mem.cache && s'.mem.maker == s.mem.maker
  }

  ghost predicate TallyLeft(s: State, s': State) {
    s'.hist.tally == s.hist.tally
  }

  // ------------------------------------------------------------------ the job loop

  datatype JobStep =
    | JobTake
    | JobLoad(r: Ref, ok: bool)
    | JobBegin
    | JobStore
    | JobPut
    | JobParseFails(message: string)
    | JobParses(tweets: seq<Tweet>)
    | JobSaveTweet(ok: bool)
    | JobTotal
    | JobFlag(ok: bool)
    | JobFlagMark(ok: bool)
    | JobMark(ok: bool)
    | JobSend
    | JobUnscored(ok: bool)
    | JobAdvance
    | JobFinish

  /** Steps that touch queues, phases, archives or the objects last handed over. */
  predicate JobQueues(st: JobStep) {
    st.JobTake? || st.JobLoad? || st.JobPut? || st.JobParses? || st.JobSend?
  }

  predicate JobStores(st: JobStep) {
    || st.JobLoad? || st.JobBegin? || st.JobStore? || st.JobPut? || st.JobParseFails?
    || st.JobTotal? || st.JobAdvance? || st.JobFinish?
  }

  predicate JobTracks(st: JobStep) {
    || st.JobParses? || st.JobSaveTweet? || st.JobTotal? || st.JobFlag? || st.JobFlagMark?
    || st.JobMark? || st.JobSend? || st.JobUnscored? || st.JobAdvance? || st.JobFinish?
  }

  predicate Updating(jl: JobLoop) {
    jl.JobRunning? && (jl.at.Store1? || jl.at.Store2?)
  }

  /** The state after a step, or `None` where the step cannot be taken.  Parameters of steps are what the
      environment decides: outcomes of I/O and addresses of new objects. */
  function JobNext(s: State, st: JobStep): (r': Option<State>)
    ensures r'.Some? ==> JobLeaves(s, r'.value)
    ensures r'.Some? && !JobQueues(st) ==> QueuesLeft(s, r'.value)
    ensures r'.Some? && !JobStores(st) ==> StoreLeft(s, r'.value)
    ensures r'.Some? && st.JobPut? ==> ObjectsLeft(s, r'.value) && CacheLeft(s, r'.value)
    ensures r'.Some? && !st.JobParseFails? ==> FailedLeft(s, r'.value)
    ensures r'.Some? && !st.JobStore? && !st.JobPut? ==>
              && !Updating(s.jl) && !JobHalf(r'.value.jl).Half? && StoreKept(s, r'.value)
    ensures r'.Some? && !st.JobFlag? ==> FlagsLeft(s, r'.value)
    ensures r'.Some? && !st.JobFlag? && !st.JobMark? && !st.JobAdvance? ==> TallyLeft(s, r'.value)
    ensures r'.Some? && !JobTracks(st) ==> TracksLeft(s, r'.value)
  {
    match st
    case JobTake => TakesJob(s)
    case JobLoad(r, ok) => LoadsJob(s, r, ok)
    case JobBegin => BeginsJob(s)
    case JobStore => JobUpdate1(s)
    case JobPut => JobUpdate2(s)
    case JobParseFails(message) => FailsParsing(s, message)
    case JobParses(tweets) => ParsesArchive(s, tweets)
    case JobSaveTweet(ok) => SavesTweet(s, ok)
    case JobTotal => SetsTotal(s)
    case JobFlag(ok) => FlagsTweet(s, ok)
    case JobFlagMark(ok) => MarksFlagged(s, ok)
    case JobMark(ok) => MarksTweet(s, ok)
    case JobSend => SendsTweet(s)
    case JobUnscored(ok) => SkipsScorer(s, ok)
    case JobAdvance => AdvancesLoop(s)
    case JobFinish => LeavesLoop(s)
  }

  function TakesJob(s: State): (r': Option<State>)
    ensures r'.Some? ==>
              && JobLeaves(s, r'.value) && StoreLeft(s, r'.value) && TracksLeft(s, r'.value)
              && FlagsLeft(s, r'.value) && TallyLeft(s, r'.value) && FailedLeft(s, r'.value)
    ensures r'.Some? ==> !Updating(s.jl) && !JobHalf(r'.value.jl).Half?
  {
    if s.jl.JobIdle? && s.jobQ != [] then
      Some(PhaseIs(s, s.jobQ[0], Working).(jl := JobTaken(s.jobQ[0]), jobQ := s.jobQ[1..]))
    else None
  }

  /** A job whose row cannot be read, or is not there, is dropped. */
  function LoadsJob(s: State, r: Ref, ok: bool): (r': Option<State>)
    ensures r'.Some? ==>
              && JobLeaves(s, r'.value) && TracksLeft(s, r'.value) && FlagsLeft(s, r'.value)
              && TallyLeft(s, r'.value) && FailedLeft(s, r'.value) && StoreKept(s, r'.value)
    ensures r'.Some? ==> !Updating(s.jl) && !JobHalf(r'.value.jl).Half?
  {
    if s.jl.JobTaken? && r !in s.mem.heap then
      var id := s.jl.id;
      if ok && id in s.mem.jobs then
        Some(s.(jl := JobRunning(id, r, Begin), mem := Alloc(s.mem, r, s.mem.jobs[id], JobWorker)))
      else
        Some(PhaseIs(s, id, Ended).(jl := JobIdle))
    else None
  }

  function BeginsJob(s: State): (r': Option<State>)
    ensures r'.Some? ==>
              && JobLeaves(s, r'.value) && QueuesLeft(s, r'.value) && TracksLeft(s, r'.value)
              && FlagsLeft(s, r'.value) && TallyLeft(s, r'.value) && FailedLeft(s, r'.value)
              && StoreKept(s, r'.value)
    ensures r'.Some? ==> !Updating(s.jl) && !JobHalf(r'.value.jl).Half?
  {
    match s.jl
    case JobRunning(id, r, Begin) =>
      Some(At(Changed(s, r, Obj(s.mem, r).(status := Running)), Store1(ToParse)))
    case _ => None
  }

  function JobUpdate1(s: State): (r': Option<State>)
    ensures r'.Some? ==>
              && JobLeaves(s, r'.value) && QueuesLeft(s, r'.value) && TracksLeft(s, r'.value)
              && FlagsLeft(s, r'.value) && TallyLeft(s, r'.value) && FailedLeft(s, r'.value)
  {
    match s.jl
    case JobRunning(id, r, Store1(goto)) =>
      Some(At(s.(mem := Cached(s.mem, r, s.now, JobWorker)), Store2(goto)))
    case _ => None
  }

  function JobReturnsTo(goto: JobGoto): JobAt {
    match goto
    case ToFilter(i, f) => Filter(i, f)
    case _ => Parse
  }

  function JobUpdate2(s: State): (r': Option<State>)
    ensures r'.Some? ==>
              && JobLeaves(s, r'.value) && TracksLeft(s, r'.value) && FlagsLeft(s, r'.value)
              && TallyLeft(s, r'.value) && FailedLeft(s, r'.value) && ObjectsLeft(s, r'.value)
              && CacheLeft(s, r'.value)
  {
    match s.jl
    case JobRunning(id, r, Store2(goto)) =>
      var s1 := s.(mem := Put(s.mem, r, JobWorker));
      if goto.ToEnd? then Some(PhaseIs(s1, id, Ended).(jl := JobIdle)) else Some(At(s1, JobReturnsTo(goto)))
    case _ => None
  }

  /** The error text is never empty: every cause is reported with a text of its own. */
  function FailsParsing(s: State, message: string): (r': Option<State>)
    ensures r'.Some? ==>
              && JobLeaves(s, r'.value) && QueuesLeft(s, r'.value) && TracksLeft(s, r'.value)
              && FlagsLeft(s, r'.value) && TallyLeft(s, r'.value) && StoreKept(s, r'.value)
    ensures r'.Some? ==> !Updating(s.jl) && !JobHalf(r'.value.jl).Half?
  {
    match s.jl
    case JobRunning(id, r, Parse) =>
      if message == "" then None
      else
        var s1 := s.(hist := s.hist.(failed := s.hist.failed + {id}));
        Some(At(Changed(s1, r, Obj(s.mem, r).(status := Failed, error := message)), Store1(ToEnd)))
    case _ => None
  }

  function ParsesArchive(s: State, tweets: seq<Tweet>): (r': Option<State>)
    ensures r'.Some? ==>
              && JobLeaves(s, r'.value) && StoreLeft(s, r'.value) && FlagsLeft(s, r'.value)
              && TallyLeft(s, r'.value) && FailedLeft(s, r'.value)
    ensures r'.Some? ==> !Updating(s.jl) && !JobHalf(r'.value.jl).Half?
  {
    match s.jl
    case JobRunning(id, r, Parse) =>
      var found := map i: nat | i < |tweets| :: Occ(id, i) := Unfiltered;
      Some(At(s.(archive := s.archive[id := tweets], hist := s.hist.(place := s.hist.place + found)), Save(0)))
    case _ => None
  }

  /** A second tweet with the same ID violates the primary key; the first row stays. */
  function SavesTweet(s: State, ok: bool): (r': Option<State>)
    ensures r'.Some? ==>
              && JobLeaves(s, r'.value) && QueuesLeft(s, r'.value) && StoreLeft(s, r'.value)
              && FlagsLeft(s, r'.value) && TallyLeft(s, r'.value) && FailedLeft(s, r'.value)
    ensures r'.Some? ==> !Updating(s.jl) && !JobHalf(r'.value.jl).Half?
  {
    match s.jl
    case JobRunning(id, r, Save(i)) =>
      if i >= |Tweets(s, id)| then None
      else
        var k := KeyIn(s.archive, Occ(id, i));
        var s1 := if !ok then Faulty(s, k)
                  else if k in s.rows then s
                  else s.(rows := s.rows[k := TweetRow(TweetIn(s.archive, Occ(id, i)), false, false, s.now)]);
        Some(At(s1, Save(i + 1)))
    case _ => None
  }

  function SetsTotal(s: State): (r': Option<State>)
    ensures r'.Some? ==>
              && JobLeaves(s, r'.value) && QueuesLeft(s, r'.value) && FlagsLeft(s, r'.value)
              && TallyLeft(s, r'.value) && FailedLeft(s, r'.value) && StoreKept(s, r'.value)
    ensures r'.Some? ==> !Updating(s.jl) && !JobHalf(r'.value.jl).Half?
  {
    match s.jl
    case JobRunning(id, r, Save(i)) =>
      if i != |Tweets(s, id)| then None
      else Some(At(Changed(s, r, Obj(s.mem, r).(total := |Tweets(s, id)|)), Store1(ToFilter(0, 0))))
    case _ => None
  }

  function FlagsTweet(s: State, ok: bool): (r': Option<State>)
    ensures r'.Some? ==>
              && JobLeaves(s, r'.value) && QueuesLeft(s, r'.value) && StoreLeft(s, r'.value)
              && FailedLeft(s, r'.value)
    ensures r'.Some? ==> !Updating(s.jl) && !JobHalf(r'.value.jl).Half?
  {
    match s.jl
    case JobRunning(id, r, Filter(i, f)) =>
      var o := Occ(id, i);
      if i < |Tweets(s, id)| && FiltersFlag(s.cfg.policy, Obj(s.mem, r).criteria, TweetIn(s.archive, o)) then
        var t := TallyIn(s.hist.tally, id);
        var s1 := Counting(Placed(s, o, Flagging), id, t.(filterFlags := t.filterFlags + 1));
        var s2 := if ok then s1.(flagged := s.flagged + [FlaggedRow(o, TweetIn(s.archive, o).id, false)]) else s1;
        Some(At(s2, FlagSaved(i, f + 1)))
      else None
    case _ => None
  }

  function MarksFlagged(s: State, ok: bool): (r': Option<State>)
    ensures r'.Some? ==>
              && JobLeaves(s, r'.value) && QueuesLeft(s, r'.value) && StoreLeft(s, r'.value)
              && FlagsLeft(s, r'.value) && TallyLeft(s, r'.value) && FailedLeft(s, r'.value)
    ensures r'.Some? ==> !Updating(s.jl) && !JobHalf(r'.value.jl).Half?
  {
    match s.jl
    case JobRunning(id, r, FlagSaved(i, f)) =>
      var o := Occ(id, i);
      Some(At(Processing(Placed(s, o, FilterFlagged), KeyIn(s.archive, o), ok), Advance(i, f)))
    case _ => None
  }

  /** If the mark cannot be written the tweet is passed over and not counted. */
  function MarksTweet(s: State, ok: bool): (r': Option<State>)
    ensures r'.Some? ==>
              && JobLeaves(s, r'.value) && QueuesLeft(s, r'.value) && StoreLeft(s, r'.value)
              && FlagsLeft(s, r'.value) && FailedLeft(s, r'.value)
    ensures r'.Some? ==> !Updating(s.jl) && !JobHalf(r'.value.jl).Half?
  {
    match s.jl
    case JobRunning(id, r, Filter(i, f)) =>
      var o := Occ(id, i);
      var flag := FiltersFlag(s.cfg.policy, Obj(s.mem, r).criteria, TweetIn(s.archive, o));
      if i < |Tweets(s, id)| && !flag && s.cfg.hasScorer then
        if ok then
          Some(At(Placed(s, o, InJobHand).(rows := MarkNeeds(s.rows, KeyIn(s.archive, o))), Marked(i, f)))
        else
          var t := TallyIn(s.hist.tally, id);
          Some(At(Counting(Placed(s, o, Skipped), id, t.(skipped := t.skipped + 1)), Filter(i + 1, f)))
      else None
    case _ => None
  }

  /** The send blocks while the channel is full. */
  function SendsTweet(s: State): (r': Option<State>)
    ensures r'.Some? ==>
              && JobLeaves(s, r'.value) && StoreLeft(s, r'.value) && FlagsLeft(s, r'.value)
              && TallyLeft(s, r'.value) && FailedLeft(s, r'.value)
    ensures r'.Some? ==> !Updating(s.jl) && !JobHalf(r'.value.jl).Half?
  {
    match s.jl
    case JobRunning(id, r, Marked(i, f)) =>
      if ChannelTakes(s) then
        Some(At(Placed(s, Occ(id, i), InChannel).(tweetQ := s.tweetQ + [Occ(id, i)]), Advance(i, f)))
      else None
    case _ => None
  }

  function SkipsScorer(s: State, ok: bool): (r': Option<State>)
    ensures r'.Some? ==>
              && JobLeaves(s, r'.value) && QueuesLeft(s, r'.value) && StoreLeft(s, r'.value)
              && FlagsLeft(s, r'.value) && TallyLeft(s, r'.value) && FailedLeft(s, r'.value)
    ensures r'.Some? ==> !Updating(s.jl) && !JobHalf(r'.value.jl).Half?
  {
    match s.jl
    case JobRunning(id, r, Filter(i, f)) =>
      var o := Occ(id, i);
      var flag := FiltersFlag(s.cfg.policy, Obj(s.mem, r).criteria, TweetIn(s.archive, o));
      if i < |Tweets(s, id)| && !flag && !s.cfg.hasScorer then
        Some(At(Processing(Closing(Placed(s, o, Unscored), id), KeyIn(s.archive, o), ok), Advance(i, f)))
      else None
    case _ => None
  }

  /** Every hundredth tweet updates the job. */
  function AdvancesLoop(s: State): (r': Option<State>)
    ensures r'.Some? ==>
              && JobLeaves(s, r'.value) && QueuesLeft(s, r'.value) && FlagsLeft(s, r'.value)
              && FailedLeft(s, r'.value) && StoreKept(s, r'.value)
    ensures r'.Some? ==> !Updating(s.jl) && !JobHalf(r'.value.jl).Half?
  {
    match s.jl
    case JobRunning(id, r, Advance(i, f)) =>
      var t, job := TallyIn(s.hist.tally, id), Obj(s.mem, r);
      var s1 := Counting(s, id, t.(advanced := t.advanced + 1));
      var s2 := Changed(s1, r, job.(processed := job.processed + 1, flagged := f));
      Some(At(s2, if (job.processed + 1) % 100 == 0 then Store1(ToFilter(i + 1, f)) else Filter(i + 1, f)))
    case _ => None
  }

  function LeavesLoop(s: State): (r': Option<State>)
    ensures r'.Some? ==>
              && JobLeaves(s, r'.value) && QueuesLeft(s, r'.value) && FlagsLeft(s, r'.value)
              && TallyLeft(s, r'.value) && FailedLeft(s, r'.value) && StoreKept(s, r'.value)
    ensures r'.Some? ==> !Updating(s.jl) && !JobHalf(r'.value.jl).Half?
  {
    match s.jl
    case JobRunning(id, r, Filter(i, f)) =>
      if i != |Tweets(s, id)| then None
      else Some(At(Changed(s, r, Obj(s.mem, r).(flagged := f)), Store1(ToEnd)))
    case _ => None
  }

  // ------------------------------------------------------------------ the tweet loop

  datatype ScoreOutcome = Success(flag: bool) | QuotaSpent | Failure

  datatype TweetStep =
    | TweetTake
    | TweetCheck(ok: bool)
    | TweetPause(r: Ref, ok: bool)
    | TweetLoad(r: Ref, ok: bool)
    | TweetCriteria
    | TweetCall
    | TweetReturn(outcome: ScoreOutcome)
    | TweetCount(ok: bool)
    | TweetTally
    | TweetFlag(ok: bool)
    | TweetStore
    | TweetPut
    | TweetDone
    | TweetMark(ok: bool)
    | TweetResume
    | TweetRequeue
    | TweetDrop

  predicate TweetQueues(st: TweetStep) {
    st.TweetTake? || st.TweetRequeue? || st.TweetPut?
  }

  predicate TweetStores(st: TweetStep) {
    || st.TweetPause? || st.TweetLoad? || st.TweetReturn? || st.TweetTally?
    || st.TweetStore? || st.TweetPut? || st.TweetDone? || st.TweetResume?
  }

  predicate TweetTracks(st: TweetStep) {
    || st.TweetTake? || st.TweetReturn? || st.TweetTally? || st.TweetFlag?
    || st.TweetMark? || st.TweetRequeue? || st.TweetDrop?
  }

  predicate TweetCounts(st: TweetStep) {
    st.TweetCheck? || st.TweetReturn? || st.TweetCount?
  }

  function TweetNext(s: State, st: TweetStep): (r': Option<State>)
    ensures r'.Some? ==> TweetLeaves(s, r'.value) && HandOnly(s, r'.value)
    ensures r'.Some? && !TweetQueues(st) ==> QueuesLeft(s, r'.value)
    ensures r'.Some? && !TweetStores(st) ==> StoreLeft(s, r'.value)
    ensures r'.Some? && st.TweetPut? ==> ObjectsLeft(s, r'.value) && CacheLeft(s, r'.value)
    ensures r'.Some? && !st.TweetReturn? ==> TallyLeft(s, r'.value)
    ensures r'.Some? && !TweetTracks(st) ==> TracksLeft(s, r'.value)
    ensures r'.Some? && !TweetCounts(st) ==> QuotaLeft(s, r'.value)
    ensures r'.Some? && !st.TweetCriteria? && !st.TweetCall? ==> CriteriaLeft(s, r'.value)
    ensures r'.Some? && !st.TweetStore? && !st.TweetPut? ==>
              !TweetHalf(s.tl).Half? && !TweetHalf(r'.value.tl).Half? && StoreKept(s, r'.value)
  {
    match st
    case TweetTake => TakesTweet(s)
    case TweetCheck(ok) => ChecksQuota(s, ok)
    case TweetPause(r, ok) => PausesJob(s, r, ok)
    case TweetLoad(r, ok) => LoadsForTweet(s, r, ok)
    case TweetCriteria => SetsCriteria(s)
    case TweetCall => CallsScore(s)
    case TweetReturn(outcome) => ScoreReturns(s, outcome)
    case TweetCount(ok) => CountsQuota(s, ok)
    case TweetTally => TalliesScore(s)
    case TweetFlag(ok) => SavesFlag(s, ok)
    case TweetStore => TweetUpdate1(s)
    case TweetPut => TweetUpdate2(s)
    case TweetDone => ChecksDone(s)
    case TweetMark(ok) => MarksDone(s, ok)
    case TweetResume => ResumesJob(s)
    case TweetRequeue => RequeuesTweet(s)
    case TweetDrop => DropsTweet(s)
  }

  function TakesTweet(s: State): (r': Option<State>)
    ensures r'.Some? ==>
              && TweetLeaves(s, r'.value) && StoreLeft(s, r'.value) && QuotaLeft(s, r'.value)
              && TallyLeft(s, r'.value) && CriteriaLeft(s, r'.value)
    ensures r'.Some? ==> !TweetHalf(s.tl).Half? && !TweetHalf(r'.value.tl).Half?
  {
    if s.tl.TweetIdle? && s.tweetQ != [] then
      Some(Placed(s, s.tweetQ[0], InTweetHand).(tl := TweetHas(s.tweetQ[0], Check), tweetQ := s.tweetQ[1..]))
    else None
  }

  /** An unreadable quota lets the tweet pass. */
  function ChecksQuota(s: State, ok: bool): (r': Option<State>)
    ensures r'.Some? ==>
              && TweetLeaves(s, r'.value) && QueuesLeft(s, r'.value) && StoreLeft(s, r'.value)
              && TracksLeft(s, r'.value) && TallyLeft(s, r'.value) && CriteriaLeft(s, r'.value)
    ensures r'.Some? ==> !TweetHalf(s.tl).Half? && !TweetHalf(r'.value.tl).Half?
  {
    match s.tl
    case TweetHas(q, Check) =>
      var over := ok && Quota(s.quota, s.today) >= s.cfg.limit;
      var h := s.hist.(checkedOn := s.today, checkOk := ok, unchecked := s.hist.unchecked + if ok then 0 else 1);
      Some(TweetGoes(s.(hist := h), if over then OverQuota else Load))
    case _ => None
  }

  /** The tweet loop reads its job from the database into a new object. */
  function Reload(s: State, id: JobId, r: Ref): State
    requires id in s.mem.jobs
  {
    s.(mem := Alloc(s.mem, r, s.mem.jobs[id], TweetWorker),
       hist := s.hist.(loaded := s.mem.jobs[id],
                       mixed := if Unsettled(s, id) then s.hist.mixed + {id} else s.hist.mixed))
  }

  function PausesJob(s: State, r: Ref, ok: bool): (r': Option<State>)
    ensures r'.Some? ==>
              && TweetLeaves(s, r'.value) && QueuesLeft(s, r'.value) && TracksLeft(s, r'.value)
              && QuotaLeft(s, r'.value) && TallyLeft(s, r'.value) && StoreKept(s, r'.value)
              && CriteriaLeft(s, r'.value) && HandOnly(s, r'.value)
    ensures r'.Some? ==> !TweetHalf(s.tl).Half? && !TweetHalf(r'.value.tl).Half?
  {
    match s.tl
    case TweetHas(q, OverQuota) =>
      if r in s.mem.heap then None
      else if ok && q.job in s.mem.jobs then
        var paused := s.mem.jobs[q.job].(status := PausedQuota);
        Some(TweetGoes(Changed(Reload(s, q.job, r), r, paused), Holding(r, Put1(ToDrop))))
      else Some(TweetGoes(s, Drop))
    case _ => None
  }

  function LoadsForTweet(s: State, r: Ref, ok: bool): (r': Option<State>)
    ensures r'.Some? ==>
              && TweetLeaves(s, r'.value) && QueuesLeft(s, r'.value) && TracksLeft(s, r'.value)
              && QuotaLeft(s, r'.value) && TallyLeft(s, r'.value) && StoreKept(s, r'.value)
              && CriteriaLeft(s, r'.value) && HandOnly(s, r'.value)
    ensures r'.Some? ==> !TweetHalf(s.tl).Half? && !TweetHalf(r'.value.tl).Half?
  {
    match s.tl
    case TweetHas(q, Load) =>
      if r in s.mem.heap then None
      else if ok && q.job in s.mem.jobs then Some(TweetGoes(Reload(s, q.job, r), Holding(r, Loaded)))
      else Some(TweetGoes(s, Drop))
    case _ => None
  }

  function SetsCriteria(s: State): (r': Option<State>)
    ensures r'.Some? ==>
              && TweetLeaves(s, r'.value) && QueuesLeft(s, r'.value) && StoreLeft(s, r'.value)
              && TracksLeft(s, r'.value) && QuotaLeft(s, r'.value) && TallyLeft(s, r'.value)
    ensures r'.Some? ==> !TweetHalf(s.tl).Half? && !TweetHalf(r'.value.tl).Half?
  {
    match s.tl
    case TweetHas(q, Holding(r, Loaded)) =>
      Some(TweetGoes(s.(criteria := CriteriaFor(Obj(s.mem, r).criteria)), Holding(r, Ready)))
    case _ => None
  }

  /** `Score` builds its prompt from the criteria then in force. */
  function CallsScore(s: State): (r': Option<State>)
    ensures r'.Some? ==>
              && TweetLeaves(s, r'.value) && QueuesLeft(s, r'.value) && StoreLeft(s, r'.value)
              && TracksLeft(s, r'.value) && QuotaLeft(s, r'.value) && TallyLeft(s, r'.value)
    ensures r'.Some? ==> !TweetHalf(s.tl).Half? && !TweetHalf(r'.value.tl).Half?
  {
    match s.tl
    case TweetHas(q, Holding(r, Ready)) =>
      Some(TweetGoes(s.(hist := s.hist.(calls := s.hist.calls + [ScoreCall(q.job, s.criteria)])), Holding(r, InCall)))
    case _ => None
  }

  function ScoreReturns(s: State, outcome: ScoreOutcome): (r': Option<State>)
    ensures r'.Some? ==>
              && TweetLeaves(s, r'.value) && QueuesLeft(s, r'.value) && StoreKept(s, r'.value)
              && CriteriaLeft(s, r'.value) && HandOnly(s, r'.value)
    ensures r'.Some? ==> !TweetHalf(s.tl).Half? && !TweetHalf(r'.value.tl).Half?
  {
    match s.tl
    case TweetHas(q, Holding(r, InCall)) =>
      (match outcome
       case Success(flag) =>
         var t := TallyIn(s.hist.tally, q.job);
         var t' := t.(scored := t.scored + 1, scoredAt := t.scoredAt + {q.pos},
                      llmFlags := t.llmFlags + if flag then 1 else 0);
         var s1 := s.(hist := s.hist.(scorings := s.hist.scorings + 1));
         Some(TweetGoes(Counting(s1, q.job, t'), Holding(r, Succeeded(flag))))
       case QuotaSpent =>
         Some(TweetGoes(Changed(s, r, Obj(s.mem, r).(status := PausedQuota)), Holding(r, Put1(ToSleep))))
       case Failure => Some(TweetGoes(s, Mark(false))))
    case _ => None
  }

  function CountsQuota(s: State, ok: bool): (r': Option<State>)
    ensures r'.Some? ==>
              && TweetLeaves(s, r'.value) && QueuesLeft(s, r'.value) && StoreLeft(s, r'.value)
              && TracksLeft(s, r'.value) && TallyLeft(s, r'.value) && CriteriaLeft(s, r'.value)
    ensures r'.Some? ==> !TweetHalf(s.tl).Half? && !TweetHalf(r'.value.tl).Half?
  {
    match s.tl
    case TweetHas(q, Holding(r, Succeeded(flag))) =>
      var s1 := if ok then s.(quota := s.quota[s.today := Quota(s.quota, s.today) + 1])
                else s.(hist := s.hist.(uncounted := s.hist.uncounted + 1));
      Some(TweetGoes(s1, Holding(r, Counted(flag))))
    case _ => None
  }

  function TalliesScore(s: State): (r': Option<State>)
    ensures r'.Some? ==>
              && TweetLeaves(s, r'.value) && QueuesLeft(s, r'.value) && QuotaLeft(s, r'.value)
              && TallyLeft(s, r'.value) && StoreKept(s, r'.value) && CriteriaLeft(s, r'.value)
              && HandOnly(s, r'.value)
    ensures r'.Some? ==> !TweetHalf(s.tl).Half? && !TweetHalf(r'.value.tl).Half?
  {
    match s.tl
    case TweetHas(q, Holding(r, Counted(flag))) =>
      var job := Obj(s.mem, r);
      var job' := job.(gemini := job.gemini + 1, processed := job.processed + 1,
                       flagged := job.flagged + if flag then 1 else 0);
      Some(TweetGoes(Changed(s, r, job'), Holding(r, if flag then Tallied else Put1(ToDone))))
    case _ => None
  }

  function SavesFlag(s: State, ok: bool): (r': Option<State>)
    ensures r'.Some? ==>
              && TweetLeaves(s, r'.value) && QueuesLeft(s, r'.value) && StoreLeft(s, r'.value)
              && QuotaLeft(s, r'.value) && TallyLeft(s, r'.value) && CriteriaLeft(s, r'.value)
    ensures r'.Some? ==> !TweetHalf(s.tl).Half? && !TweetHalf(r'.value.tl).Half?
  {
    match s.tl
    case TweetHas(q, Holding(r, Tallied)) =>
      var s1 := if ok then s.(flagged := s.flagged + [FlaggedRow(q, TweetIn(s.archive, q).id, true)]) else s;
      Some(TweetGoes(s1, Holding(r, Put1(ToDone))))
    case _ => None
  }

  function TweetUpdate1(s: State): (r': Option<State>)
    ensures r'.Some? ==>
              && TweetLeaves(s, r'.value) && QueuesLeft(s, r'.value) && TracksLeft(s, r'.value)
              && QuotaLeft(s, r'.value) && TallyLeft(s, r'.value) && CriteriaLeft(s, r'.value)
              && HandOnly(s, r'.value)
  {
    match s.tl
    case TweetHas(q, Holding(r, Put1(goto))) =>
      Some(TweetGoes(s.(mem := Cached(s.mem, r, s.now, TweetWorker)), Holding(r, Put2(goto))))
    case _ => None
  }

  function TweetReturnsTo(r: Ref, goto: TweetGoto): TweetAt {
    match goto
    case ToDone => Holding(r, CheckDone)
    case ToMark => Mark(true)
    case ToSleep => Holding(r, Sleeping)
    case ToRequeue => Requeue
    case ToDrop => Drop
  }

  function TweetUpdate2(s: State): (r': Option<State>)
    ensures r'.Some? ==>
              && TweetLeaves(s, r'.value) && TracksLeft(s, r'.value) && QuotaLeft(s, r'.value)
              && TallyLeft(s, r'.value) && ObjectsLeft(s, r'.value) && CriteriaLeft(s, r'.value)
              && HandOnly(s, r'.value) && CacheLeft(s, r'.value)
  {
    match s.tl
    case TweetHas(q, Holding(r, Put2(goto))) =>
      Some(TweetGoes(s.(mem := Put(s.mem, r, TweetWorker)), TweetReturnsTo(r, goto)))
    case _ => None
  }

  function ChecksDone(s: State): (r': Option<State>)
    ensures r'.Some? ==>
              && TweetLeaves(s, r'.value) && QueuesLeft(s, r'.value) && TracksLeft(s, r'.value)
              && QuotaLeft(s, r'.value) && TallyLeft(s, r'.value) && StoreKept(s, r'.value)
              && CriteriaLeft(s, r'.value) && HandOnly(s, r'.value)
    ensures r'.Some? ==> !TweetHalf(s.tl).Half? && !TweetHalf(r'.value.tl).Half?
  {
    match s.tl
    case TweetHas(q, Holding(r, CheckDone)) =>
      var job := Obj(s.mem, r);
      if job.processed >= job.total
      then Some(TweetGoes(Changed(s, r, job.(status := Done)), Holding(r, Put1(ToMark))))
      else Some(TweetGoes(s, Mark(true)))
    case _ => None
  }

  function MarksDone(s: State, ok: bool): (r': Option<State>)
    ensures r'.Some? ==>
              && TweetLeaves(s, r'.value) && QueuesLeft(s, r'.value) && StoreLeft(s, r'.value)
              && QuotaLeft(s, r'.value) && TallyLeft(s, r'.value) && CriteriaLeft(s, r'.value)
    ensures r'.Some? ==> !TweetHalf(s.tl).Half? && !TweetHalf(r'.value.tl).Half?
  {
    match s.tl
    case TweetHas(q, Mark(scored)) =>
      var s1 := if scored then Placed(s, q, Scored) else Closing(Placed(s, q, ScoreFailed), q.job);
      Some(Processing(s1, KeyIn(s.archive, q), ok).(tl := TweetIdle))
    case _ => None
  }

  function ResumesJob(s: State): (r': Option<State>)
    ensures r'.Some? ==>
              && TweetLeaves(s, r'.value) && QueuesLeft(s, r'.value) && TracksLeft(s, r'.value)
              && QuotaLeft(s, r'.value) && TallyLeft(s, r'.value) && StoreKept(s, r'.value)
              && CriteriaLeft(s, r'.value) && HandOnly(s, r'.value)
    ensures r'.Some? ==> !TweetHalf(s.tl).Half? && !TweetHalf(r'.value.tl).Half?
  {
    match s.tl
    case TweetHas(q, Holding(r, Sleeping)) =>
      Some(TweetGoes(Changed(s, r, Obj(s.mem, r).(status := Running)), Holding(r, Put1(ToRequeue))))
    case _ => None
  }

  /** The tweet loop sends to the channel that only it receives from. */
  function RequeuesTweet(s: State): (r': Option<State>)
    ensures r'.Some? ==>
              && TweetLeaves(s, r'.value) && StoreLeft(s, r'.value) && QuotaLeft(s, r'.value)
              && TallyLeft(s, r'.value) && CriteriaLeft(s, r'.value)
    ensures r'.Some? ==> !TweetHalf(s.tl).Half? && !TweetHalf(r'.value.tl).Half?
  {
    match s.tl
    case TweetHas(q, Requeue) =>
      if |s.tweetQ| < s.cfg.tweetCap then
        Some(Placed(s, q, InChannel).(tweetQ := s.tweetQ + [q], tl := TweetIdle))
      else None
    case _ => None
  }

  function DropsTweet(s: State): (r': Option<State>)
    ensures r'.Some? ==>
              && TweetLeaves(s, r'.value) && QueuesLeft(s, r'.value) && StoreLeft(s, r'.value)
              && QuotaLeft(s, r'.value) && TallyLeft(s, r'.value) && CriteriaLeft(s, r'.value)
    ensures r'.Some? ==> !TweetHalf(s.tl).Half? && !TweetHalf(r'.value.tl).Half?
  {
    match s.tl
    case TweetHas(q, Drop) => Some(Placed(s, q, Dropped).(tl := TweetIdle))
    case _ => None
  }

  // ------------------------------------------------------------------ callers, flusher, clock

  datatype OtherStep =
    | EnqueueSave(id: JobId, r: Ref, fileId: FileId, criteria: Option<Criteria>, ok: bool)
    | EnqueueStore(id: JobId)
    | EnqueueSend(id: JobId)
    | GetMiss(id: JobId)
    | GetRead(id: JobId, r: Ref)
    | GetStore(r: Ref)
    | FlushTake
    | FlushWrite(id: JobId, ok: bool)
    | Tick(now: Time, today: Day)

  /** Steps that make an object or write a row. */
  predicate OtherWrites(st: OtherStep) {
    st.EnqueueSave? || st.GetRead? || st.FlushWrite?
  }

  function OtherNext(s: State, st: OtherStep): (r': Option<State>)
    ensures r'.Some? ==> OtherLeaves(s, r'.value)
    ensures r'.Some? && !st.EnqueueSave? ==> TallyLeft(s, r'.value) && r'.value.hist.uploads == s.hist.uploads
    ensures r'.Some? && !OtherWrites(st) ==> ObjectsLeft(s, r'.value)
  {
    match st
    case EnqueueSave(id, r, fileId, criteria, ok) => SavesNewJob(s, id, r, fileId, criteria, ok)
    case EnqueueStore(id) => CachesNewJob(s, id)
    case EnqueueSend(id) => SendsNewJob(s, id)
    case GetMiss(id) => if id in s.mem.cache then None else Some(s.(missed := s.missed + {id}))
    case GetRead(id, r) => ReadsMissed(s, id, r)
    case GetStore(r) => CachesRead(s, r)
    case FlushTake =>
      if s.mem.batch == map[] && s.mem.pending != map[] then Some(s.(mem := TakeBatch(s.mem))) else None
    case FlushWrite(id, ok) => if id in s.mem.batch then Some(s.(mem := WriteOne(s.mem, id, ok))) else None
    case Tick(now, today) =>
      if s.now <= now && s.today <= today then Some(s.(now := now, today := today)) else None
  }

  /** Job IDs are fresh.  A failed first save is only logged. */
  function SavesNewJob(s: State, id: JobId, r: Ref, fileId: FileId, criteria: Option<Criteria>,
                       ok: bool): (r': Option<State>)
    ensures r'.Some? ==> OtherLeaves(s, r'.value)
  {
    if r !in s.mem.heap && id !in s.hist.uploads && id !in s.mem.jobs && id !in s.mem.cache
       && (forall k :: k in s.rows ==> k.job != id)
       && (forall k :: k in s.mem.heap ==> s.mem.heap[k].id != id) then
      var job := Job(id, fileId, Queued, 0, 0, 0, 0, criteria, "", s.now, s.now);
      var m := Alloc(s.mem, r, job, Uploader);
      Some(s.(mem := m.(latest := m.latest[id := r], log := Noted(m.log, id, Hands(Uploader)),
                        jobs := if ok then SaveJob(m.jobs, job) else m.jobs,
                        lost := if ok then m.lost - {id} else m.lost + {id}),
              callers := s.callers[id := Caller(r, false)],
              hist := s.hist.(uploads := s.hist.uploads[id := Upload(fileId, criteria, s.now)],
                              phase := s.hist.phase[id := Entering],
                              tally := s.hist.tally[id := NO_EVENTS])))
    else None
  }

  function CachesNewJob(s: State, id: JobId): (r': Option<State>)
    ensures r'.Some? ==> OtherLeaves(s, r'.value) && TallyLeft(s, r'.value) && ObjectsLeft(s, r'.value)
  {
    if id in s.callers && !s.callers[id].stored then
      var r := s.callers[id].ref;
      Some(s.(mem := s.mem.(cache := s.mem.cache[id := r], log := Noted(s.mem.log, id, Stores(Uploader))),
              callers := s.callers[id := Caller(r, true)]))
    else None
  }

  function SendsNewJob(s: State, id: JobId): (r': Option<State>)
    ensures r'.Some? ==> OtherLeaves(s, r'.value) && StoreLeft(s, r'.value)
  {
    if id in s.callers && s.callers[id].stored && JobChannelTakes(s) then
      Some(PhaseIs(s, id, Waiting).(callers := s.callers - {id}, jobQ := s.jobQ + [id]))
    else None
  }

  /** `missed` holds the jobs some caller of `GetJob` has not found in the cache; any number of those callers
      may still be on their way to the database. */
  function ReadsMissed(s: State, id: JobId, r: Ref): (r': Option<State>)
    ensures r'.Some? ==> OtherLeaves(s, r'.value) && TallyLeft(s, r'.value)
  {
    if id in s.missed && id in s.mem.jobs && r !in s.mem.heap then
      Some(s.(mem := Alloc(s.mem, r, s.mem.jobs[id], Reader), readers := s.readers + {r}))
    else None
  }

  /** The cache is overwritten with what was read, however old it is by now. */
  function CachesRead(s: State, r: Ref): (r': Option<State>)
    ensures r'.Some? ==> OtherLeaves(s, r'.value) && TallyLeft(s, r'.value) && ObjectsLeft(s, r'.value)
  {
    if r in s.readers then
      Some(s.(mem := Shown(s.mem, r, Reader), readers := s.readers - {r}))
    else None
  }

  // ------------------------------------------------------------------ runs

  datatype Step = J(js: JobStep) | T(ts: TweetStep) | O(os: OtherStep)

  function Next(s: State, st: Step): Option<State> {
    match st
    case J(js) => JobNext(s, js)
    case T(ts) => TweetNext(s, ts)
    case O(os) => OtherNext(s, os)
  }

  ghost predicate Link(run: seq<State>, steps: seq<Step>, i: nat)
    requires i < |steps| && |run| == |steps| + 1
  {
    Next(run[i], steps[i]) == Some(run[i + 1])
  }

  /** The states of a run, each by a step from the one before. */
  ghost predicate IsRun(run: seq<State>, steps: seq<Step>) {
    |run| == |steps| + 1 && forall i {:trigger Link(run, steps, i)} :: 0 <= i < |steps| ==> Link(run, steps, i)
  }

  /** Some run leads from `s` to `t`. */
  ghost predicate Reaches(s: State, t: State) {
    exists run, steps :: IsRun(run, steps) && run[0] == s && run[|steps|] == t
  }

  ghost predicate Reachable(s: State) {
    exists s0 :: Init(s0) && Reaches(s0, s)
  }

  lemma ReachesSelf(s: State)
    ensures Reaches(s, s)
  {
    assert IsRun([s], []);
  }

  lemma ReachesThen(s: State, t: State, st: Step, u: State)
    requires Reaches(s, t) && Next(t, st) == Some(u)
    ensures Reaches(s, u)
  {
    var run, steps :| IsRun(run, steps) && run[0] == s && run[|steps|] == t;
    RunGrows(run, steps, st, u);
  }

  lemma RunGrows(run: seq<State>, steps: seq<Step>, st: Step, u: State)
    requires IsRun(run, steps) && Next(run[|steps|], st) == Some(u)
    ensures IsRun(run + [u], steps + [st])
  {
    forall i | 0 <= i < |steps| + 1 ensures Link(run + [u], steps + [st], i) {
      assert i < |steps| ==> Link(run, steps, i);
    }
  }

  lemma ReachesTrans(s: State, t: State, u: State)
    requires Reaches(s, t) && Reaches(t, u)
    ensures Reaches(s, u)
  {
    var first, steps :| IsRun(first, steps) && first[0] == s && first[|steps|] == t;
    var rest, more :| IsRun(rest, more) && rest[0] == t && rest[|more|] == u;
    RunsJoin(first, steps, rest, more);
    var run := first + rest[1..];
    assert run[0] == s && run[|steps + more|] == u;
  }

  lemma RunsJoin(first: seq<State>, steps: seq<Step>, rest: seq<State>, more: seq<Step>)
    requires IsRun(first, steps) && IsRun(rest, more) && first[|steps|] == rest[0]
    ensures IsRun(first + rest[1..], steps + more)
  {
    var run, all := first + rest[1..], steps + more;
    forall i | 0 <= i < |all| ensures Link(run, all, i) {
      if i < |steps| {
        assert Link(first, steps, i);
      } else {
        assert Link(rest, more, i - |steps|);
      }
    }
  }

  /** At start nothing runs and nothing is in memory; the database may hold jobs and tweets of earlier runs,
      and a quota table that is within the limit and has no days to come. */
  ghost predicate Init(s: State) {
    && s.mem == Store(map[], map[], map[], map[], s.mem.jobs, map[], {}, {}, map[], map[])
    && (forall id :: id in s.mem.jobs ==> s.mem.jobs[id].id == id)
    && s.jobQ == [] && s.tweetQ == [] && s.jl == JobIdle && s.tl == TweetIdle
    && s.callers == map[] && s.missed == {} && s.readers == {}
    && s.criteria == DEFAULT_CRITERIA
    && s.archive == map[] && s.flagged == []
    && (forall d :: d in s.quota ==> d <= s.today && s.quota[d] <= Cap(s.cfg))
    && s.hist == History(map[], map[], map[], map[], map[], {}, {}, {}, [], 0, 0, 0, 0, true, BLANK)
  }

  /** The daily limit, or 0 if it is negative. */
  function Cap(c: Config): nat {
    if c.limit > 0 then c.limit else 0
  }
}
