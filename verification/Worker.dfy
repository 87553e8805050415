/** The worker's code, run without interference.  `PipelineRefinement` shows that what these methods do is what
  runs of the step machine do; there, other actors may come between any two steps. */
module Workers {
  import opened Model
  import opened Pipeline
  import opened Repositories
  import Filters

  // ------------------------------------------------------------------ phase 1, on values

  /** The rows after the first `n` tweets of an archive were saved, or not. */
  function SavedRows(rows: map<Key, TweetRow>, id: JobId, tweets: seq<Tweet>, n: nat, now: Time,
                     saves: nat -> bool): map<Key, TweetRow>
    requires n <= |tweets|
  {
    if n == 0 then rows
    else
      var before, t := SavedRows(rows, id, tweets, n - 1, now, saves), tweets[n - 1];
      if saves(n - 1) && Key(id, t.id) !in before then before[Key(id, t.id) := TweetRow(t, false, false, now)]
      else before
  }

  /** Of tweets with the same ID the row is that of the first whose write succeeds; rows that are there stay. */
  lemma {:induction false} FirstSavedWins(rows: map<Key, TweetRow>, id: JobId, tweets: seq<Tweet>, n: nat, now: Time,
                                          saves: nat -> bool, k: Key)
    requires n <= |tweets|
    ensures var after := SavedRows(rows, id, tweets, n, now, saves);
            if k in rows then k in after && after[k] == rows[k]
            else if k.job != id then k !in after
            else if k in after then
              exists p :: 0 <= p < n && saves(p) && tweets[p].id == k.tweet
                          && after[k] == TweetRow(tweets[p], false, false, now)
                          && forall q :: 0 <= q < p && saves(q) ==> tweets[q].id != k.tweet
            else forall p :: 0 <= p < n && saves(p) ==> tweets[p].id != k.tweet
  {
    if n == 0 {
    } else {
      FirstSavedWins(rows, id, tweets, n - 1, now, saves, k);
    }
  }

  /** What reading the archive yields. */
  datatype Parsed = Archive(tweets: seq<Tweet>) | Unreadable(message: string)

  /** The job as phase 1 leaves it. */
  function AfterParsing(j: Job, parsed: Parsed, now: Time): Job {
    match parsed
    case Archive(tweets) => j.(status := Running, total := |tweets|, updatedAt := now)
    case Unreadable(message) => j.(status := Status.Failed, error := message, updatedAt := now)
  }

  // ------------------------------------------------------------------ phase 2, on values

  /** What phase 2 depends on besides its job and tweets: the configuration, the clock, and which writes succeed,
      by position in the archive. */
  datatype Surroundings = Surroundings(
    policy: Option<seq<string>>, hasScorer: bool, queueSize: nat, now: Time,
    saves: nat -> bool,         // the flagged row
    marks: nat -> bool)         // the mark on the tweet's row

  /** Phase 2 before tweet `next`; `reports` is what the loop has handed over for writing so far. */
  datatype PhaseTwo = PhaseTwo(
    job: Job, reports: seq<Job>, next: nat, needsGemini: nat, flags: nat,
    rows: map<Key, TweetRow>, flagged: seq<FlaggedRow>, queue: seq<Occurrence>, blocked: bool)

  predicate ToFlag(p: PhaseTwo, t: Tweet, around: Surroundings) {
    FiltersFlag(around.policy, p.job.criteria, t)
  }

  /** The send of this tweet waits. */
  predicate SendWaits(p: PhaseTwo, t: Tweet, around: Surroundings) {
    !ToFlag(p, t, around) && around.hasScorer && around.marks(p.next) && |p.queue| >= around.queueSize
  }

  predicate PassedOver(p: PhaseTwo, t: Tweet, around: Surroundings) {
    !ToFlag(p, t, around) && around.hasScorer && !around.marks(p.next)
  }

  /** The tweet is flagged, or queued, or closed. */
  function Handled(p: PhaseTwo, t: Tweet, around: Surroundings): PhaseTwo {
    var o, k, i := Occ(p.job.id, p.next), Key(p.job.id, t.id), p.next;
    if ToFlag(p, t, around) then
      p.(flags := p.flags + 1,
         flagged := if around.saves(i) then p.flagged + [FlaggedRow(o, t.id, false)] else p.flagged,
         rows := if around.marks(i) then MarkProcessed(p.rows, k) else p.rows)
    else if around.hasScorer then
      p.(needsGemini := p.needsGemini + 1, rows := MarkNeeds(p.rows, k), queue := p.queue + [o])
    else
      p.(rows := if around.marks(i) then MarkProcessed(p.rows, k) else p.rows)
  }

  /** The end of the loop body: every hundredth tweet is reported. */
  function CountedOn(p: PhaseTwo, now: Time): PhaseTwo {
    var j := p.job.(processed := p.job.processed + 1, flagged := p.flags);
    if j.processed % 100 == 0 then
      p.(next := p.next + 1, job := j.(updatedAt := now), reports := p.reports + [j.(updatedAt := now)])
    else
      p.(next := p.next + 1, job := j)
  }

  /** One turn of the loop. */
  function Turn(p: PhaseTwo, t: Tweet, around: Surroundings): PhaseTwo {
    if SendWaits(p, t, around) then
      p.(blocked := true, needsGemini := p.needsGemini + 1, rows := MarkNeeds(p.rows, Key(p.job.id, t.id)))
    else if PassedOver(p, t, around) then p.(next := p.next + 1)
    else CountedOn(Handled(p, t, around), around.now)
  }

  /** The loop up to tweet `n`, or until it waits. */
  function Turns(p: PhaseTwo, tweets: seq<Tweet>, around: Surroundings, n: nat): PhaseTwo
    requires p.next <= n <= |tweets|
    decreases n - p.next
  {
    if p.next == n || p.blocked then p
    else if SendWaits(p, tweets[p.next], around) then Turn(p, tweets[p.next], around)
    else Turns(Turn(p, tweets[p.next], around), tweets, around, n)
  }

  lemma {:induction false} LastTurn(p: PhaseTwo, tweets: seq<Tweet>, around: Surroundings, n: nat)
    requires p.next <= n < |tweets|
    ensures var q := Turns(p, tweets, around, n);
            Turns(p, tweets, around, n + 1) == if q.blocked then q else Turn(q, tweets[n], around)
    ensures var q := Turns(p, tweets, around, n); q.blocked || q.next == n
    decreases n - p.next
  {
    if p.next == n || p.blocked || SendWaits(p, tweets[p.next], around) {
    } else {
      LastTurn(Turn(p, tweets[p.next], around), tweets, around, n);
    }
  }

  lemma {:induction false} BlockedStays(p: PhaseTwo, tweets: seq<Tweet>, around: Surroundings, n: nat)
    requires p.next <= n <= |tweets| && Turns(p, tweets, around, n).blocked
    ensures Turns(p, tweets, around, |tweets|) == Turns(p, tweets, around, n)
    decreases n - p.next
  {
    if p.next == n || p.blocked || SendWaits(p, tweets[p.next], around) {
    } else {
      BlockedStays(Turn(p, tweets[p.next], around), tweets, around, n);
    }
  }

  lemma NextTurn(start: PhaseTwo, tweets: seq<Tweet>, around: Surroundings, i: nat, p: PhaseTwo, q: PhaseTwo)
    requires start.next <= i < |tweets| && p == Turns(start, tweets, around, i) && !p.blocked
    requires q == Turn(p, tweets[i], around)
    ensures q == Turns(start, tweets, around, i + 1)
    ensures q.blocked ==> q == Turns(start, tweets, around, |tweets|)
  {
    LastTurn(start, tweets, around, i);
    if q.blocked {
      BlockedStays(start, tweets, around, i + 1);
    }
  }

  // ------------------------------------------------------------------ phase 3, on values

  /** What phase 3 of one tweet depends on: which reads and writes succeed, how `Score` ends, and the clock and
      the day, before and after the sleep until the quota is reset. */
  datatype Circumstances = Circumstances(
    quotaReadable: bool, jobReadable: bool, outcome: ScoreOutcome,
    counts: bool, saves: bool, marks: bool, now: Time, today: Day, later: Time, nextDay: Day)

  function WithScore(j: Job, flag: bool): Job {
    j.(gemini := j.gemini + 1, processed := j.processed + 1, flagged := j.flagged + if flag then 1 else 0)
  }

  /** The job after a tweet of it was scored. */
  function AfterScore(j: Job, flag: bool, now: Time): Job {
    var k := WithScore(j, flag).(updatedAt := now);
    if k.processed >= k.total then k.(status := Done) else k
  }

  /** What is handed over after a score, given the counted and stamped job. */
  function ScoreReports(j: Job): seq<Job> {
    if j.processed >= j.total then [j, j.(status := Done)] else [j]
  }

  /** What is handed over around the sleep until the API's quota is reset. */
  function QuotaReports(j: Job, given: Circumstances): seq<Job> {
    [j.(status := PausedQuota, updatedAt := given.now), j.(status := Running, updatedAt := given.later)]
  }

  function ReportsAfter(j: Job, given: Circumstances): seq<Job> {
    match given.outcome
    case Failure => []
    case QuotaSpent => QuotaReports(j, given)
    case Success(flag) => ScoreReports(WithScore(j, flag).(updatedAt := given.now))
  }

  // ------------------------------------------------------------------ flushing, on values

  /** The rows after the jobs in `written` have been saved, each if its write succeeds. */
  ghost predicate FlushedTo(before: map<JobId, Job>, values: map<JobId, Job>, written: set<JobId>,
                            succeeds: JobId -> bool, after: map<JobId, Job>) {
    forall id ::
      if id in values && id in written && succeeds(id)
      then id in after && after[id] == SaveJob(before, values[id])[values[id].id]
      else (id in after <==> id in before) && (id in before ==> after[id] == before[id])
  }

  lemma FlushOne(before: map<JobId, Job>, values: map<JobId, Job>, written: set<JobId>, succeeds: JobId -> bool,
                 after: map<JobId, Job>, id: JobId)
    requires FlushedTo(before, values, written, succeeds, after) && id in values && id !in written
    requires values[id].id == id
    ensures FlushedTo(before, values, written + {id}, succeeds,
                      if succeeds(id) then SaveJob(after, values[id]) else after)
  {
  }

  /** Column by column: a row that was written is that of the job, and the others are as they were. */
  ghost predicate RowsWritten(before: map<JobId, Job>, values: map<JobId, Job>, succeeds: JobId -> bool,
                              after: map<JobId, Job>) {
    && (forall id :: id in values && succeeds(id) ==> id in after && IsSaved(before, values[id], after[id]))
    && forall id :: id !in values || !succeeds(id) ==>
         (id in after <==> id in before) && (id in before ==> after[id] == before[id])
  }

  lemma FlushWrites(before: map<JobId, Job>, values: map<JobId, Job>, succeeds: JobId -> bool, after: map<JobId, Job>)
    requires FlushedTo(before, values, values.Keys, succeeds, after)
    requires forall id :: id in values ==> values[id].id == id
    ensures RowsWritten(before, values, succeeds, after)
  {
    forall id | id in values && succeeds(id) ensures id in after && IsSaved(before, values[id], after[id]) {
      SaveJobSaves(before, values[id]);
    }
  }

  ghost function Values(m: map<JobId, JobRecord>): map<JobId, Job>
    reads m.Values
  {
    map id | id in m :: m[id].Value()
  }

  ghost predicate JobsKeyed(jobs: map<JobId, Job>) {
    forall id :: id in jobs ==> jobs[id].id == id
  }

  lemma FlushKeepsKeys(before: map<JobId, Job>, values: map<JobId, Job>, succeeds: JobId -> bool,
                       after: map<JobId, Job>)
    requires FlushedTo(before, values, values.Keys, succeeds, after) && JobsKeyed(before)
    requires forall id :: id in values ==> values[id].id == id
    ensures JobsKeyed(after)
  {
  }

  // ------------------------------------------------------------------ the worker

  datatype Filtering = Goes | Passes | Waits

  class Worker {
    const repo: Repository
    const hasScorer: bool
    const policy: Option<seq<string>>
    const dailyQuotaLimit: int
    const jobQueueSize: nat
    const tweetQueueSize: nat
    var cache: map<JobId, JobRecord>
    var updates: map<JobId, JobRecord>
    var tweetQueue: seq<Occurrence>
    var jobQueue: seq<JobId>
    var criteria: Criteria          // of the scorer
    ghost var reports: seq<Job>     // what `UpdateJob` was given, in order

    constructor (repo: Repository, hasScorer: bool, policy: Option<seq<string>>, dailyQuotaLimit: int,
                 jobQueueSize: nat, tweetQueueSize: nat)
      requires JobsKeyed(repo.jobs)
      ensures this.repo == repo && this.hasScorer == hasScorer && this.policy == policy
      ensures this.dailyQuotaLimit == dailyQuotaLimit
      ensures this.jobQueueSize == jobQueueSize && this.tweetQueueSize == tweetQueueSize
      ensures Valid() && reports == []
      ensures cache == map[] && updates == map[] && tweetQueue == [] && jobQueue == [] && criteria == DEFAULT_CRITERIA
    {
      this.repo, this.hasScorer, this.policy := repo, hasScorer, policy;
      this.dailyQuotaLimit, this.jobQueueSize, this.tweetQueueSize := dailyQuotaLimit, jobQueueSize, tweetQueueSize;
      cache, updates, tweetQueue, jobQueue, criteria, reports := map[], map[], [], [], DEFAULT_CRITERIA, [];
    }

    /** Records and rows are kept under their own IDs. */
    ghost predicate Valid()
      reads this, repo
    {
      && (forall id :: id in cache ==> cache[id].id == id)
      && (forall id :: id in updates ==> updates[id].id == id)
      && JobsKeyed(repo.jobs)
    }

    /** A new job: into the database, into the cache, and to the job loop, for which the caller has to wait while
        the channel is full. */
    method EnqueueParse(id: JobId, fileId: FileId, criteria: Option<Criteria>, now: Time, saved: bool, ghost r: Ref)
      returns (job: JobRecord, blocked: bool)
      requires Valid()
      modifies this`cache, this`jobQueue, repo`jobs
      ensures Valid() && fresh(job)
      ensures job.Value() == Job(id, fileId, Queued, 0, 0, 0, 0, criteria, "", now, now)
      ensures cache == old(cache)[id := job] && blocked == (|old(jobQueue)| >= jobQueueSize)
      ensures jobQueue == if blocked then old(jobQueue) else old(jobQueue) + [id]
      ensures repo.jobs == if saved then SaveJob(old(repo.jobs), job.Value()) else old(repo.jobs)
    {
      job := new JobRecord(r, Job(id, fileId, Queued, 0, 0, 0, 0, criteria, "", now, now));
      repo.SaveJob(job, saved);
      cache := cache[id := job];
      blocked := |jobQueue| >= jobQueueSize;
      if !blocked {
        jobQueue := jobQueue + [id];
      }
    }

    /** Into the cache now, into the database with the next flush. */
    method UpdateJob(job: JobRecord, now: Time)
      modifies this`cache, this`updates, this`reports, job`updatedAt
      ensures job.Value() == old(job.Value()).(updatedAt := now)
      ensures cache == old(cache)[job.id := job] && updates == old(updates)[job.id := job]
      ensures reports == old(reports) + [job.Value()]
    {
      job.updatedAt := now;
      cache := cache[job.id := job];
      updates := updates[job.id := job];
      reports := reports + [job.Value()];
    }

    /** The writes of a flush, one for each job, in any order. */
    method WriteJobs(jobsToUpdate: map<JobId, JobRecord>, succeeds: JobId -> bool)
      requires forall id :: id in jobsToUpdate ==> jobsToUpdate[id].id == id
      modifies repo`jobs
      ensures FlushedTo(old(repo.jobs), Values(jobsToUpdate), jobsToUpdate.Keys, succeeds, repo.jobs)
      ensures RowsWritten(old(repo.jobs), Values(jobsToUpdate), succeeds, repo.jobs)
    {
      ghost var values := Values(jobsToUpdate);
      var left := jobsToUpdate.Keys;
      while left != {}
        invariant left <= jobsToUpdate.Keys && Values(jobsToUpdate) == values
        invariant FlushedTo(old(repo.jobs), values, jobsToUpdate.Keys - left, succeeds, repo.jobs)
        decreases |left|
      {
        var id :| id in left;
        FlushOne(old(repo.jobs), values, jobsToUpdate.Keys - left, succeeds, repo.jobs, id);
        repo.SaveJob(jobsToUpdate[id], succeeds(id));
        assert jobsToUpdate.Keys - (left - {id}) == jobsToUpdate.Keys - left + {id};
        left := left - {id};
      }
      assert jobsToUpdate.Keys - left == jobsToUpdate.Keys;
      FlushWrites(old(repo.jobs), values, succeeds, repo.jobs);
    }

    /** Each pending job is written once; where a write fails the row stays and the update is gone. */
    method FlushJobUpdates(succeeds: JobId -> bool)
      requires Valid()
      modifies this`updates, repo`jobs
      ensures Valid() && updates == map[]
      ensures FlushedTo(old(repo.jobs), Values(old(updates)), old(updates).Keys, succeeds, repo.jobs)
      ensures RowsWritten(old(repo.jobs), Values(old(updates)), succeeds, repo.jobs)
    {
      if |updates| == 0 {
        return;
      }
      var jobsToUpdate := updates;
      updates := map[];
      WriteJobs(jobsToUpdate, succeeds);
      FlushKeepsKeys(old(repo.jobs), Values(jobsToUpdate), succeeds, repo.jobs);
    }

    /** From the cache, or else from the database into the cache. */
    method GetJob(id: JobId, readable: bool, ghost r: Ref) returns (job: Option<JobRecord>)
      requires Valid()
      modifies this`cache
      ensures Valid()
      ensures id in old(cache) ==> job == Some(old(cache)[id]) && cache == old(cache)
      ensures id !in old(cache) && readable && id in repo.jobs ==>
                && job.Some? && fresh(job.value) && job.value.Value() == repo.jobs[id]
                && cache == old(cache)[id := job.value]
      ensures id !in old(cache) && !(readable && id in repo.jobs) ==> job == None && cache == old(cache)
    {
      if id in cache {
        return Some(cache[id]);
      }
      var row := repo.GetJob(id, readable);
      if row.Some? {
        var record := new JobRecord(r, row.value);
        cache := cache[id := record];
        return Some(record);
      }
      return None;
    }

    /** The end of phase 1.  A tweet that cannot be saved is passed over. */
    method SaveTweets(id: JobId, tweets: seq<Tweet>, now: Time, saves: nat -> bool)
      modifies repo`rows
      ensures repo.rows == SavedRows(old(repo.rows), id, tweets, |tweets|, now, saves)
    {
      for i := 0 to |tweets|
        invariant repo.rows == SavedRows(old(repo.rows), id, tweets, i, now, saves)
      {
        repo.SaveTweet(id, tweets[i], now, saves(i));
      }
    }

    /** Phase 1: the job runs, and its archive is parsed and saved, or cannot be read. */
    method ParseJob(id: JobId, readable: bool, parsed: Parsed, now: Time, saves: nat -> bool, ghost r: Ref)
      returns (job: Option<JobRecord>)
      requires JobsKeyed(repo.jobs)
      modifies this`cache, this`updates, this`reports, repo`rows
      ensures job.Some? <==> readable && id in repo.jobs
      ensures job.None? ==>
                cache == old(cache) && updates == old(updates) && reports == old(reports) && repo.rows == old(repo.rows)
      ensures job.Some? ==>
                && fresh(job.value) && job.value.Value() == AfterParsing(repo.jobs[id], parsed, now)
                && cache == old(cache)[id := job.value] && updates == old(updates)[id := job.value]
                && reports == old(reports) + [repo.jobs[id].(status := Running, updatedAt := now), job.value.Value()]
                && repo.rows == (if parsed.Unreadable? then old(repo.rows)
                                 else SavedRows(old(repo.rows), id, parsed.tweets, |parsed.tweets|, now, saves))
      ensures job.Some? ==>
                var row, k := repo.jobs[id], job.value.Value();
                match parsed
                case Archive(tweets) => k == row.(status := Running, total := |tweets|, updatedAt := now)
                case Unreadable(message) => k == row.(status := Status.Failed, error := message, updatedAt := now)
    {
      var row := repo.GetJob(id, readable);
      if row.None? {
        return None;
      }
      var record := new JobRecord(r, row.value);
      record.status := Running;
      UpdateJob(record, now);
      match parsed {
        case Unreadable(message) =>
          record.status := Status.Failed;
          record.error := message;
          UpdateJob(record, now);
        case Archive(tweets) =>
          SaveTweets(id, tweets, now, saves);
          record.total := |tweets|;
          UpdateJob(record, now);
      }
      return Some(record);
    }

    /** `told` is what the phase has handed over so far. */
    ghost function PhaseTwoNow(job: JobRecord, told: seq<Job>, next: nat, needsGemini: nat, flags: nat,
                               blocked: bool): PhaseTwo
      reads this, repo, job
    {
      PhaseTwo(job.Value(), told, next, needsGemini, flags, repo.rows, repo.flagged, tweetQueue, blocked)
    }

    /** The loop body up to the counting: flag the tweet at position `i`, or mark and queue it, or close it. */
    method FilterTweet(job: JobRecord, i: nat, tweet: Tweet, needsGeminiCount: nat, flaggedCount: nat, now: Time,
                       saves: nat -> bool, marks: nat -> bool, ghost told: seq<Job>)
      returns (needsGemini: nat, flags: nat, outcome: Filtering)
      modifies this`tweetQueue, repo`rows, repo`flagged
      ensures var p, around := old(PhaseTwoNow(job, told, i, needsGeminiCount, flaggedCount, false)),
                               Surroundings(policy, hasScorer, tweetQueueSize, now, saves, marks);
              && (outcome.Waits? <==> SendWaits(p, tweet, around))
              && (outcome.Passes? <==> PassedOver(p, tweet, around))
              && PhaseTwoNow(job, told, if outcome.Passes? then i + 1 else i, needsGemini, flags, outcome.Waits?)
                 == if outcome.Goes? then Handled(p, tweet, around) else Turn(p, tweet, around)
      ensures var caught := job.criteria.Some? && Filters.FilterVerdict(policy, tweet.text).Some?;
              if caught then
                && outcome.Goes? && flags == flaggedCount + 1 && needsGemini == needsGeminiCount
                && tweetQueue == old(tweetQueue)
                && (if marks(i) then IsMarked(old(repo.rows), Key(job.id, tweet.id), false, repo.rows)
                    else repo.rows == old(repo.rows))
                && repo.flagged == if saves(i) then old(repo.flagged) + [FlaggedRow(Occ(job.id, i), tweet.id, false)]
                                   else old(repo.flagged)
              else
                && flags == flaggedCount && repo.flagged == old(repo.flagged)
                && (if hasScorer then
                      && needsGemini == (if marks(i) then needsGeminiCount + 1 else needsGeminiCount)
                      && (if marks(i) then IsMarked(old(repo.rows), Key(job.id, tweet.id), true, repo.rows)
                          else repo.rows == old(repo.rows))
                      && outcome == (if !marks(i) then Passes
                                     else if |old(tweetQueue)| >= tweetQueueSize then Waits else Goes)
                      && tweetQueue == (if outcome.Goes? then old(tweetQueue) + [Occ(job.id, i)] else old(tweetQueue))
                    else
                      && outcome.Goes? && needsGemini == needsGeminiCount && tweetQueue == old(tweetQueue)
                      && (if marks(i) then IsMarked(old(repo.rows), Key(job.id, tweet.id), false, repo.rows)
                          else repo.rows == old(repo.rows)))
    {
      needsGemini, flags, outcome := needsGeminiCount, flaggedCount, Goes;
      var skipDeterministic := job.criteria.None?;
      var verdict := None;
      if !skipDeterministic {
        verdict := Filters.ApplyFilters(policy, tweet.text);
      }
      if verdict.Some? {
        flags := flags + 1;
        repo.SaveFlaggedTweet(FlaggedRow(Occ(job.id, i), tweet.id, false), saves(i));
        repo.MarkTweetProcessed(Key(job.id, tweet.id), marks(i));
      } else if hasScorer {
        repo.MarkTweetNeedsGemini(Key(job.id, tweet.id), marks(i));
        if !marks(i) {
          return needsGemini, flags, Passes;
        }
        needsGemini := needsGemini + 1;
        if |tweetQueue| >= tweetQueueSize {
          return needsGemini, flags, Waits;
        }
        tweetQueue := tweetQueue + [Occ(job.id, i)];
      } else {
        repo.MarkTweetProcessed(Key(job.id, tweet.id), marks(i));
      }
    }

    function ReportedIf(m: map<JobId, JobRecord>, job: JobRecord, reported: bool): map<JobId, JobRecord> {
      if reported then m[job.id := job] else m
    }

    /** The end of the loop body. */
    method CountTweet(job: JobRecord, i: nat, needsGeminiCount: nat, flaggedCount: nat, now: Time, ghost told: seq<Job>)
      returns (ghost tells: seq<Job>)
      modifies this`cache, this`updates, this`reports, job`processed, job`flagged, job`updatedAt
      ensures PhaseTwoNow(job, told + tells, i + 1, needsGeminiCount, flaggedCount, false)
              == CountedOn(old(PhaseTwoNow(job, told, i, needsGeminiCount, flaggedCount, false)), now)
      ensures cache == ReportedIf(old(cache), job, tells != []) && updates == ReportedIf(old(updates), job, tells != [])
      ensures reports == old(reports) + tells
      ensures var was, hundredth := old(job.Value()), (old(job.processed) + 1) % 100 == 0;
              && job.Value() == was.(processed := was.processed + 1, flagged := flaggedCount,
                                     updatedAt := if hundredth then now else was.updatedAt)
              && tells == if hundredth then [job.Value()] else []
    {
      tells := [];
      job.processed := job.processed + 1;
      job.flagged := flaggedCount;
      if job.processed % 100 == 0 {
        UpdateJob(job, now);
        tells := [job.Value()];
      }
    }

    /** One turn of the loop that began at `start` and is at `p`: it gets to `q`. */
    method TakeTurn(job: JobRecord, i: nat, tweets: seq<Tweet>, needsGeminiCount: nat, flaggedCount: nat, now: Time,
                    saves: nat -> bool, marks: nat -> bool, ghost start: PhaseTwo, ghost p: PhaseTwo,
                    ghost around: Surroundings)
      returns (needsGemini: nat, flags: nat, waits: bool, ghost q: PhaseTwo)
      requires around == Surroundings(policy, hasScorer, tweetQueueSize, now, saves, marks)
      requires start.next <= i < |tweets| && p == Turns(start, tweets, around, i) && !p.blocked
      requires p == PhaseTwoNow(job, p.reports, i, needsGeminiCount, flaggedCount, false)
      modifies this`cache, this`updates, this`reports, this`tweetQueue, repo`rows, repo`flagged
      modifies job`processed, job`flagged, job`updatedAt
      ensures q == Turns(start, tweets, around, if waits then |tweets| else i + 1)
      ensures q == PhaseTwoNow(job, q.reports, if waits then i else i + 1, needsGemini, flags, waits)
      ensures p.reports <= q.reports && reports == old(reports) + q.reports[|p.reports|..]
      ensures cache == ReportedIf(old(cache), job, |q.reports| > |p.reports|)
      ensures updates == ReportedIf(old(updates), job, |q.reports| > |p.reports|)
    {
      var outcome;
      needsGemini, flags, outcome :=
        FilterTweet(job, i, tweets[i], needsGeminiCount, flaggedCount, now, saves, marks, p.reports);
      waits := outcome.Waits?;
      ghost var tells := [];
      if outcome.Goes? {
        tells := CountTweet(job, i, needsGemini, flags, now, p.reports);
      }
      assert p.reports + [] == p.reports;
      q := PhaseTwoNow(job, p.reports + tells, if waits then i else i + 1, needsGemini, flags, waits);
      NextTurn(start, tweets, around, i, p, q);
    }

    /** The loop of phase 2. */
    method FilterAll(job: JobRecord, tweets: seq<Tweet>, now: Time, saves: nat -> bool, marks: nat -> bool)
      returns (needsGeminiCount: nat, flaggedCount: nat, blocked: bool, ghost after: PhaseTwo)
      modifies this`cache, this`updates, this`reports, this`tweetQueue, repo`rows, repo`flagged
      modifies job`processed, job`flagged, job`updatedAt
      ensures after == Turns(old(PhaseTwoNow(job, [], 0, 0, 0, false)), tweets,
                             Surroundings(policy, hasScorer, tweetQueueSize, now, saves, marks), |tweets|)
      ensures after == PhaseTwoNow(job, after.reports, after.next, needsGeminiCount, flaggedCount, blocked)
      ensures cache == ReportedIf(old(cache), job, after.reports != [])
      ensures updates == ReportedIf(old(updates), job, after.reports != [])
      ensures reports == old(reports) + after.reports
    {
      needsGeminiCount, flaggedCount, blocked := 0, 0, false;
      ghost var around := Surroundings(policy, hasScorer, tweetQueueSize, now, saves, marks);
      ghost var start := PhaseTwoNow(job, [], 0, 0, 0, false);
      after := start;
      for i := 0 to |tweets|
        invariant after == Turns(start, tweets, around, i) && !blocked
        invariant after == PhaseTwoNow(job, after.reports, i, needsGeminiCount, flaggedCount, false)
        invariant cache == ReportedIf(old(cache), job, after.reports != [])
        invariant updates == ReportedIf(old(updates), job, after.reports != [])
        invariant reports == old(reports) + after.reports
      {
        needsGeminiCount, flaggedCount, blocked, after :=
          TakeTurn(job, i, tweets, needsGeminiCount, flaggedCount, now, saves, marks, start, after, around);
        if blocked {
          return;
        }
      }
    }

    /** Phase 2.  If the channel is full the loop waits in a send; the method then stops with `blocked`, at that
        tweet, which is marked and not sent. */
    method ApplyFiltersAndQueue(job: JobRecord, tweets: seq<Tweet>, now: Time, saves: nat -> bool, marks: nat -> bool)
      returns (needsGeminiCount: nat, flaggedCount: nat, blocked: bool)
      modifies this`cache, this`updates, this`reports, this`tweetQueue, repo`rows, repo`flagged
      modifies job`processed, job`flagged, job`updatedAt
      ensures var p := Turns(old(PhaseTwoNow(job, [], 0, 0, 0, false)), tweets,
                             Surroundings(policy, hasScorer, tweetQueueSize, now, saves, marks), |tweets|);
              && needsGeminiCount == p.needsGemini && flaggedCount == p.flags && blocked == p.blocked
              && repo.rows == p.rows && repo.flagged == p.flagged && tweetQueue == p.queue
              && job.Value() == (if blocked then p.job else p.job.(flagged := p.flags, updatedAt := now))
              && reports == old(reports) + p.reports + (if blocked then [] else [job.Value()])
              && cache == ReportedIf(old(cache), job, p.reports != [] || !blocked)
              && updates == ReportedIf(old(updates), job, p.reports != [] || !blocked)
    {
      ghost var after;
      needsGeminiCount, flaggedCount, blocked, after := FilterAll(job, tweets, now, saves, marks);
      if !blocked {
        job.flagged := flaggedCount;
        UpdateJob(job, now);
      }
    }

    /** The job's row, where it can be read. */
    function RowFor(id: JobId, readable: bool): Option<Job>
      reads repo
    {
      if readable && id in repo.jobs then Some(repo.jobs[id]) else None
    }

    predicate OverQuota(given: Circumstances)
      reads repo
    {
      given.quotaReadable && (if given.today in repo.quota then repo.quota[given.today] else 0) >= dailyQuotaLimit
    }

    /** The quota is used up: the job is paused and the tweet given up. */
    method PauseJob(id: JobId, given: Circumstances, ghost r: Ref) returns (job: Option<JobRecord>)
      requires JobsKeyed(repo.jobs)
      modifies this`cache, this`updates, this`reports
      ensures (job.Some? <==> RowFor(id, given.jobReadable).Some?)
      ensures job.Some? ==>
                && fresh(job.value)
                && job.value.Value() == repo.jobs[id].(status := PausedQuota, updatedAt := given.now)
                && cache == old(cache)[id := job.value] && updates == old(updates)[id := job.value]
                && reports == old(reports) + [job.value.Value()]
      ensures job.None? ==> cache == old(cache) && updates == old(updates) && reports == old(reports)
    {
      var row := repo.GetJob(id, given.jobReadable);
      if row.None? {
        return None;
      }
      var record := new JobRecord(r, row.value);
      record.status := PausedQuota;
      UpdateJob(record, given.now);
      return Some(record);
    }

    /** The API's own quota is used up: sleep, and put the tweet back. */
    method SleepAndRequeue(job: JobRecord, q: Occurrence, given: Circumstances) returns (blocked: bool)
      modifies this`cache, this`updates, this`reports, this`tweetQueue, job`status, job`updatedAt
      ensures reports == old(reports) + QuotaReports(old(job.Value()), given)
      ensures reports == old(reports) + [old(job.Value()).(status := PausedQuota, updatedAt := given.now),
                                         old(job.Value()).(status := Running, updatedAt := given.later)]
      ensures job.Value() == old(job.Value()).(status := Running, updatedAt := given.later)
      ensures cache == old(cache)[job.id := job] && updates == old(updates)[job.id := job]
      ensures blocked == (|old(tweetQueue)| >= tweetQueueSize)
      ensures tweetQueue == if blocked then old(tweetQueue) else old(tweetQueue) + [q]
    {
      job.status := PausedQuota;
      UpdateJob(job, given.now);
      job.status := Running;
      UpdateJob(job, given.later);
      blocked := |tweetQueue| >= tweetQueueSize;
      if !blocked {
        tweetQueue := tweetQueue + [q];
      }
    }

    /** Report the job, and report it again if it is done. */
    method ReportScore(job: JobRecord, now: Time)
      modifies this`cache, this`updates, this`reports, job`status, job`updatedAt
      ensures reports == old(reports) + ScoreReports(old(job.Value()).(updatedAt := now))
      ensures var j := old(job.Value()).(updatedAt := now);
              if j.processed >= j.total
              then job.Value() == j.(status := Done) && reports == old(reports) + [j, job.Value()]
              else job.Value() == j && reports == old(reports) + [j]
      ensures cache == old(cache)[job.id := job] && updates == old(updates)[job.id := job]
    {
      UpdateJob(job, now);
      if job.processed >= job.total {
        job.status := Done;
        UpdateJob(job, now);
      }
    }

    /** The tweet is scored: count it, flag it, report the job, and close the tweet. */
    method RecordScore(job: JobRecord, q: Occurrence, tweet: Tweet, flag: bool, given: Circumstances)
      modifies this`cache, this`updates, this`reports, repo`rows, repo`flagged, repo`quota
      modifies job`status, job`gemini, job`processed, job`flagged, job`updatedAt
      ensures job.Value() == AfterScore(old(job.Value()), flag, given.now)
      ensures cache == old(cache)[job.id := job] && updates == old(updates)[job.id := job]
      ensures Tables() == AfterTables(old(Tables()), q, tweet, flag, given)
      ensures reports == old(reports) + ScoreReports(WithScore(old(job.Value()), flag).(updatedAt := given.now))
    {
      repo.IncrementQuotaUsage(given.today, given.counts);
      job.gemini := job.gemini + 1;
      job.processed := job.processed + 1;
      if flag {
        job.flagged := job.flagged + 1;
        repo.SaveFlaggedTweet(FlaggedRow(q, tweet.id, true), given.saves);
      }
      ReportScore(job, given.now);
      repo.MarkTweetProcessed(Key(q.job, tweet.id), given.marks);
    }

    /** The call of the scorer with the job's criteria, and what follows each outcome. */
    method ScoreTweet(job: JobRecord, q: Occurrence, tweet: Tweet, given: Circumstances) returns (blocked: bool)
      modifies this`cache, this`updates, this`reports, this`tweetQueue, this`criteria
      modifies repo`rows, repo`flagged, repo`quota
      modifies job`status, job`gemini, job`processed, job`flagged, job`updatedAt
      ensures criteria == CriteriaFor(job.criteria)
      ensures job.Value() == JobAfter(old(job.Value()), given)
      ensures blocked == (given.outcome.QuotaSpent? && |old(tweetQueue)| >= tweetQueueSize)
      ensures Tables() == TablesAfter(old(Tables()), q, tweet, given, blocked)
      ensures reports == old(reports) + ReportsAfter(old(job.Value()), given)
      ensures cache == (if given.outcome.Failure? then old(cache) else old(cache)[job.id := job])
      ensures updates == (if given.outcome.Failure? then old(updates) else old(updates)[job.id := job])
    {
      criteria := if job.criteria.Some? then job.criteria.value else DEFAULT_CRITERIA;
      blocked := false;
      match given.outcome {
        case Failure => repo.MarkTweetProcessed(Key(q.job, tweet.id), given.marks);
        case QuotaSpent => blocked := SleepAndRequeue(job, q, given);
        case Success(flag) => RecordScore(job, q, tweet, flag, given);
      }
    }

    /** Phase 3 of one tweet.  With `blocked` the method waits, for good, to put the tweet back into the full
        channel that only its own loop empties. */
    method ProcessTweetWithGemini(q: Occurrence, tweet: Tweet, given: Circumstances, ghost r: Ref)
      returns (job: Option<JobRecord>, blocked: bool)
      requires JobsKeyed(repo.jobs)
      modifies this`cache, this`updates, this`reports, this`tweetQueue, this`criteria
      modifies repo`rows, repo`flagged, repo`quota
      ensures job.Some? ==> fresh(job.value)
      ensures job.Some? <==> old(RowFor(q.job, given.jobReadable)).Some?
      ensures job.None? || old(OverQuota(given)) ==> Tables() == old(Tables()) && criteria == old(criteria) && !blocked
      ensures job.Some? && old(OverQuota(given)) ==>
                && job.value.Value() == old(repo.jobs)[q.job].(status := PausedQuota, updatedAt := given.now)
                && reports == old(reports) + [job.value.Value()]
      ensures job.None? ==> reports == old(reports)
      ensures job.Some? && !old(OverQuota(given)) ==>
                && criteria == CriteriaFor(old(repo.jobs)[q.job].criteria)
                && (match old(repo.jobs)[q.job].criteria
                    case Some(uploaded) => criteria == uploaded
                    case None => criteria == DEFAULT_CRITERIA)
                && job.value.Value() == JobAfter(old(repo.jobs)[q.job], given)
                && blocked == (given.outcome.QuotaSpent? && |old(tweetQueue)| >= tweetQueueSize)
                && Tables() == TablesAfter(old(Tables()), q, tweet, given, blocked)
                && reports == old(reports) + ReportsAfter(old(repo.jobs)[q.job], given)
                && IsVisited(old(Tables()), old(repo.jobs)[q.job], q, tweet, given, tweetQueueSize, Tables(),
                             job.value.Value(), ReportsAfter(old(repo.jobs)[q.job], given))
      ensures var told := job.Some? && (old(OverQuota(given)) || !given.outcome.Failure?);
              && cache == (if told then old(cache)[q.job := job.value] else old(cache))
              && updates == (if told then old(updates)[q.job := job.value] else old(updates))
    {
      blocked := false;
      if given.quotaReadable {
        var used := repo.GetTodayQuotaUsage(given.today);
        if used >= dailyQuotaLimit {
          job := PauseJob(q.job, given, r);
          return;
        }
      }
      var row := repo.GetJob(q.job, given.jobReadable);
      if row.None? {
        return None, false;
      }
      var record := new JobRecord(r, row.value);
      job := Some(record);
      VisitWritten(Tables(), row.value, q, tweet, given, tweetQueueSize);
      assert record.Value() == old(repo.jobs)[q.job] && Tables() == old(Tables());
      blocked := ScoreTweet(record, q, tweet, given);
    }

    ghost function Tables(): Desk
      reads this, repo
    {
      Desk(repo.rows, repo.flagged, repo.quota, tweetQueue)
    }
  }

  /** The tables and the channel. */
  datatype Desk = Desk(rows: map<Key, TweetRow>, flagged: seq<FlaggedRow>, quota: map<Day, nat>, queue: seq<Occurrence>)

  function AfterTables(d: Desk, q: Occurrence, tweet: Tweet, flag: bool, given: Circumstances): Desk {
    d.(quota := if given.counts then d.quota[given.today := Quota(d.quota, given.today) + 1] else d.quota,
       flagged := if flag && given.saves then d.flagged + [FlaggedRow(q, tweet.id, true)] else d.flagged,
       rows := if given.marks then MarkProcessed(d.rows, Key(q.job, tweet.id)) else d.rows)
  }

  function JobAfter(j: Job, given: Circumstances): Job {
    match given.outcome
    case Failure => j
    case QuotaSpent => j.(status := Running, updatedAt := given.later)
    case Success(flag) => AfterScore(j, flag, given.now)
  }

  /** The row under `k` is closed, if the write succeeds, and no other is touched. */
  predicate IsClosed(rows: map<Key, TweetRow>, k: Key, ok: bool, after: map<Key, TweetRow>) {
    if ok then IsMarked(rows, k, false, after) else after == rows
  }

  /** One successful scoring is counted on that day, if the write succeeds. */
  predicate IsCounted(quota: map<Day, nat>, day: Day, ok: bool, after: map<Day, nat>) {
    if !ok then after == quota
    else
      && after.Keys == quota.Keys + {day} && after[day] == (if day in quota then quota[day] + 1 else 1)
      && forall d :: d in quota && d != day ==> after[d] == quota[d]
  }

  /** The outcomes of phase 3 of one tweet, field by field and table by table: the job was `j` when it was loaded
      and is `k`, and `told` has been handed over. */
  predicate IsVisited(d: Desk, j: Job, q: Occurrence, tweet: Tweet, given: Circumstances, queueSize: nat, d': Desk,
                      k: Job, told: seq<Job>) {
    match given.outcome
    case Failure =>
      && k == j && told == [] && d' == d.(rows := d'.rows)
      && IsClosed(d.rows, Key(q.job, tweet.id), given.marks, d'.rows)
    case QuotaSpent =>
      && k == j.(status := Running, updatedAt := given.later)
      && told == [j.(status := PausedQuota, updatedAt := given.now), k]
      && d' == d.(queue := if |d.queue| >= queueSize then d.queue else d.queue + [q])
    case Success(flag) =>
      var counted := j.(gemini := j.gemini + 1, processed := j.processed + 1,
                        flagged := if flag then j.flagged + 1 else j.flagged, updatedAt := given.now);
      && (if j.processed + 1 >= j.total then k == counted.(status := Done) && told == [counted, k]
          else k == counted && told == [counted])
      && d'.queue == d.queue
      && d'.flagged == (if flag && given.saves then d.flagged + [FlaggedRow(q, tweet.id, true)] else d.flagged)
      && IsCounted(d.quota, given.today, given.counts, d'.quota)
      && IsClosed(d.rows, Key(q.job, tweet.id), given.marks, d'.rows)
  }

  lemma VisitWritten(d: Desk, j: Job, q: Occurrence, tweet: Tweet, given: Circumstances, queueSize: nat)
    ensures var blocked := given.outcome.QuotaSpent? && |d.queue| >= queueSize;
            IsVisited(d, j, q, tweet, given, queueSize, TablesAfter(d, q, tweet, given, blocked), JobAfter(j, given),
                      ReportsAfter(j, given))
  {
    MarksMark(d.rows, Key(q.job, tweet.id));
  }

  function TablesAfter(d: Desk, q: Occurrence, tweet: Tweet, given: Circumstances, blocked: bool): Desk {
    match given.outcome
    case Failure => d.(rows := if given.marks then MarkProcessed(d.rows, Key(q.job, tweet.id)) else d.rows)
    case QuotaSpent => if blocked then d else d.(queue := d.queue + [q])
    case Success(flag) => AfterTables(d, q, tweet, flag, given)
  }
}
