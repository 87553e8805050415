/** Phase 3 of a tweet as the code runs it is a run of the step machine. */
module TweetRefinement {
  import opened Model
  import opened Pipeline
  import opened PipelineShapes
  import opened PipelineLinks
  import opened Workers
  import opened PipelineRefinement

  /** One call of `ProcessTweetWithGemini`: its tweet, the address of the record it loads, its circumstances, the
      configuration, the cache and the pending updates before, and the machine before. */
  datatype Visit = Visit(
    q: Occurrence, tweet: Tweet, r: Ref, given: Circumstances, limit: int, queueSize: nat,
    cache: map<JobId, Ref>, updates: map<JobId, Ref>, base: State)

  /** What the call changes: the record, the tables and the channel, and the scorer's criteria; `told` says whether
      the job is in the pending updates. */
  datatype Bench = Bench(job: Job, desk: Desk, told: bool, criteria: Criteria)

  ghost predicate TablesAgree(s: State, v: Visit, d: Desk) {
    && s.rows == d.rows && s.flagged == d.flagged && s.quota == d.quota && s.tweetQ == d.queue
    && s.cfg == v.base.cfg && s.jl == v.base.jl && s.archive == v.base.archive
    && s.hist.uploads == v.base.hist.uploads
    && Known(s, v.q) && TweetIn(s.archive, v.q) == v.tweet
    && s.cfg.limit == v.limit && s.cfg.tweetCap == v.queueSize && s.today == v.given.today
  }

  /** The tweet loop has its record at `v.r`; all agrees but the cache. */
  ghost predicate Sees(s: State, v: Visit, b: Bench, at: HeldAt) {
    && s.tl == TweetHas(v.q, Holding(v.r, at)) && v.r in s.mem.heap && s.mem.heap[v.r] == b.job && b.job.id == v.q.job
    && TablesAgree(s, v, b.desk) && s.criteria == b.criteria
    && s.mem.pending == (if b.told then v.updates[v.q.job := v.r] else v.updates)
  }

  ghost predicate CacheIs(s: State, v: Visit, told: bool) {
    s.mem.cache == if told then v.cache[v.q.job := v.r] else v.cache
  }

  ghost predicate Holds(s: State, v: Visit, b: Bench, at: HeldAt) {
    Sees(s, v, b, at) && CacheIs(s, v, b.told)
  }

  /** The tweet loop is done with its record, and goes on at `tl`. */
  ghost predicate Leaves(s: State, v: Visit, b: Bench, tl: TweetLoop) {
    && s.tl == tl && v.r in s.mem.heap && s.mem.heap[v.r] == b.job
    && TablesAgree(s, v, b.desk) && s.criteria == b.criteria
    && s.mem.pending == (if b.told then v.updates[v.q.job := v.r] else v.updates) && CacheIs(s, v, b.told)
  }

  // ------------------------------------------------------------------ up to the call

  lemma CheckStep(s: State, v: Visit, d: Desk) returns (t: State)
    requires s.tl == TweetHas(v.q, Check) && TablesAgree(s, v, d)
    ensures TweetNext(s, TweetCheck(v.given.quotaReadable)) == Some(t) && TablesAgree(t, v, d)
    ensures var over := v.given.quotaReadable && Quota(d.quota, v.given.today) >= v.limit;
            t.tl == TweetHas(v.q, if over then OverQuota else Load)
    ensures t.mem == s.mem && t.criteria == s.criteria && t.now == s.now
  {
    t := ChecksQuota(s, v.given.quotaReadable).value;
  }

  lemma LoadStep(s: State, v: Visit, d: Desk) returns (t: State)
    requires s.tl == TweetHas(v.q, Load) && TablesAgree(s, v, d) && v.r !in s.mem.heap
    requires v.given.jobReadable && v.q.job in s.mem.jobs && s.mem.jobs[v.q.job].id == v.q.job
    requires s.mem.cache == v.cache && s.mem.pending == v.updates
    ensures TweetNext(s, TweetLoad(v.r, true)) == Some(t) && t.now == s.now
    ensures Holds(t, v, Bench(s.mem.jobs[v.q.job], d, false, s.criteria), Loaded)
  {
    t := LoadsForTweet(s, v.r, true).value;
  }

  lemma PauseStep(s: State, v: Visit, d: Desk) returns (t: State)
    requires s.tl == TweetHas(v.q, OverQuota) && TablesAgree(s, v, d) && v.r !in s.mem.heap
    requires v.given.jobReadable && v.q.job in s.mem.jobs && s.mem.jobs[v.q.job].id == v.q.job
    requires s.mem.cache == v.cache && s.mem.pending == v.updates
    ensures TweetNext(s, TweetPause(v.r, true)) == Some(t) && t.now == s.now
    ensures Holds(t, v, Bench(s.mem.jobs[v.q.job].(status := PausedQuota), d, false, s.criteria), Put1(ToDrop))
  {
    t := PausesJob(s, v.r, true).value;
  }

  lemma CriteriaStep(s: State, v: Visit, b: Bench) returns (t: State)
    requires Holds(s, v, b, Loaded)
    ensures TweetNext(s, TweetCriteria) == Some(t) && t.now == s.now
    ensures Holds(t, v, b.(criteria := CriteriaFor(b.job.criteria)), Ready)
  {
    t := SetsCriteria(s).value;
  }

  lemma CallStep(s: State, v: Visit, b: Bench) returns (t: State)
    requires Holds(s, v, b, Ready)
    ensures TweetNext(s, TweetCall) == Some(t) && Holds(t, v, b, InCall) && t.now == s.now
  {
    t := CallsScore(s).value;
  }

  // ------------------------------------------------------------------ after the call

  /** The quota is counted. */
  function CountedDesk(d: Desk, v: Visit): Desk {
    d.(quota := if v.given.counts then d.quota[v.given.today := Quota(d.quota, v.given.today) + 1] else d.quota)
  }

  /** The flagged row is written. */
  function FlaggedDesk(d: Desk, v: Visit): Desk {
    d.(flagged := if v.given.saves then d.flagged + [FlaggedRow(v.q, v.tweet.id, true)] else d.flagged)
  }

  /** The tweet's row is closed. */
  function ClosedDesk(d: Desk, v: Visit): Desk {
    d.(rows := if v.given.marks then MarkProcessed(d.rows, Key(v.q.job, v.tweet.id)) else d.rows)
  }

  lemma SuccessStep(s: State, v: Visit, b: Bench, flag: bool) returns (t: State)
    requires Holds(s, v, b, InCall)
    ensures TweetNext(s, TweetReturn(Success(flag))) == Some(t) && Holds(t, v, b, Succeeded(flag)) && t.now == s.now
  {
    t := ScoreReturns(s, Success(flag)).value;
  }

  lemma SpentStep(s: State, v: Visit, b: Bench) returns (t: State)
    requires Holds(s, v, b, InCall)
    ensures TweetNext(s, TweetReturn(QuotaSpent)) == Some(t) && t.now == s.now
    ensures Holds(t, v, b.(job := b.job.(status := PausedQuota)), Put1(ToSleep))
  {
    t := ScoreReturns(s, QuotaSpent).value;
  }

  lemma FailureStep(s: State, v: Visit, b: Bench) returns (t: State)
    requires Holds(s, v, b, InCall)
    ensures TweetNext(s, TweetReturn(Failure)) == Some(t) && Leaves(t, v, b, TweetHas(v.q, Mark(false)))
  {
    t := ScoreReturns(s, Failure).value;
  }

  lemma CountsQuotaShape(s: State, q: Occurrence, r: Ref, flag: bool, ok: bool) returns (t: State)
    requires s.tl == TweetHas(q, Holding(r, Succeeded(flag)))
    ensures TweetNext(s, TweetCount(ok)) == Some(t)
    ensures t == s.(tl := TweetHas(q, Holding(r, Counted(flag))), quota := t.quota, hist := t.hist)
    ensures t.quota == if ok then s.quota[s.today := Quota(s.quota, s.today) + 1] else s.quota
    ensures t.hist.uploads == s.hist.uploads
  {
    t := CountsQuota(s, ok).value;
  }

  lemma CountQuotaStep(s: State, v: Visit, b: Bench, flag: bool, d: Desk) returns (t: State)
    requires Holds(s, v, b, Succeeded(flag))
    requires d == CountedDesk(b.desk, v)
    ensures TweetNext(s, TweetCount(v.given.counts)) == Some(t) && Holds(t, v, b.(desk := d), Counted(flag))
    ensures t.now == s.now
  {
    t := CountsQuotaShape(s, v.q, v.r, flag, v.given.counts);
  }

  lemma TallyStep(s: State, v: Visit, b: Bench, flag: bool) returns (t: State)
    requires Holds(s, v, b, Counted(flag))
    ensures TweetNext(s, TweetTally) == Some(t) && t.now == s.now
    ensures Holds(t, v, b.(job := WithScore(b.job, flag)), if flag then Tallied else Put1(ToDone))
  {
    t := TalliesScore(s).value;
  }

  lemma SaveFlagStep(s: State, v: Visit, b: Bench, d: Desk) returns (t: State)
    requires Holds(s, v, b, Tallied)
    requires d == FlaggedDesk(b.desk, v)
    ensures TweetNext(s, TweetFlag(v.given.saves)) == Some(t) && Holds(t, v, b.(desk := d), Put1(ToDone))
    ensures t.now == s.now
  {
    t := SavesFlag(s, v.given.saves).value;
  }

  lemma StampShape(s: State, q: Occurrence, r: Ref, goto: TweetGoto) returns (t: State)
    requires s.tl == TweetHas(q, Holding(r, Put1(goto))) && r in s.mem.heap
    ensures TweetNext(s, TweetStore) == Some(t)
    ensures t == s.(tl := TweetHas(q, Holding(r, Put2(goto))), mem := t.mem)
    ensures t.mem.heap == s.mem.heap[r := s.mem.heap[r].(updatedAt := s.now)]
    ensures t.mem.cache == s.mem.cache[s.mem.heap[r].id := r] && t.mem.pending == s.mem.pending
  {
    t := TweetUpdate1(s).value;
  }

  lemma TweetStampStep(s: State, v: Visit, b: Bench, goto: TweetGoto) returns (t: State)
    requires Holds(s, v, b, Put1(goto))
    ensures TweetNext(s, TweetStore) == Some(t) && t.now == s.now
    ensures Sees(t, v, b.(job := b.job.(updatedAt := s.now)), Put2(goto)) && CacheIs(t, v, true)
  {
    t := StampShape(s, v.q, v.r, goto);
  }

  lemma TweetPutStep(s: State, v: Visit, b: Bench, goto: TweetGoto) returns (t: State)
    requires Sees(s, v, b, Put2(goto)) && CacheIs(s, v, true)
    ensures TweetNext(s, TweetPut) == Some(t) && t.now == s.now
    ensures Leaves(t, v, b.(told := true), TweetHas(v.q, TweetReturnsTo(v.r, goto)))
  {
    t := TweetUpdate2(s).value;
  }

  /** `updateJob`, called by the tweet loop. */
  lemma TweetUpdates(s0: State, s: State, v: Visit, b: Bench, goto: TweetGoto) returns (u: State)
    requires Reaches(s0, s) && Holds(s, v, b, Put1(goto))
    ensures Reaches(s0, u) && u.now == s.now
    ensures Leaves(u, v, b.(job := b.job.(updatedAt := s.now), told := true), TweetHas(v.q, TweetReturnsTo(v.r, goto)))
  {
    var t := TweetStampStep(s, v, b, goto);
    ReachesThen(s0, s, T(TweetStore), t);
    u := TweetPutStep(t, v, b.(job := b.job.(updatedAt := s.now)), goto);
    ReachesThen(s0, t, T(TweetPut), u);
  }

  lemma DoneStep(s: State, v: Visit, b: Bench) returns (t: State)
    requires Leaves(s, v, b, TweetHas(v.q, Holding(v.r, CheckDone))) && b.job.id == v.q.job
    ensures TweetNext(s, TweetDone) == Some(t) && t.now == s.now
    ensures if b.job.processed >= b.job.total then Holds(t, v, b.(job := b.job.(status := Done)), Put1(ToMark))
            else Leaves(t, v, b, TweetHas(v.q, Mark(true)))
  {
    t := ChecksDone(s).value;
  }

  lemma MarksShape(s: State, q: Occurrence, scored: bool, ok: bool) returns (t: State)
    requires s.tl == TweetHas(q, Mark(scored))
    ensures TweetNext(s, TweetMark(ok)) == Some(t) && t == s.(tl := TweetIdle, rows := t.rows, hist := t.hist)
    ensures t.rows == if ok then MarkProcessed(s.rows, KeyIn(s.archive, q)) else s.rows
    ensures t.hist.uploads == s.hist.uploads
  {
    MarkTaken(s, ok);
    t := MarksDone(s, ok).value;
    MarkShape(s, ok, t);
  }

  lemma MarkTaken(s: State, ok: bool)
    requires s.tl.TweetHas? && s.tl.at.Mark?
    ensures MarksDone(s, ok).Some?
  {
  }

  lemma CloseTweetStep(s: State, v: Visit, b: Bench, scored: bool, d: Desk) returns (t: State)
    requires Leaves(s, v, b, TweetHas(v.q, Mark(scored)))
    requires d == ClosedDesk(b.desk, v)
    ensures TweetNext(s, TweetMark(v.given.marks)) == Some(t) && Leaves(t, v, b.(desk := d), TweetIdle)
  {
    assert KeyIn(s.archive, v.q) == Key(v.q.job, v.tweet.id);
    t := MarksShape(s, v.q, scored, v.given.marks);
  }

  lemma ResumeStep(s: State, v: Visit, b: Bench) returns (t: State)
    requires Leaves(s, v, b, TweetHas(v.q, Holding(v.r, Sleeping))) && b.job.id == v.q.job
    ensures TweetNext(s, TweetResume) == Some(t) && t.now == s.now
    ensures Holds(t, v, b.(job := b.job.(status := Running)), Put1(ToRequeue))
  {
    t := ResumesJob(s).value;
  }

  lemma RequeueStep(s: State, v: Visit, b: Bench) returns (t: State)
    requires Leaves(s, v, b, TweetHas(v.q, Requeue)) && |b.desk.queue| < v.queueSize
    ensures TweetNext(s, TweetRequeue) == Some(t)
    ensures Leaves(t, v, b.(desk := b.desk.(queue := b.desk.queue + [v.q])), TweetIdle)
  {
    t := RequeuesTweet(s).value;
  }

  lemma DropStep(s: State, v: Visit, b: Bench) returns (t: State)
    requires Leaves(s, v, b, TweetHas(v.q, Drop))
    ensures TweetNext(s, TweetDrop) == Some(t) && Leaves(t, v, b, TweetIdle)
  {
    t := DropsTweet(s).value;
  }

  /** The same visit on the day after the sleep. */
  function NextDay(v: Visit): Visit {
    v.(given := v.given.(today := v.given.nextDay))
  }

  /** The sleep until the quota is reset. */
  lemma SleepStep(s: State, v: Visit, b: Bench) returns (t: State)
    requires Leaves(s, v, b, TweetHas(v.q, Holding(v.r, Sleeping)))
    requires s.now <= v.given.later && v.given.today <= v.given.nextDay
    ensures OtherNext(s, Tick(v.given.later, v.given.nextDay)) == Some(t) && t.now == v.given.later
    ensures Leaves(t, NextDay(v), b, TweetHas(v.q, Holding(v.r, Sleeping)))
  {
    t := s.(now := v.given.later, today := v.given.nextDay);
  }

  // ------------------------------------------------------------------ whole visits

  /** Before the call: the record is loaded and the criteria are set. */
  lemma Calls(s: State, v: Visit, d: Desk) returns (u: State)
    requires s.tl == TweetHas(v.q, Check) && TablesAgree(s, v, d) && v.r !in s.mem.heap && s.now == v.given.now
    requires !(v.given.quotaReadable && Quota(d.quota, v.given.today) >= v.limit)
    requires v.given.jobReadable && v.q.job in s.mem.jobs && s.mem.jobs[v.q.job].id == v.q.job
    requires s.mem.cache == v.cache && s.mem.pending == v.updates
    ensures var row := s.mem.jobs[v.q.job];
            && Reaches(s, u) && u.now == v.given.now
            && Holds(u, v, Bench(row, d, false, CriteriaFor(row.criteria)), InCall)
  {
    var row := s.mem.jobs[v.q.job];
    ReachesSelf(s);
    var t1 := CheckStep(s, v, d);
    ReachesThen(s, s, T(TweetCheck(v.given.quotaReadable)), t1);
    var t2 := LoadStep(t1, v, d);
    ReachesThen(s, t1, T(TweetLoad(v.r, true)), t2);
    var t3 := CriteriaStep(t2, v, Bench(row, d, false, s.criteria));
    ReachesThen(s, t2, T(TweetCriteria), t3);
    u := CallStep(t3, v, Bench(row, d, false, CriteriaFor(row.criteria)));
    ReachesThen(s, t3, T(TweetCall), u);
  }

  lemma FailsVisit(s0: State, s: State, v: Visit, b: Bench, d: Desk) returns (u: State)
    requires Reaches(s0, s) && Holds(s, v, b, InCall)
    requires d == ClosedDesk(b.desk, v)
    ensures Reaches(s0, u) && Leaves(u, v, b.(desk := d), TweetIdle)
  {
    var t := FailureStep(s, v, b);
    ReachesThen(s0, s, T(TweetReturn(Failure)), t);
    u := CloseTweetStep(t, v, b, false, d);
    ReachesThen(s0, t, T(TweetMark(v.given.marks)), u);
  }

  /** Up to the sleep. */
  lemma FallsAsleep(s0: State, s: State, v: Visit, b: Bench) returns (u: State)
    requires Reaches(s0, s) && Holds(s, v, b, InCall) && s.now == v.given.now
    ensures Reaches(s0, u) && u.now == v.given.now
    ensures Leaves(u, v, b.(job := b.job.(status := PausedQuota, updatedAt := v.given.now), told := true),
                   TweetHas(v.q, Holding(v.r, Sleeping)))
  {
    var t := SpentStep(s, v, b);
    ReachesThen(s0, s, T(TweetReturn(QuotaSpent)), t);
    u := TweetUpdates(s0, t, v, b.(job := b.job.(status := PausedQuota)), ToSleep);
  }

  lemma Wakes(s0: State, s: State, w: Visit, b: Bench, b': Bench) returns (t: State)
    requires Reaches(s0, s) && Leaves(s, w, b, TweetHas(w.q, Holding(w.r, Sleeping))) && b.job.id == w.q.job
    requires b' == b.(job := b.job.(status := Running))
    ensures Reaches(s0, t) && t.now == s.now && Holds(t, w, b', Put1(ToRequeue))
  {
    t := ResumeStep(s, w, b);
    ReachesThen(s0, s, T(TweetResume), t);
  }

  lemma Resumes(s0: State, s: State, w: Visit, b: Bench, b': Bench) returns (u: State)
    requires Reaches(s0, s) && Leaves(s, w, b, TweetHas(w.q, Holding(w.r, Sleeping))) && b.job.id == w.q.job
    requires b' == b.(job := b.job.(status := Running))
    ensures Reaches(s0, u)
    ensures Leaves(u, w, b'.(job := b'.job.(updatedAt := s.now), told := true), TweetHas(w.q, Requeue))
  {
    var t := Wakes(s0, s, w, b, b');
    u := TweetUpdates(s0, t, w, b', ToRequeue);
  }

  /** The sleep, up to the send of the tweet. */
  lemma Sleeps(s0: State, s: State, v: Visit, b: Bench) returns (u: State)
    requires Reaches(s0, s) && Leaves(s, v, b, TweetHas(v.q, Holding(v.r, Sleeping))) && b.job.id == v.q.job
    requires s.now <= v.given.later && v.given.today <= v.given.nextDay
    ensures Reaches(s0, u)
    ensures var j := b.job.(status := Running, updatedAt := v.given.later);
            Leaves(u, NextDay(v), b.(job := j, told := true), TweetHas(v.q, Requeue))
  {
    var t := SleepStep(s, v, b);
    ReachesThen(s0, s, O(Tick(v.given.later, v.given.nextDay)), t);
    u := Resumes(s0, t, NextDay(v), b, b.(job := b.job.(status := Running)));
  }

  lemma SpentVisit(s0: State, s: State, v: Visit, b: Bench) returns (u: State)
    requires Reaches(s0, s) && Holds(s, v, b, InCall) && s.now == v.given.now
    requires v.given.now <= v.given.later && v.given.today <= v.given.nextDay
    ensures var b' := b.(job := b.job.(status := Running, updatedAt := v.given.later), told := true);
            && Reaches(s0, u)
            && if |b.desk.queue| >= v.queueSize then Leaves(u, NextDay(v), b', TweetHas(v.q, Requeue))
               else Leaves(u, NextDay(v), b'.(desk := b.desk.(queue := b.desk.queue + [v.q])), TweetIdle)
  {
    var t0 := FallsAsleep(s0, s, v, b);
    u := Sleeps(s0, t0, v, b.(job := b.job.(status := PausedQuota, updatedAt := v.given.now), told := true));
    if |b.desk.queue| < v.queueSize {
      var t := u;
      u := RequeueStep(t, NextDay(v), b.(job := b.job.(status := Running, updatedAt := v.given.later), told := true));
      ReachesThen(s0, t, T(TweetRequeue), u);
    }
  }

  /** Up to the report of the counters. */
  lemma Scores(s0: State, s: State, v: Visit, b: Bench, flag: bool, q: Desk, f: Desk) returns (u: State)
    requires Reaches(s0, s) && Holds(s, v, b, InCall) && s.now == v.given.now
    requires q == CountedDesk(b.desk, v) && f == if flag then FlaggedDesk(q, v) else q
    ensures Reaches(s0, u) && u.now == v.given.now
    ensures Holds(u, v, b.(job := WithScore(b.job, flag), desk := f), Put1(ToDone))
  {
    var t1 := SuccessStep(s, v, b, flag);
    ReachesThen(s0, s, T(TweetReturn(Success(flag))), t1);
    var t2 := CountQuotaStep(t1, v, b, flag, q);
    ReachesThen(s0, t1, T(TweetCount(v.given.counts)), t2);
    var t3 := TallyStep(t2, v, b.(desk := q), flag);
    ReachesThen(s0, t2, T(TweetTally), t3);
    if flag {
      u := SaveFlagStep(t3, v, b.(desk := q, job := WithScore(b.job, flag)), f);
      ReachesThen(s0, t3, T(TweetFlag(v.given.saves)), u);
    } else {
      u := t3;
    }
  }

  /** From the report to the next tweet. */
  lemma Closes(s0: State, s: State, v: Visit, b: Bench, d: Desk) returns (u: State)
    requires Reaches(s0, s) && Holds(s, v, b, Put1(ToDone)) && s.now == v.given.now
    requires d == ClosedDesk(b.desk, v)
    ensures Reaches(s0, u)
    ensures var j := b.job.(updatedAt := v.given.now);
            var k := if j.processed >= j.total then j.(status := Done) else j;
            Leaves(u, v, b.(job := k, told := true, desk := d), TweetIdle)
  {
    var b1 := b.(job := b.job.(updatedAt := v.given.now), told := true);
    var t1 := TweetUpdates(s0, s, v, b, ToDone);
    var t2 := DoneStep(t1, v, b1);
    ReachesThen(s0, t1, T(TweetDone), t2);
    if b1.job.processed >= b1.job.total {
      var b2 := b1.(job := b1.job.(status := Done));
      var t3 := TweetUpdates(s0, t2, v, b2, ToMark);
      u := CloseTweetStep(t3, v, b2, true, d);
      ReachesThen(s0, t3, T(TweetMark(v.given.marks)), u);
    } else {
      u := CloseTweetStep(t2, v, b1, true, d);
      ReachesThen(s0, t2, T(TweetMark(v.given.marks)), u);
    }
  }

  lemma TablesStepwise(d0: Desk, v: Visit, flag: bool) returns (q: Desk, f: Desk, d: Desk)
    ensures d == AfterTables(d0, v.q, v.tweet, flag, v.given)
    ensures q == CountedDesk(d0, v) && f == (if flag then FlaggedDesk(q, v) else q) && d == ClosedDesk(f, v)
  {
    d := AfterTables(d0, v.q, v.tweet, flag, v.given);
    q := d0.(quota := d.quota);
    f := q.(flagged := d.flagged);
  }

  lemma ScoreVisit(s0: State, s: State, v: Visit, b: Bench, flag: bool) returns (u: State)
    requires Reaches(s0, s) && Holds(s, v, b, InCall) && s.now == v.given.now
    ensures Reaches(s0, u)
    ensures var d := AfterTables(b.desk, v.q, v.tweet, flag, v.given);
            Leaves(u, v, b.(job := AfterScore(b.job, flag, v.given.now), told := true, desk := d), TweetIdle)
  {
    var q, f, d := TablesStepwise(b.desk, v, flag);
    var t := Scores(s0, s, v, b, flag, q, f);
    u := Closes(s0, t, v, b.(job := WithScore(b.job, flag), desk := f), d);
  }

  lemma Pauses(s: State, v: Visit, d: Desk) returns (u: State)
    requires s.tl == TweetHas(v.q, Check) && TablesAgree(s, v, d) && v.r !in s.mem.heap && s.now == v.given.now
    requires v.given.quotaReadable && Quota(d.quota, v.given.today) >= v.limit
    requires v.given.jobReadable && v.q.job in s.mem.jobs && s.mem.jobs[v.q.job].id == v.q.job
    requires s.mem.cache == v.cache && s.mem.pending == v.updates
    ensures Reaches(s, u) && u.now == v.given.now
    ensures Holds(u, v, Bench(s.mem.jobs[v.q.job].(status := PausedQuota), d, false, s.criteria), Put1(ToDrop))
  {
    ReachesSelf(s);
    var t := CheckStep(s, v, d);
    ReachesThen(s, s, T(TweetCheck(v.given.quotaReadable)), t);
    u := PauseStep(t, v, d);
    ReachesThen(s, t, T(TweetPause(v.r, true)), u);
  }

  lemma Drops(s0: State, s: State, v: Visit, b: Bench) returns (u: State)
    requires Reaches(s0, s) && Holds(s, v, b, Put1(ToDrop)) && s.now == v.given.now
    ensures Reaches(s0, u) && Leaves(u, v, b.(job := b.job.(updatedAt := v.given.now), told := true), TweetIdle)
  {
    var t := TweetUpdates(s0, s, v, b, ToDrop);
    u := DropStep(t, v, b.(job := b.job.(updatedAt := v.given.now), told := true));
    ReachesThen(s0, t, T(TweetDrop), u);
  }

  /** Over the quota, with the job's row at hand: the job is paused, and the tweet dropped. */
  lemma PauseRefines(s: State, v: Visit, d: Desk) returns (u: State)
    requires s.tl == TweetHas(v.q, Check) && TablesAgree(s, v, d) && v.r !in s.mem.heap && s.now == v.given.now
    requires v.given.quotaReadable && Quota(d.quota, v.given.today) >= v.limit
    requires v.given.jobReadable && v.q.job in s.mem.jobs && s.mem.jobs[v.q.job].id == v.q.job
    requires s.mem.cache == v.cache && s.mem.pending == v.updates
    ensures Reaches(s, u)
    ensures var j := s.mem.jobs[v.q.job].(status := PausedQuota, updatedAt := v.given.now);
            Leaves(u, v, Bench(j, d, true, s.criteria), TweetIdle)
  {
    var t := Pauses(s, v, d);
    u := Drops(s, t, v, Bench(s.mem.jobs[v.q.job].(status := PausedQuota), d, false, s.criteria));
  }

  lemma CheckLeaves(s: State, q: Occurrence, ok: bool) returns (t: State)
    requires s.tl == TweetHas(q, Check)
    ensures TweetNext(s, TweetCheck(ok)) == Some(t) && t == s.(tl := t.tl, hist := t.hist)
    ensures t.tl == TweetHas(q, OverQuota) || t.tl == TweetHas(q, Load)
    ensures t.hist.uploads == s.hist.uploads && t.hist.place == s.hist.place
  {
    t := ChecksQuota(s, ok).value;
  }

  lemma NotFound(s: State, q: Occurrence, r: Ref, ok: bool) returns (t: State, st: TweetStep)
    requires s.tl == TweetHas(q, OverQuota) || s.tl == TweetHas(q, Load)
    requires r !in s.mem.heap && !(ok && q.job in s.mem.jobs)
    ensures TweetNext(s, st) == Some(t) && t == s.(tl := TweetHas(q, Drop))
  {
    if s.tl.at.OverQuota? {
      st := TweetPause(r, ok);
      t := PausesJob(s, r, ok).value;
    } else {
      st := TweetLoad(r, ok);
      t := LoadsForTweet(s, r, ok).value;
    }
  }

  lemma GivenUp(s: State, q: Occurrence) returns (t: State)
    requires s.tl == TweetHas(q, Drop)
    ensures TweetNext(s, TweetDrop) == Some(t) && t == s.(tl := TweetIdle, hist := t.hist)
    ensures t.hist.uploads == s.hist.uploads && t.hist.place == s.hist.place[q := Dropped]
  {
    t := DropsTweet(s).value;
  }

  /** Where the job's row cannot be read, or is not there, the tweet is given up and nothing else happens. */
  lemma UnreadableRefines(s: State, q: Occurrence, r: Ref, quotaReadable: bool, jobReadable: bool) returns (u: State)
    requires s.tl == TweetHas(q, Check) && r !in s.mem.heap && !(jobReadable && q.job in s.mem.jobs)
    ensures Reaches(s, u) && u == s.(tl := TweetIdle, hist := u.hist)
    ensures u.hist.uploads == s.hist.uploads && u.hist.place == s.hist.place[q := Dropped]
  {
    ReachesSelf(s);
    var t1 := CheckLeaves(s, q, quotaReadable);
    ReachesThen(s, s, T(TweetCheck(quotaReadable)), t1);
    var t2, st := NotFound(t1, q, r, jobReadable);
    ReachesThen(s, t1, T(st), t2);
    u := GivenUp(t2, q);
    ReachesThen(s, t2, T(TweetDrop), u);
  }

  /** What `ProcessTweetWithGemini` leaves once the job's row was read and the quota had room. */
  ghost predicate Processed(s: State, v: Visit, d: Desk, u: State) {
    v.q.job in s.mem.jobs &&
    var row := s.mem.jobs[v.q.job];
    var blocked := v.given.outcome.QuotaSpent? && |d.queue| >= v.queueSize;
    && (u.tl == if blocked then TweetHas(v.q, Requeue) else TweetIdle)
    && Obj(u.mem, v.r) == JobAfter(row, v.given) && u.criteria == CriteriaFor(row.criteria)
    && Desk(u.rows, u.flagged, u.quota, u.tweetQ) == TablesAfter(d, v.q, v.tweet, v.given, blocked)
    && u.mem.cache == (if v.given.outcome.Failure? then v.cache else v.cache[v.q.job := v.r])
    && u.mem.pending == (if v.given.outcome.Failure? then v.updates else v.updates[v.q.job := v.r])
    && u.cfg == v.base.cfg && u.jl == v.base.jl && u.archive == v.base.archive && u.hist.uploads == v.base.hist.uploads
  }

  /** The tables and the channel. */
  function DeskOf(s: State): Desk {
    Desk(s.rows, s.flagged, s.quota, s.tweetQ)
  }

  /** The visit is in the call, with the job's row of state `s` loaded. */
  ghost predicate Called(s: State, v: Visit, t: State) {
    && v.q.job in s.mem.jobs && Reaches(s, t) && t.now == v.given.now
    && Holds(t, v, Bench(s.mem.jobs[v.q.job], DeskOf(s), false, CriteriaFor(s.mem.jobs[v.q.job].criteria)), InCall)
  }

  lemma FailureProcessed(s: State, v: Visit, t: State) returns (u: State)
    requires Called(s, v, t) && v.given.outcome.Failure?
    ensures Reaches(s, u) && Processed(s, v, DeskOf(s), u)
  {
    var row := s.mem.jobs[v.q.job];
    u := FailsVisit(s, t, v, Bench(row, DeskOf(s), false, CriteriaFor(row.criteria)),
                    TablesAfter(DeskOf(s), v.q, v.tweet, v.given, false));
  }

  lemma SpentProcessed(s: State, v: Visit, t: State) returns (u: State)
    requires Called(s, v, t) && v.given.outcome.QuotaSpent?
    requires v.given.now <= v.given.later && v.given.today <= v.given.nextDay
    ensures Reaches(s, u) && Processed(s, v, DeskOf(s), u)
  {
    var row := s.mem.jobs[v.q.job];
    u := SpentVisit(s, t, v, Bench(row, DeskOf(s), false, CriteriaFor(row.criteria)));
  }

  lemma ScoreProcessed(s: State, v: Visit, t: State, flag: bool) returns (u: State)
    requires Called(s, v, t) && v.given.outcome == Success(flag)
    ensures Reaches(s, u) && Processed(s, v, DeskOf(s), u)
  {
    var row := s.mem.jobs[v.q.job];
    u := ScoreVisit(s, t, v, Bench(row, DeskOf(s), false, CriteriaFor(row.criteria)), flag);
  }

  /** Phase 3 of a tweet as the code runs it, with room in the quota, is a run of the machine, with the record,
      tables, channel, criteria, cache and pending updates that `ProcessTweetWithGemini` leaves. */
  lemma TweetRefines(s: State, v: Visit) returns (u: State)
    requires s.tl == TweetHas(v.q, Check) && v.r !in s.mem.heap && s.now == v.given.now
    requires TablesAgree(s, v, DeskOf(s)) && !(v.given.quotaReadable && Quota(s.quota, v.given.today) >= v.limit)
    requires v.given.jobReadable && v.q.job in s.mem.jobs && s.mem.jobs[v.q.job].id == v.q.job
    requires s.mem.cache == v.cache && s.mem.pending == v.updates
    requires v.given.now <= v.given.later && v.given.today <= v.given.nextDay
    ensures Reaches(s, u) && Processed(s, v, DeskOf(s), u)
  {
    var t := Calls(s, v, DeskOf(s));
    match v.given.outcome {
      case Failure => u := FailureProcessed(s, v, t);
      case QuotaSpent => u := SpentProcessed(s, v, t);
      case Success(flag) => u := ScoreProcessed(s, v, t, flag);
    }
  }
}
