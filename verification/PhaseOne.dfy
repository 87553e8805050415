/** The upload of a job and its phase 1, as the code runs them, are runs of the step machine. */
module PhaseOneRefinement {
  import opened Model
  import opened Pipeline
  import opened Workers

  // ------------------------------------------------------------------ upload

  /** A new job: its ID and its file, the address of its record, and whether its first save succeeds. */
  datatype Entry = Entry(id: JobId, fileId: FileId, criteria: Option<Criteria>, saved: bool, r: Ref)

  /** Nothing is known of the job, and nothing is at the address. */
  ghost predicate IsNew(s: State, e: Entry) {
    && e.r !in s.mem.heap && e.id !in s.hist.uploads && e.id !in s.mem.jobs && e.id !in s.mem.cache
    && (forall k :: k in s.rows ==> k.job != e.id) && (forall k :: k in s.mem.heap ==> s.mem.heap[k].id != e.id)
  }

  function NewJob(e: Entry, now: Time): Job {
    Job(e.id, e.fileId, Queued, 0, 0, 0, 0, e.criteria, "", now, now)
  }

  /** What the upload leaves but for the queue. */
  ghost predicate Uploaded(s: State, e: Entry, t: State) {
    && t == s.(mem := t.mem, callers := t.callers, jobQ := t.jobQ, hist := t.hist)
    && t.mem.heap == s.mem.heap[e.r := NewJob(e, s.now)] && t.mem.cache == s.mem.cache[e.id := e.r]
    && t.mem.jobs == (if e.saved then SaveJob(s.mem.jobs, NewJob(e, s.now)) else s.mem.jobs)
    && t.mem.pending == s.mem.pending && t.mem.batch == s.mem.batch
    && t.hist.uploads == s.hist.uploads[e.id := Upload(e.fileId, e.criteria, s.now)]
  }

  lemma SaveStep(s: State, e: Entry) returns (t: State)
    requires IsNew(s, e)
    ensures OtherNext(s, EnqueueSave(e.id, e.r, e.fileId, e.criteria, e.saved)) == Some(t)
    ensures t.callers == s.callers[e.id := Caller(e.r, false)] && t.mem.cache == s.mem.cache
    ensures Uploaded(s, e, t.(mem := t.mem.(cache := s.mem.cache[e.id := e.r])))
  {
    t := SavesNewJob(s, e.id, e.r, e.fileId, e.criteria, e.saved).value;
  }

  lemma CacheStep(s: State, e: Entry) returns (t: State)
    requires e.id in s.callers && s.callers[e.id] == Caller(e.r, false)
    ensures OtherNext(s, EnqueueStore(e.id)) == Some(t)
    ensures t == s.(mem := s.mem.(cache := s.mem.cache[e.id := e.r], log := t.mem.log), callers := t.callers)
    ensures t.callers == s.callers[e.id := Caller(e.r, true)]
  {
    t := CachesNewJob(s, e.id).value;
  }

  /** The upload as the code runs it is a run of the machine, up to the job's place in the queue or, where the queue
      takes no more, to the send that waits: with the record, row, cache and queue that `EnqueueParse` leaves. */
  lemma EnqueueRefines(s: State, e: Entry) returns (u: State)
    requires IsNew(s, e)
    ensures Reaches(s, u) && Uploaded(s, e, u)
    ensures u.jobQ == if JobChannelTakes(s) then s.jobQ + [e.id] else s.jobQ
  {
    ReachesSelf(s);
    var s1 := SaveStep(s, e);
    ReachesThen(s, s, O(EnqueueSave(e.id, e.r, e.fileId, e.criteria, e.saved)), s1);
    u := CacheStep(s1, e);
    ReachesThen(s, s1, O(EnqueueStore(e.id)), u);
    if JobChannelTakes(s) {
      var s2 := u;
      u := SendsNewJob(s2, e.id).value;
      ReachesThen(s, s2, O(EnqueueSend(e.id)), u);
    }
  }

  // ------------------------------------------------------------------ query

  /** A job that is not in the cache: `GetJob` reads its row into a new record and caches that. */
  lemma GetJobRefines(s: State, id: JobId, r: Ref) returns (u: State)
    requires id !in s.mem.cache && id in s.mem.jobs && s.mem.jobs[id].id == id && r !in s.mem.heap
    ensures Reaches(s, u) && u == s.(mem := u.mem, missed := s.missed + {id}, readers := s.readers + {r} - {r})
    ensures u.mem.heap == s.mem.heap[r := s.mem.jobs[id]] && u.mem.cache == s.mem.cache[id := r]
    ensures u.mem == s.mem.(heap := u.mem.heap, cache := u.mem.cache, maker := u.mem.maker, log := u.mem.log)
  {
    ReachesSelf(s);
    var s1 := s.(missed := s.missed + {id});
    ReachesThen(s, s, O(GetMiss(id)), s1);
    var s2 := ReadsMissed(s1, id, r).value;
    ReachesThen(s, s1, O(GetRead(id, r)), s2);
    u := CachesRead(s2, r).value;
    ReachesThen(s, s2, O(GetStore(r)), u);
  }

  // ------------------------------------------------------------------ phase 1

  /** A phase 1: the job, the address of its record, what its archive holds, and which rows are written. */
  datatype Opening = Opening(id: JobId, r: Ref, parsed: Parsed, saves: nat -> bool)

  /** The machine is in phase 1 of the job: its record is `job`, and has been handed over if `told`. */
  ghost predicate During(s: State, o: Opening, job: Job, rows: map<Key, TweetRow>, archive: Archive, told: bool,
                         t: State) {
    && t == s.(jl := t.jl, rows := rows, archive := archive, mem := t.mem, hist := t.hist)
    && t.hist.uploads == s.hist.uploads && t.mem.heap == s.mem.heap[o.r := job] && job.id == o.id
    && t.mem.jobs == s.mem.jobs && t.mem.batch == s.mem.batch
    && t.mem.cache == (if told then s.mem.cache[o.id := o.r] else s.mem.cache)
    && t.mem.pending == (if told then s.mem.pending[o.id := o.r] else s.mem.pending)
  }

  lemma LoadStep(s: State, o: Opening) returns (t: State)
    requires s.jl == JobTaken(o.id) && o.r !in s.mem.heap && o.id in s.mem.jobs && s.mem.jobs[o.id].id == o.id
    ensures JobNext(s, JobLoad(o.r, true)) == Some(t) && t.jl == JobRunning(o.id, o.r, Begin)
    ensures During(s, o, s.mem.jobs[o.id], s.rows, s.archive, false, t)
  {
    t := LoadsJob(s, o.r, true).value;
  }

  lemma BeginStep(s: State, o: Opening, job: Job, t: State) returns (u: State)
    requires During(s, o, job, s.rows, s.archive, false, t) && t.jl == JobRunning(o.id, o.r, Begin)
    ensures JobNext(t, JobBegin) == Some(u) && u.jl == JobRunning(o.id, o.r, Store1(ToParse))
    ensures During(s, o, job.(status := Running), s.rows, s.archive, false, u)
  {
    u := BeginsJob(t).value;
  }

  lemma StampStep(s: State, o: Opening, job: Job, rows: map<Key, TweetRow>, archive: Archive, told: bool, t: State,
                  goto: JobGoto) returns (u: State)
    requires During(s, o, job, rows, archive, told, t) && t.jl == JobRunning(o.id, o.r, Store1(goto))
    ensures JobNext(t, JobStore) == Some(u) && u.jl == JobRunning(o.id, o.r, Store2(goto))
    ensures u.mem.cache == s.mem.cache[o.id := o.r]
    ensures During(s, o, job.(updatedAt := s.now), rows, archive, told, u.(mem := u.mem.(cache := t.mem.cache)))
  {
    u := JobUpdate1(t).value;
  }

  lemma PutStep(s: State, o: Opening, job: Job, rows: map<Key, TweetRow>, archive: Archive, told: bool, t: State,
                goto: JobGoto, cache: map<JobId, Ref>) returns (u: State)
    requires During(s, o, job, rows, archive, told, t.(mem := t.mem.(cache := cache)))
    requires t.jl == JobRunning(o.id, o.r, Store2(goto)) && t.mem.cache == s.mem.cache[o.id := o.r]
    ensures JobNext(t, JobPut) == Some(u) && During(s, o, job, rows, archive, true, u)
    ensures u.jl == if goto.ToEnd? then JobIdle else JobRunning(o.id, o.r, JobReturnsTo(goto))
  {
    u := HandShape(t, o.id, o.r, goto);
  }

  lemma HandShape(t: State, id: JobId, r: Ref, goto: JobGoto) returns (u: State)
    requires t.jl == JobRunning(id, r, Store2(goto)) && r in t.mem.heap && t.mem.heap[r].id == id
    ensures JobNext(t, JobPut) == Some(u) && u == t.(jl := u.jl, mem := u.mem, hist := u.hist)
    ensures u.mem == t.mem.(pending := t.mem.pending[id := r], latest := u.mem.latest, dirty := u.mem.dirty,
                            log := u.mem.log)
    ensures u.hist.uploads == t.hist.uploads
    ensures u.jl == if goto.ToEnd? then JobIdle else JobRunning(id, r, JobReturnsTo(goto))
  {
    u := JobUpdate2(t).value;
  }

  /** An update of the job. */
  lemma Updates(s: State, o: Opening, job: Job, rows: map<Key, TweetRow>, archive: Archive, told: bool, t: State,
                goto: JobGoto) returns (u: State)
    requires Reaches(s, t) && During(s, o, job, rows, archive, told, t) && t.jl == JobRunning(o.id, o.r, Store1(goto))
    ensures Reaches(s, u) && During(s, o, job.(updatedAt := s.now), rows, archive, true, u)
    ensures u.jl == if goto.ToEnd? then JobIdle else JobRunning(o.id, o.r, JobReturnsTo(goto))
  {
    var t1 := StampStep(s, o, job, rows, archive, told, t, goto);
    ReachesThen(s, t, J(JobStore), t1);
    u := PutStep(s, o, job.(updatedAt := s.now), rows, archive, told, t1, goto, t.mem.cache);
    ReachesThen(s, t1, J(JobPut), u);
  }

  /** The job runs, and its archive is about to be read. */
  lemma Starts(s: State, o: Opening) returns (u: State)
    requires s.jl == JobTaken(o.id) && o.r !in s.mem.heap && o.id in s.mem.jobs && s.mem.jobs[o.id].id == o.id
    ensures Reaches(s, u) && u.jl == JobRunning(o.id, o.r, Parse)
    ensures During(s, o, s.mem.jobs[o.id].(status := Running, updatedAt := s.now), s.rows, s.archive, true, u)
  {
    var row := s.mem.jobs[o.id];
    ReachesSelf(s);
    var s1 := LoadStep(s, o);
    ReachesThen(s, s, J(JobLoad(o.r, true)), s1);
    var s2 := BeginStep(s, o, row, s1);
    ReachesThen(s, s1, J(JobBegin), s2);
    u := Updates(s, o, row.(status := Running), s.rows, s.archive, false, s2, ToParse);
  }

  lemma FailStep(s: State, o: Opening, job: Job, t: State) returns (u: State)
    requires During(s, o, job, s.rows, s.archive, true, t) && t.jl == JobRunning(o.id, o.r, Parse)
    requires o.parsed.Unreadable? && o.parsed.message != ""
    ensures JobNext(t, JobParseFails(o.parsed.message)) == Some(u) && u.jl == JobRunning(o.id, o.r, Store1(ToEnd))
    ensures During(s, o, job.(status := Status.Failed, error := o.parsed.message), s.rows, s.archive, true, u)
  {
    u := FailsParsing(t, o.parsed.message).value;
  }

  lemma ParseStep(s: State, o: Opening, job: Job, t: State) returns (u: State)
    requires During(s, o, job, s.rows, s.archive, true, t) && t.jl == JobRunning(o.id, o.r, Parse)
    requires o.parsed.Archive?
    ensures JobNext(t, JobParses(o.parsed.tweets)) == Some(u) && u.jl == JobRunning(o.id, o.r, Save(0))
    ensures During(s, o, job, s.rows, s.archive[o.id := o.parsed.tweets], true, u)
  {
    u := ParsesArchive(t, o.parsed.tweets).value;
  }

  lemma SaveTweetStep(s: State, o: Opening, job: Job, i: nat, rows: map<Key, TweetRow>, t: State) returns (u: State)
    requires o.parsed.Archive? && i < |o.parsed.tweets|
    requires During(s, o, job, rows, s.archive[o.id := o.parsed.tweets], true, t)
    requires t.jl == JobRunning(o.id, o.r, Save(i))
    ensures JobNext(t, JobSaveTweet(o.saves(i))) == Some(u) && u.jl == JobRunning(o.id, o.r, Save(i + 1))
    ensures var tweet := o.parsed.tweets[i];
            var k := Key(o.id, tweet.id);
            During(s, o, job,
                   if o.saves(i) && k !in rows then rows[k := TweetRow(tweet, false, false, s.now)] else rows,
                   s.archive[o.id := o.parsed.tweets], true, u)
  {
    u := SavesTweet(t, o.saves(i)).value;
  }

  /** The first `i` tweets have been saved, or not. */
  ghost predicate SavedUpTo(s: State, o: Opening, job: Job, i: nat, t: State) {
    && o.parsed.Archive? && i <= |o.parsed.tweets| && t.jl == JobRunning(o.id, o.r, Save(i))
    && During(s, o, job, SavedRows(s.rows, o.id, o.parsed.tweets, i, s.now, o.saves), s.archive[o.id := o.parsed.tweets],
              true, t)
  }

  lemma OneSaved(s: State, o: Opening, job: Job, i: nat, t: State) returns (u: State)
    requires SavedUpTo(s, o, job, i, t) && i < |o.parsed.tweets|
    ensures JobNext(t, JobSaveTweet(o.saves(i))) == Some(u) && SavedUpTo(s, o, job, i + 1, u)
  {
    u := SaveTweetStep(s, o, job, i, SavedRows(s.rows, o.id, o.parsed.tweets, i, s.now, o.saves), t);
  }

  lemma {:induction false} Saves(s: State, o: Opening, job: Job, i: nat, t: State) returns (u: State)
    requires Reaches(s, t) && SavedUpTo(s, o, job, 0, t) && i <= |o.parsed.tweets|
    ensures Reaches(s, u) && SavedUpTo(s, o, job, i, u)
  {
    if i == 0 {
      u := t;
    } else {
      var v := Saves(s, o, job, i - 1, t);
      u := OneSaved(s, o, job, i - 1, v);
      ReachesThen(s, v, J(JobSaveTweet(o.saves(i - 1))), u);
    }
  }

  lemma TotalStep(s: State, o: Opening, job: Job, rows: map<Key, TweetRow>, t: State) returns (u: State)
    requires o.parsed.Archive? && During(s, o, job, rows, s.archive[o.id := o.parsed.tweets], true, t)
    requires t.jl == JobRunning(o.id, o.r, Save(|o.parsed.tweets|))
    ensures JobNext(t, JobTotal) == Some(u) && u.jl == JobRunning(o.id, o.r, Store1(ToFilter(0, 0)))
    ensures During(s, o, job.(total := |o.parsed.tweets|), rows, s.archive[o.id := o.parsed.tweets], true, u)
  {
    u := SetsTotal(t).value;
  }

  lemma FailureRefines(s: State, o: Opening, job: Job, t: State) returns (u: State)
    requires Reaches(s, t) && t.jl == JobRunning(o.id, o.r, Parse) && During(s, o, job, s.rows, s.archive, true, t)
    requires o.parsed.Unreadable? && o.parsed.message != ""
    ensures Reaches(s, u) && u.jl == JobIdle
    ensures During(s, o, job.(status := Status.Failed, error := o.parsed.message, updatedAt := s.now), s.rows,
                   s.archive, true, u)
  {
    var t1 := FailStep(s, o, job, t);
    ReachesThen(s, t, J(JobParseFails(o.parsed.message)), t1);
    u := Updates(s, o, job.(status := Status.Failed, error := o.parsed.message), s.rows, s.archive, true, t1, ToEnd);
  }

  lemma ArchiveRefines(s: State, o: Opening, job: Job, t: State) returns (u: State)
    requires Reaches(s, t) && t.jl == JobRunning(o.id, o.r, Parse) && During(s, o, job, s.rows, s.archive, true, t)
    requires o.parsed.Archive?
    ensures Reaches(s, u) && u.jl == JobRunning(o.id, o.r, Filter(0, 0))
    ensures var n := |o.parsed.tweets|;
            During(s, o, job.(total := n, updatedAt := s.now),
                   SavedRows(s.rows, o.id, o.parsed.tweets, n, s.now, o.saves), s.archive[o.id := o.parsed.tweets],
                   true, u)
  {
    var n, archive := |o.parsed.tweets|, s.archive[o.id := o.parsed.tweets];
    var rows := SavedRows(s.rows, o.id, o.parsed.tweets, n, s.now, o.saves);
    var t1 := ParseStep(s, o, job, t);
    ReachesThen(s, t, J(JobParses(o.parsed.tweets)), t1);
    var t2 := Saves(s, o, job, n, t1);
    var t3 := TotalStep(s, o, job, rows, t2);
    ReachesThen(s, t2, J(JobTotal), t3);
    u := Updates(s, o, job.(total := n), rows, archive, true, t3, ToFilter(0, 0));
  }

  /** A job whose row cannot be read, or is not there, is given up and nothing else happens. */
  lemma UnreadableJobRefines(s: State, id: JobId, r: Ref, readable: bool) returns (u: State)
    requires s.jl == JobTaken(id) && r !in s.mem.heap && !(readable && id in s.mem.jobs)
    ensures Reaches(s, u) && u == s.(jl := JobIdle, hist := s.hist.(phase := s.hist.phase[id := Ended]))
  {
    ReachesSelf(s);
    u := LoadsJob(s, r, readable).value;
    ReachesThen(s, s, J(JobLoad(r, readable)), u);
  }

  /** Phase 1 as the code runs it is a run of the machine, with the record, rows, cache and pending updates that
      `ParseJob` leaves: to the top of the phase-2 loop, or to the job's end where the archive cannot be read. */
  lemma PhaseOneRefines(s: State, o: Opening) returns (u: State)
    requires s.jl == JobTaken(o.id) && o.r !in s.mem.heap && o.id in s.mem.jobs && s.mem.jobs[o.id].id == o.id
    requires o.parsed.Unreadable? ==> o.parsed.message != ""
    ensures Reaches(s, u)
    ensures u.jl == if o.parsed.Archive? then JobRunning(o.id, o.r, Filter(0, 0)) else JobIdle
    ensures During(s, o, AfterParsing(s.mem.jobs[o.id], o.parsed, s.now),
                   if o.parsed.Unreadable? then s.rows
                   else SavedRows(s.rows, o.id, o.parsed.tweets, |o.parsed.tweets|, s.now, o.saves),
                   if o.parsed.Unreadable? then s.archive else s.archive[o.id := o.parsed.tweets], true, u)
  {
    var job := s.mem.jobs[o.id].(status := Running, updatedAt := s.now);
    var t := Starts(s, o);
    match o.parsed {
      case Unreadable(_) => u := FailureRefines(s, o, job, t);
      case Archive(_) => u := ArchiveRefines(s, o, job, t);
    }
  }
}
