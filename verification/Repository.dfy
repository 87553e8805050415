/** The tables of the database, as the program's repository reads and writes them. */
module Repositories {
  import opened Model
  import opened Pipeline
  import opened Quotients

  // ------------------------------------------------------------------ retries

  datatype DbResult = Written | Locked | Broken

  const MAX_RETRIES := 5
  const FIRST_BACKOFF := 10_000_000

  /** What a statement does at its first attempts that is not to be repeated, if there is one. */
  ghost predicate SettledAt(db: nat -> DbResult, k: nat) {
    k < MAX_RETRIES && (k == MAX_RETRIES - 1 || !db(k).Locked?) && forall i :: 0 <= i < k ==> db(i).Locked?
  }

  /** Five attempts at most, with doubled waits between them.  The error after the loop is never reached. */
  method ExecWithRetry(db: nat -> DbResult) returns (ok: bool, attempts: nat, slept: nat)
    ensures attempts >= 1 && SettledAt(db, attempts - 1)
    ensures ok <==> db(attempts - 1).Written?
    ensures slept == FIRST_BACKOFF * (Pow2(attempts - 1) - 1)
  {
    var backoff := FIRST_BACKOFF;
    slept := 0;
    var attempt := 0;
    while attempt < MAX_RETRIES
      invariant attempt < MAX_RETRIES
      invariant forall i :: 0 <= i < attempt ==> db(i).Locked?
      invariant backoff == FIRST_BACKOFF * Pow2(attempt) && slept == FIRST_BACKOFF * (Pow2(attempt) - 1)
    {
      match db(attempt) {
        case Written => return true, attempt + 1, slept;
        case Broken => return false, attempt + 1, slept;
        case Locked =>
          if attempt == MAX_RETRIES - 1 {
            return false, attempt + 1, slept;
          }
          slept := slept + backoff;
          backoff := 2 * backoff;
          attempt := attempt + 1;
      }
    }
  }

  // ------------------------------------------------------------------ jobs in memory

  /** A job record in memory; the program passes pointers to it around.  `ref` stands for its address. */
  class JobRecord {
    ghost const ref: Ref
    const id: JobId
    const fileId: FileId
    const criteria: Option<Criteria>
    const createdAt: Time
    var status: Status
    var processed: int
    var total: int
    var gemini: int
    var flagged: int
    var error: string
    var updatedAt: Time

    constructor (ghost ref: Ref, j: Job)
      ensures this.ref == ref && Value() == j
    {
      this.ref := ref;
      id, fileId, criteria, createdAt := j.id, j.fileId, j.criteria, j.createdAt;
      status, processed, total, gemini := j.status, j.processed, j.total, j.gemini;
      flagged, error, updatedAt := j.flagged, j.error, j.updatedAt;
    }

    function Value(): Job
      reads this
    {
      Job(id, fileId, status, processed, total, gemini, flagged, criteria, error, createdAt, updatedAt)
    }
  }

  // ------------------------------------------------------------------ tables

  /** `ok` says whether the statement succeeds, after retries where there are any. */
  class Repository {
    var jobs: map<JobId, Job>
    var rows: map<Key, TweetRow>
    var flagged: seq<FlaggedRow>
    var quota: map<Day, nat>

    /** No retries here. */
    method SaveJob(job: JobRecord, ok: bool)
      modifies this`jobs
      ensures jobs == if ok then Pipeline.SaveJob(old(jobs), job.Value()) else old(jobs)
      ensures ok ==> job.id in jobs && IsSaved(old(jobs), job.Value(), jobs[job.id])
      ensures forall id :: id != job.id ==>
                (id in jobs <==> id in old(jobs)) && (id in jobs ==> jobs[id] == old(jobs)[id])
    {
      SaveJobSaves(jobs, job.Value());
      if ok {
        var row := Row(job.Value());
        if job.id in jobs {
          row := row.(fileId := jobs[job.id].fileId, createdAt := jobs[job.id].createdAt);
        }
        jobs := jobs[job.id := row];
      }
    }

    method GetJob(id: JobId, ok: bool) returns (row: Option<Job>)
      ensures row == if ok && id in jobs then Some(jobs[id]) else None
    {
      row := if ok && id in jobs then Some(jobs[id]) else None;
    }

    /** The row's key is the tweet's ID within the job: a second tweet of that ID is refused. */
    method SaveTweet(id: JobId, tweet: Tweet, now: Time, ok: bool)
      modifies this`rows
      ensures rows == if ok && Key(id, tweet.id) !in old(rows)
                      then old(rows)[Key(id, tweet.id) := TweetRow(tweet, false, false, now)] else old(rows)
    {
      if ok && Key(id, tweet.id) !in rows {
        rows := rows[Key(id, tweet.id) := TweetRow(tweet, false, false, now)];
      }
    }

    method MarkTweetNeedsGemini(k: Key, ok: bool)
      modifies this`rows
      ensures rows == if ok then MarkNeeds(old(rows), k) else old(rows)
      ensures ok ==> IsMarked(old(rows), k, true, rows)
    {
      MarksMark(rows, k);
      if ok && k in rows {
        rows := rows[k := rows[k].(needsGemini := true)];
      }
    }

    method MarkTweetProcessed(k: Key, ok: bool)
      modifies this`rows
      ensures rows == if ok then MarkProcessed(old(rows), k) else old(rows)
      ensures ok ==> IsMarked(old(rows), k, false, rows)
    {
      MarksMark(rows, k);
      if ok && k in rows {
        rows := rows[k := rows[k].(processed := true)];
      }
    }

    method SaveFlaggedTweet(row: FlaggedRow, ok: bool)
      modifies this`flagged
      ensures flagged == if ok then old(flagged) + [row] else old(flagged)
    {
      if ok {
        flagged := flagged + [row];
      }
    }

    method GetTodayQuotaUsage(today: Day) returns (calls: nat)
      ensures calls == Quota(quota, today)
      ensures if today in quota then calls == quota[today] else calls == 0
    {
      calls := if today in quota then quota[today] else 0;
    }

    method IncrementQuotaUsage(today: Day, ok: bool)
      modifies this`quota
      ensures quota == if ok then old(quota)[today := Quota(old(quota), today) + 1] else old(quota)
      ensures ok ==> today in quota && quota[today] == if today in old(quota) then old(quota)[today] + 1 else 1
    {
      if ok {
        quota := quota[today := if today in quota then quota[today] + 1 else 1];
      }
    }
  }
}
