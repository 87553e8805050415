# Tweet-audit: verified model of the moderation pipeline

The program takes an X archive, filters its tweets, has the rest scored by the Gemini API, and keeps jobs,
tweets and flags in SQLite. This project models that pipeline in Dafny 4.11 and proves what it keeps, in every
interleaving of its goroutines and whatever writes, reads and API calls fail; and, where the program does not
keep what it seems to promise, exactly when it does, with an input that shows it. `dafny verify dfyconfig.toml`
checks everything. Nothing was executed.

## How it is built

**The step machine.** `Pipeline.dfy` is the worker as a state and its steps. A step is one lock-protected
section, one statement to the database, one channel operation or one group of field updates of a job; its
parameters are what the environment decides (which reads and writes succeed, how `Score` ends, addresses of
new objects, the clock). The actors are the job loop, the tweet loop, the flusher, callers of `EnqueueParse` and
`GetJob`, and the clock. Jobs in memory are objects known by reference, so the job loop's pointer, the tweet
loop's own load, the cache, the pending updates and the batch being flushed alias as they do in the program. A
run is a sequence of states with the steps between them (`IsRun`), and `Reachable` is what some run from a start
reaches; `Next` is a function to `Option`, `None` where the step cannot be taken.
Fields of `History` are ghosts of the program: they record events (scorings, flags, places of tweets, failed
writes) that the theorems compare the program's data with; `Histories` says which steps add to them.

**Invariants.** Each file states one family over the parts of the state it needs and proves that every step
keeps it: references (`PipelineLinks`), bounds and identity of copies (`PipelineCopies`), the write-behind layers
(`PipelineStore`), criteria (`PipelineCalls`), exact counters (`PipelineExact`), failures (`PipelineFailures`), the
daily quota (`PipelineQuota`), lengths of archives and the row loaded for a tweet (`PipelineTotals`), whose object
the cache holds (`CacheLog`, `PipelineCache`). Tweets are followed through a smaller machine (`PipelineFlow`), which
every step of the pipeline is shown to follow, and on which places, tallies, closed tweets and rows are proved
(`FlowPlaces`, `FlowTally`, `FlowClosed`, `FlowRows`); `PipelineVerdicts` says that places are what the filters decide.
`PipelineShapes` spells out what single steps change. `PipelineRuns` joins all this over whole runs;
`PipelineTheorems`, `TweetTheorems` and `StuckTheorems` state the results.

**Runs.** Where a property fails, a run from start shows it: `FirstJob` takes any first job from its upload to the end
of phase 2, and `EarlyDone`, `CacheRuns` and `StuckRuns` go on from there.

**The code.** `Repository.dfy` and `Worker.dfy` are the repository and the worker as classes whose methods mutate
job records, maps and tables as the Go methods do. Their contracts equate results and new state with functions
of the old state, and say the same again column by column, without those functions; `PhaseOneRefinement`,
`PipelineRefinement` and `TweetRefinement` show that these functions are what runs of the step machine do, from the
upload to the last tweet. `PhaseTwo.dfy` says what phase 2 comes to, position by position; `Channels.dfy` that the
channels keep order. `CircuitBreaker.dfy`, `RateLimiter.dfy` and `Scorer.dfy` are the breaker, the limiter and the
retry loop as classes, each tied to a specification (a replay of the history, a bucket, a trace) that the theorems
are about; `CircuitTheorems` and `LimiterTheorems` say exactly when breaker and limiter let a caller through,
`ScorerEndings` how a call of `Score` ends; `Crowd.dfy` adds several callers of the limiter.
`Parser.dfy`, `Pagination.dfy` and `Filters.dfy` are the three smaller parts.

## What was found

- A job is shown as done too early. Whether it is marked done depends only on the row loaded for the tweet just
  scored: done if and only if that row's processed + 1 >= total (`TweetTheorems.DoneIffRowSays`). An update reaches the
  row only at the next flush, so the first tweet usually finds the row of the upload, with total 0, and the first
  score marks the job done with 1 of 0 processed (`EarlyDone.DoneWithNoTotal`). With every update flushed before it is
  read the job is still done too early, since phase 2 counts a tweet it queues and phase 3 counts it again:
  as soon as as many tweets are scored as phase 2 passed over (`TweetTheorems.DoneIsEarly`;
  `EarlyDone.DoneWithTweetWaiting` ends done with 3 of 2 processed and a tweet in the channel). Some run shows a job of
  an archive as done with a tweet of it unscored if and only if the filters let at least two of its tweets pass
  (`EarlyDone.EarlyDoneIff`). `processed_count` can reach twice `total_count`, and no more.
- Cache and last hand-over of a job are the same object, between updates, if and only if no update of the job by the
  other loop lay wholly within the one last handed over and no reader has stored the job since that one reached the
  cache (`PipelineTheorems.CacheShowsHandOverIff`). `CacheRuns` has a run from start for either case.
- A tweet put back into a full channel after the API's quota is spent blocks the tweet loop for good
  (`StuckTheorems.StuckForever`). It can happen with an archive if and only if the filters let more of its tweets pass
  than the channel holds (`StuckRuns.StuckIff`); with several, never while all that pass fit into it
  (`StuckTheorems.NeverStuckWithRoom`).
- Tweets with equal IDs share a row. A tweet that waits is found by the recovery query if and only if no tweet with
  its ID is done with (`TweetTheorems.WaitingTweetFoundIff`); `EarlyDone.DuplicateIsNotRecovered` is a run in which it
  is not found.
- An archive spread over several lines is extracted correctly if and only if the regular expression matches
  nowhere in it; a tweet that says `a = [b]` is enough (`Parsing.TweetTextHijacksExtraction`).
- A spent daily quota that shows only in the last attempt's reply is not recognised
  (`ScoringTheorems.DailyQuotaMissedOnLastAttempt`), so never without retries (`DailyQuotaMissedWithoutRetries`).
- Concurrent waiters of the rate limiter can all be granted at one instant (`RateLimiting.ConcurrentBurst`), so the
  bound for k callers has a factor k (`CrowdLimiting.CrowdGrantsBounded`).
- The offset of a page wraps round at 64 bits, so a page far past the end can show rows
  (`Pagination.HugePageShowsFirstPage`).

Where comments or documents and code disagree, the model follows the code: half-open calls are not limited in
number (`internal/tweets/scorer/circuit_breaker.go:103-105`); `halfOpenTimeout` is stored and never read; the wait
path of the limiter refills the whole bucket, not one token (`internal/tweets/scorer/rate_limiter.go:59`); of the
permanent errors only 401, 403 and 404 open the breaker at once, contrary to `TRADEOFFS.md`; `SaveJob` does not
retry, contrary to the comment at `internal/tweets/worker/worker.go:625`.

## Model

| member | source | states |
|---|---|---|
| CircuitBreaking.CircuitBreaker.BeforeCall | internal/tweets/scorer/circuit_breaker.go:81-109 | admits unless open and within the timeout; an admission in the open state turns half-open; recorded in the history, of which the fields stay the replay; `RefusedIff` and `Recovers` say what that means |
| CircuitBreaking.CircuitBreaker.AfterCall | internal/tweets/scorer/circuit_breaker.go:111-120 | the completion is recorded and the fields are the replay of the history with it |
| CircuitBreaking.CircuitBreaker.OnFailure | internal/tweets/scorer/circuit_breaker.go:122-169 | new state after a failure, critical or not, in each of the three states |
| CircuitBreaking.CircuitBreaker.OnSuccess | internal/tweets/scorer/circuit_breaker.go:171-186 | new state after a success in each of the three states |
| CircuitBreaking.CountersRefineHistory | internal/tweets/scorer/circuit_breaker.go:81-186 | for any interleaving: closed, `failures` is the run of failures since the last success and below the threshold; open or half-open, it is the threshold; half-open, `successes` counts the completions since entry, all successes, below the success threshold |
| CircuitBreaking.ClosesExactlyAtThreshold | internal/tweets/scorer/circuit_breaker.go:171-186 | a half-open breaker closes if and only if the completion is the successThreshold-th since entry, all successes |
| CircuitBreaking.CoolDownIsExact | internal/tweets/scorer/circuit_breaker.go:92-101 | after an opening at t, also from half-open, the next attempt is admitted if and only if it comes at or after t + timeout, whatever stale completions arrive |
| CircuitBreaking.NoAdmissionDuringCoolDown | internal/tweets/scorer/circuit_breaker.go:92-101 | no attempt before t + timeout is admitted |
| CircuitTheorems.RefusedIff | internal/tweets/scorer/circuit_breaker.go:81-109 | an attempt is refused if and only if the history shows an opening at some t, no attempt since that was late enough to be admitted, and a clock before t + timeout; so never half-open |
| CircuitTheorems.ModeChangesExactly | internal/tweets/scorer/circuit_breaker.go:81-186 | every change of mode: closed to open exactly on a critical failure or the failureThreshold-th since the last success; open to half-open exactly on the first attempt after the cool-down; half-open to open exactly on a failure, to closed exactly on the successThreshold-th success |
| CircuitTheorems.Recovers | internal/tweets/scorer/circuit_breaker.go:92-186 | from the first attempt after a cool-down on, as long as no completion fails, every attempt is admitted, and the breaker is closed exactly from the successThreshold-th success on |
| CircuitBreaking.OutageAdmissionsBounded | internal/tweets/scorer/circuit_breaker.go:81-169 | one caller, all completions of a window of length T failing: at most failureThreshold + T/timeout admissions, from any state |
| RateLimiting.RateLimiter.Wait | internal/tweets/scorer/rate_limiter.go:30-64 | grant or cancellation, the new bucket on both refill paths, and the time of the grant |
| RateLimiting.BucketStaysInRange | internal/tweets/scorer/rate_limiter.go:30-64 | 0 <= tokens <= maxTokens for any interleaving of any callers |
| RateLimiting.ConcurrentBurst | internal/tweets/scorer/rate_limiter.go:51-63 | n callers that find the bucket empty are all granted at the same later instant |
| RateLimiting.RefillsAreSpaced | internal/tweets/scorer/rate_limiter.go:34-60 | refills by either path are at least refillRate apart |
| RateLimiting.SleepAtMostOneInterval | internal/tweets/scorer/rate_limiter.go:50-57 | a sleep is positive and at most refillRate |
| LimiterTheorems.SleepsExactly | internal/tweets/scorer/rate_limiter.go:34-57 | a call sleeps if and only if the bucket is empty and less than an interval has passed since the last refill, and then until that interval is over |
| LimiterTheorems.AtOnceExactly | internal/tweets/scorer/rate_limiter.go:34-48 | of serial calls that enter less than an interval after the refill the first one makes or finds, exactly the first n go through at once, n being the tokens left plus one for each whole interval, up to maxTokens |
| LimiterTheorems.AfterSleep | internal/tweets/scorer/rate_limiter.go:56-61 | after a call that slept, exactly the next maxTokens - 1 calls of the interval go through at once, and the one after them sleeps |
| LimiterTheorems.SinceConstruction | internal/tweets/scorer/rate_limiter.go:20-48 | from construction exactly the first maxTokens calls of the interval go through at once |
| RateLimiting.WindowGrantsBounded | internal/tweets/scorer/rate_limiter.go:30-64 | serial use: at most maxTokens * (T/refillRate + 2) grants in any window of length T |
| RateLimiting.GrantsSinceConstructionBounded | internal/tweets/scorer/rate_limiter.go:20-64 | serial use: at most maxTokens * (t/refillRate + 1) grants from construction to time t |
| CrowdLimiting.CrowdGrantsBounded | internal/tweets/scorer/rate_limiter.go:30-64 | at most k callers at a time, in any interleaving: at most maxTokens * (k * (T/refillRate + 1) + 1) grants in any window of length T |
| Scoring.GeminiScorer.SetCriteria | internal/tweets/scorer/gemini.go:87-93 | replaces the criteria, unless none are given |
| Scoring.GeminiScorer.CallWithCriticalError | internal/tweets/scorer/circuit_breaker.go:64-79 | one attempt: refused with limiter and semaphore untouched, or token, slot, call, and report to the breaker |
| Scoring.GeminiScorer.Score | internal/tweets/scorer/gemini.go:96-239 | the retry loop refines the recursive specification `ScoreTrace`: result, API calls, new state of breaker, limiter and semaphore, and the criteria of the prompt |
| ScoringEndings.ScoreEnds | internal/tweets/scorer/gemini.go:96-239 | whatever the environment does: the attempt with which `Score` ends is the first that is not retried, or the last there is; the result, calls, sleeps and resources are what that attempt meets with, outcome by outcome |
| ScoringEndings.ScoredIff | internal/tweets/scorer/gemini.go:166-235 | the result is `Scored(flag)` if and only if the API answers some attempt, after retried ones only, with that verdict |
| ScoringEndings.PermanentErrorEndsScore | internal/tweets/scorer/gemini.go:166-184 | a status from 400 to 499 other than 429 is the last call and comes back with its body; 401, 403 and 404 open a closed breaker at once, the others only as the last failure it bears |
| ScoringEndings.ExhaustedIff | internal/tweets/scorer/gemini.go:185-199 | a spent quota is told by five texts, anywhere in the body |
| ScoringTheorems.ScoreIsBounded | internal/tweets/scorer/gemini.go:103-238 | at most maxRetries + 1 API calls and maxRetries sleeps; the error after the loop is never returned |
| ScoringTheorems.BackoffClosedForm | internal/tweets/scorer/gemini.go:185-228 | with a sleeps after 429 and b others the sleep is exactly the sum of min(60 * 2^i, 300) s for i < a, plus retryBackoff * (2^b - 1) |
| ScoringTheorems.DailyQuotaDetectedBeforeLastAttempt | internal/tweets/scorer/gemini.go:185-199 | the quota error is returned if and only if the environment lets some attempt before the last reach the API and get a spent quota in reply, all attempts before it being retried |
| ScoringTheorems.DailyQuotaMissedOnLastAttempt | internal/tweets/scorer/gemini.go:185-231 | where attempt n is the first to be told of a spent quota, the quota error is returned if and only if n < maxRetries; at n = maxRetries it comes back as a plain status 429 |
| ScoringTheorems.DailyQuotaMissedWithoutRetries | internal/tweets/scorer/gemini.go:185-231 | a fresh scorer with maxRetries 0 that is told `RESOURCE_EXHAUSTED` returns a plain status 429 |
| ScoringTheorems.ScoreDuringOutage | internal/tweets/scorer/gemini.go:103-238 | closed with f failures and only flaky replies: exactly min(maxRetries + 1, failureThreshold - f) API calls, then the breaker's refusal if failureThreshold - f <= maxRetries and the last error otherwise |
| ScoringTheorems.EveryCallHasItsToken | internal/tweets/scorer/gemini.go:106-135 | API calls never exceed tokens granted, the semaphore is as before, breaker and limiter are where the recorded events take them |
| ScoringTheorems.CoolDownStopsScore | internal/tweets/scorer/gemini.go:106-166 | while the breaker cools down `Score` fails at once and changes neither limiter nor semaphore |
| ScoringTheorems.OutageCallsBounded | internal/tweets/scorer/gemini.go:96-239 | any number of `Score` calls in a row during an outage of length T make at most failureThreshold + T/timeout API calls |
| Parsing.SearchFindsChosenMatch | internal/tweets/parser/parser.go:149-153 | the search returns the group of the leftmost-greedy match, and none exactly when nothing matches |
| Parsing.ChosenIsUnique | internal/tweets/parser/parser.go:149-153 | leftmost-greedy semantics picks one match |
| Parsing.OneLineRoundTrip | internal/tweets/parser/parser.go:146-153 | prefix + "=" + space + J + suffix extracts to J for a one-line array J |
| Parsing.MultiLineRoundTripIff | internal/tweets/parser/parser.go:146-163 | an array over several lines extracts to itself if and only if the expression matches nowhere |
| Parsing.TweetTextHijacksExtraction | internal/tweets/parser/parser.go:149-153 | a two-line archive whose tweet says `a = [b]` extracts wrongly |
| Parsing.ResultIsBracketedPiece | internal/tweets/parser/parser.go:146-163 | a non-empty result is a piece of the file from "[" to "]"; it is empty exactly when no "[" precedes a "]" |
| Parsing.ConvertTweets | internal/tweets/parser/parser.go:120-141 | the tweets that are not retweets, in order; with the retweets they are all |
| Parsing.OriginalsExact | internal/tweets/parser/parser.go:120-141 | wherever a tweet stands: it is left out if and only if its text is white space, then `RT @`, then anything, and else keeps its place, ID and full text, or text where that is empty |
| Pagination.ListFlaggedTweets | internal/tweets/service/service.go:19-43 | the rows from the 64-bit offset on, as many as there are up to the clamped size, and the total |
| Pagination.FilteredExactly | internal/tweets/repository/repository.go:295-351 | the filter keeps each row of the job, or every row without a job, as often as it is there, and no other |
| Pagination.ClampsAgree | internal/tweets/handler/handler.go:40-41 | page 1 and size 20 for what is missing, malformed or below 1, size 100 for what is above; the service changes nothing of that |
| Pagination.PagesPartitionListing | internal/tweets/handler/handler.go:43-66 | pages 1 to total_pages are the listing: each row of the filter exactly once, in order; all but the last are full, and that one is not empty |
| Pagination.LaterPagesEmptyIff | internal/tweets/service/service.go:32-33 | a later page is empty if and only if its wrapped offset is past the end |
| Pagination.HugePageShowsFirstPage | internal/tweets/service/service.go:32-33 | a page number whose offset wraps round to 0 shows the first page |
| Pagination.ExportFlaggedTweets | internal/tweets/service/service.go:51-66 | the URLs, where not empty, of the first 10000 rows in order |
| Pagination.UrlsExact | internal/tweets/service/service.go:51-66 | wherever a row stands, its URL is exported in its place unless it is empty |
| Pagination.ExportEqualsPagesIff | internal/tweets/service/service.go:51-66 | the export is the URLs of all pages if and only if there are at most 10000 rows |
| Pagination.ExportOfFewRows | internal/tweets/service/service.go:51-66 | up to 10000 rows the export is the non-empty URLs of all pages, also where some are empty |
| Filters.ApplyFilters | internal/tweets/worker/worker.go:644-695 | the verdict told by what the text contains, whatever the case of its letters: the first phrase of the policy that is not empty and occurs, or else a threat, or else hate speech, with score and reason; none without a policy |
| Filters.FirstBlockingIsFirst | internal/tweets/worker/worker.go:651-662 | the blocked word reported is the first of the policy's words that the tweet contains; none is reported exactly when it contains none |
| Filters.LowerByTable | internal/tweets/worker/worker.go:649 | folding turns the 26 capital letters into the small ones and changes nothing else |
| Filters.CaseDoesNotMatter | internal/tweets/worker/worker.go:649-662 | texts that differ in the case of their letters get the same verdict |
| Repositories.Repository.SaveJob | internal/tweets/repository/repository.go:34-71 | column by column: the row gets the job's status, counters, criteria and error text, and the second it was changed in; a new row its file and the second it was made in, an existing one keeps its own; no other row is touched |
| Repositories.Repository.SaveTweet | internal/tweets/repository/repository.go:118-140 | inserts the row unless its key is taken |
| Repositories.Repository.MarkTweetNeedsGemini | internal/tweets/repository/repository.go:190-193 | sets that mark of an existing row, and changes no other column and no other row |
| Repositories.Repository.MarkTweetProcessed | internal/tweets/repository/repository.go:196-199 | closes an existing row, and changes no other column and no other row |
| Repositories.Repository.SaveFlaggedTweet | internal/tweets/repository/repository.go:230-248 | appends the flagged row |
| Repositories.Repository.IncrementQuotaUsage | internal/tweets/repository/repository.go:217-227 | the day's count goes up by one, from 0 for a day without a row |
| Repositories.ExecWithRetry | internal/tweets/repository/repository.go:410-438 | ends at the first attempt that is not locked, or the fifth; waits 10 ms * (2^(attempts-1) - 1) in all; succeeds if and only if that attempt does |
| Workers.Worker.EnqueueParse | internal/tweets/worker/worker.go:108-139 | row, cache entry and queue entry of the new job, or the send waits, with row and cache entry made, exactly if the job channel is full |
| Workers.Worker.GetJob | internal/tweets/worker/worker.go:141-155 | the cached record, or a new record of the row, which is then cached |
| Workers.Worker.SaveTweets | internal/tweets/worker/worker.go:356-362 | the rows after all tweets were saved, or not, in order |
| Workers.Worker.ParseJob | internal/tweets/worker/worker.go:279-362 | phase 1: the job is running and reported, and then its archive's length is set or it is failed with the error text, and it is reported again; nothing happens where its row cannot be read |
| Workers.FirstSavedWins | internal/tweets/repository/repository.go:118-140 | of tweets with one ID the row is that of the first whose write succeeds, and there is none exactly when none succeeds; rows that are there and rows of other jobs stay |
| Workers.Worker.UpdateJob | internal/tweets/worker/worker.go:572-584 | the record is stamped, cached and pending, and added to the ghost list of reports |
| Workers.Worker.WriteJobs | internal/tweets/worker/worker.go:626-632 | every job given is written once, in any order, column by column as `SaveJob` says; rows of failed writes and of other jobs stay |
| Workers.Worker.FlushJobUpdates | internal/tweets/worker/worker.go:610-633 | every pending job is written once, in any order, column by column as `SaveJob` says; rows of failed writes and of other jobs stay |
| Workers.Worker.FilterTweet | internal/tweets/worker/worker.go:383-425 | the tweet is flagged, exactly if the job has criteria and the filters have a verdict, or queued, closed or passed over, or the send waits; with flagged rows, marks, channel and counts |
| Workers.Worker.CountTweet | internal/tweets/worker/worker.go:427-431 | counters advance; the job is reported if and only if its count has come to a multiple of 100 |
| Workers.Worker.TakeTurn | internal/tweets/worker/worker.go:383-431 | one turn advances the loop as `Turns` says, by one tweet, or the send waits |
| Workers.Worker.FilterAll | internal/tweets/worker/worker.go:371-432 | the whole loop is `Turns` |
| Workers.Worker.ApplyFiltersAndQueue | internal/tweets/worker/worker.go:368-438 | the loop leaves rows, flags, channel, record, cache, pending updates and the sequence of reports as the recursive `Turns` says |
| PhaseTwoTheorems.PhaseTwoExactly | internal/tweets/worker/worker.go:368-438 | the whole of phase 2: it waits if and only if the channel cannot take all that is to be sent; else exactly the tweets the filters catch are flagged, those let pass are in the channel, in order, all are counted but those that could not be marked, and there is one report for each multiple of 100 |
| Workers.Worker.PauseJob | internal/tweets/worker/worker.go:457-466 | over the quota the loaded job is paused and handed over |
| Workers.Worker.SleepAndRequeue | internal/tweets/worker/worker.go:486-522 | paused, resumed, and the tweet put back unless the channel is full |
| Workers.Worker.ReportScore | internal/tweets/worker/worker.go:556-566 | the counted job is handed over, and again, as done, if and only if its count has reached the total |
| Workers.Worker.RecordScore | internal/tweets/worker/worker.go:533-569 | quota, counters, flag, done check and mark after a score |
| Workers.Worker.ProcessTweetWithGemini | internal/tweets/worker/worker.go:441-570 | for every outcome, field by field: record, tables, channel, cache, pending updates and the sequence of reports; and the scorer's criteria are those of the job's row, or the default where it has none |
| PhaseOneRefinement.EnqueueRefines | internal/tweets/worker/worker.go:108-139 | an upload as the code runs it is a run of the step machine |
| PhaseOneRefinement.GetJobRefines | internal/tweets/worker/worker.go:141-155 | so is a query for a job that is not in the cache |
| PhaseOneRefinement.PhaseOneRefines | internal/tweets/worker/worker.go:261-364 | phase 1 as the code runs it is a run of the step machine, for any archive and any failing writes, and where the archive cannot be read |
| PhaseOneRefinement.UnreadableJobRefines | internal/tweets/worker/worker.go:274-278 | and where the job's row cannot be read, which gives the job up |
| PipelineRefinement.PhaseTwoRefines | internal/tweets/worker/worker.go:368-438 | phase 2 as the code runs it is a run of the step machine |
| PipelineRefinement.FlushRefines | internal/tweets/worker/worker.go:610-633 | a flush as the code runs it is a run of the step machine |
| TweetRefinement.TweetRefines | internal/tweets/worker/worker.go:468-569 | phase 3 of a tweet as the code runs it is a run of the step machine |
| TweetRefinement.PauseRefines | internal/tweets/worker/worker.go:454-466 | so is the pause over the quota |
| TweetRefinement.UnreadableRefines | internal/tweets/worker/worker.go:457-474 | and a visit that cannot read its job's row, which gives the tweet up |
| Channels.ChannelsInOrder | internal/tweets/worker/worker.go:158-199 | in every run what was in a channel and then what was sent is what has been received and then what is in it: nothing is lost, doubled or overtaken |
| Histories.HistoryRecords | internal/tweets/worker/worker.go:158-199 | each step adds to the history what its fields stand for, and nothing else |
| PipelineLinks.StepKeepsLinks | internal/tweets/worker/worker.go:158-199 | every reference leads to an object of its job, the loops never hold the same object and only what they hold is changed, each job passes its phases once |
| PipelineCopies.StepKeeps | internal/tweets/worker/worker.go:427-566 | every step keeps the bounds of every copy of every job |
| PipelineStore.StepKeepsLayers | internal/tweets/worker/worker.go:572-633 | every step keeps pending, batch and database layered, and the cache tied to them |
| PipelineStore.SavedRowAgrees | internal/tweets/repository/repository.go:34-113 | save and load round trip: in the row every column is the job's, and each time is the second that the job's time is in, over any row of the job's upload |
| CacheLogs.OvertakenIff | internal/tweets/worker/worker.go:572-584 | over every well-formed log of cache and hand-over events, the one who stored last is not the one who last handed over if and only if the update last handed over was overtaken |
| PipelineCache.StepKeepsCache | internal/tweets/worker/worker.go:108-155 | every step keeps cache and last hand-over tied to the log of each job |
| PipelineTotals.StepKeepsTotals | internal/tweets/worker/worker.go:261-364 | every step keeps each copy's total 0 or the archive's length, no copy done without a score counted, and the tweet loop's object the row it loaded, with the score in hand counted once |
| PipelineVerdicts.StepKeepsFiltered | internal/tweets/worker/worker.go:383-425 | every step keeps the place of each tweet on the side of the filters' verdict on it |
| PipelineFlow.StepFollows | internal/tweets/worker/worker.go:368-570 | each step of the pipeline is one event of the smaller tweet machine, or none |
| FlowPlaces.EventConserves | internal/tweets/worker/worker.go:383-570 | every event keeps each tweet in one place, which says where it is |
| FlowTally.EventKeepsTallies | internal/tweets/worker/worker.go:392-546 | every event keeps the counted events equal to the tweets in the places of those events |
| FlowTally.EventsBounded | internal/tweets/worker/worker.go:427-546 | scorings, and flags of both kinds together, never exceed the archive's length |
| FlowClosed.EventKeepsClosed | internal/tweets/worker/worker.go:422-530 | every event keeps the count of tweets closed without a score equal to the tweets in that place |
| FlowClosed.LeftCounted | internal/tweets/worker/worker.go:383-570 | tweets left, filter flags, tweets passed over, scorings and closed tweets add up to the archive's length, the tweet in hand with its score counting twice |
| FlowRows.EventKeepsFlags | internal/tweets/worker/worker.go:392-555 | every event keeps flagged rows to one for each tweet flagged |
| FlowRows.EventKeepsRows | internal/tweets/repository/repository.go:118-199 | every event keeps each row telling of the tweets that share its ID: it needs the scorer exactly if one of them was marked for it, and is processed exactly if one of them is finished |
| FlowRows.RecoveryComplete | internal/tweets/repository/repository.go:144-187 | with a limit that covers them the recovery query returns exactly the rows that need the scorer and are not processed |
| FlowRows.RecoveryExact | internal/tweets/repository/repository.go:144-187 | with reliable writes an ID is recovered if and only if one of its tweets has still to be scored and none is finished |
| PipelineRuns.RunKeepsInv | internal/tweets/worker/worker.go:158-199 | all invariants hold after any run |
| PipelineTheorems.NoCopyOverReports | internal/tweets/worker/worker.go:427-566 | in every run every copy has gemini <= scorings <= n, flagged <= flags <= n, processed <= advances + scorings <= 2n and total 0 or n for an archive of n tweets, the uploaded file and criteria, is done only after a score, and has an error text if and only if it is failed |
| PipelineTheorems.ReferencesAreCopies | internal/tweets/worker/worker.go:572-584 | loop pointers, cache, pending updates and batch are such copies of their jobs |
| PipelineTheorems.WriteBehind | internal/tweets/worker/worker.go:572-633 | in every reachable state what was last handed over for an uploaded job is the pending update, else the one being written, else in its row, column by column, its times to the second |
| PipelineTheorems.CacheShowsHandOverIff | internal/tweets/worker/worker.go:572-584 | between updates of a job its cache entry is the object last handed over if and only if that update was not overtaken |
| PipelineTheorems.LogRecordsSteps | internal/tweets/worker/worker.go:108-155 | the log by which that is told is the record of the updates' halves, the upload's and the readers' entries |
| CacheRuns.NestedUpdateDiverges | internal/tweets/worker/worker.go:572-584 | a run from start: the job loop's update within the tweet loop's leaves the cache with a running job and the database with a paused one |
| CacheRuns.LateReaderDiverges | internal/tweets/worker/worker.go:141-155 | a run from start: a reader between save and cache entry of a new job replaces the entry by its own object |
| PipelineTheorems.FlushCompletes | internal/tweets/worker/worker.go:610-633 | after a complete flush with nothing in between the row agrees, column by column, with what was last handed over, and with the cache unless that was overtaken |
| PipelineQuota.DailyQuotaHolds | internal/tweets/worker/worker.go:454-534 | no day's count exceeds max(0, limit) by more than the unreadable checks, midnight included, and all days together are the successful scorings less failed increments |
| PipelineQuota.DailyQuotaWithReliableReads | internal/tweets/repository/repository.go:204-227 | with reliable reads no day's count exceeds max(0, limit) |
| TweetTheorems.TweetsConserved | internal/tweets/worker/worker.go:383-570 | in every run each occurrence of a parsed archive is in exactly one place, tied to loop positions and channel, and the tallies count the places |
| TweetTheorems.FlaggedRowsBounded | internal/tweets/worker/worker.go:392-555 | in every run a (job, tweet ID) has at most as many flagged rows as the archive has occurrences |
| TweetTheorems.RecoveryFindsUnfinished | internal/tweets/repository/repository.go:144-187 | in every run the recovery query finds a reliably written ID if and only if one of its tweets is in the job loop's hand, in the channel, in the tweet loop's hand or dropped, and none is done with |
| TweetTheorems.WaitingTweetFoundIff | internal/tweets/repository/repository.go:144-187 | so a tweet that has still to be scored is found if and only if no tweet with its ID is done with |
| TweetTheorems.RecoveryOfUniqueTweet | internal/tweets/repository/repository.go:144-187 | and one with an ID of its own exactly while it has to be scored |
| TweetTheorems.RecoveryFindsArchivedOnly | internal/tweets/repository/repository.go:144-187 | and finds only tweets of the job's archive |
| TweetTheorems.RowHoldsFirstTweet | internal/tweets/repository/repository.go:118-187 | the row of a reliably written ID holds the first tweet of the archive with that ID |
| TweetTheorems.FiltersDecide | internal/tweets/worker/worker.go:383-425 | in every run a tweet is flagged by the filters only if its job was uploaded with criteria and the filters have a verdict on its text, and goes on only if not |
| TweetTheorems.CriteriaIsolation | internal/tweets/worker/worker.go:468-484 | in every run each `Score` call runs with the very criteria uploaded with its own job, or with the default where none were |
| TweetTheorems.CountersExact | internal/tweets/worker/worker.go:536-556 | in flush-separated runs the three counters are exact after each scored tweet, and the total is the archive's length |
| TweetTheorems.DoneIffRowSays | internal/tweets/worker/worker.go:559-562 | in every run the job is marked done if and only if the row loaded for the tweet just scored has processed + 1 >= total; with total 0 always |
| TweetTheorems.DoneWithNothingLeftIff | internal/tweets/worker/worker.go:559-562 | it is marked done with no other tweet of it left if and only if, besides, filter flags, tweets passed over, scorings and closed tweets add up to the archive's length |
| TweetTheorems.DoneIsEarly | internal/tweets/worker/worker.go:559-562 | in flush-separated runs the job is marked done if and only if at least as many tweets are scored as phase 2 passed over |
| TweetTheorems.FailedForGood | internal/tweets/worker/worker.go:285-294 | a failed job never has a tweet in the channel or in hand again; once the job loop has left it, it is failed with an error text in the last hand-over, the pending update and the batch, in the cache unless overtaken, and in its settled row |
| StuckTheorems.StuckForever | internal/tweets/worker/worker.go:517-520 | a re-queue into a full channel blocks tweet loop and channel in every later state |
| StuckTheorems.NeverStuckWithRoom | internal/tweets/worker/worker.go:517-520 | no reachable state is stuck while the tweets that the filters let pass, of all archives parsed, are no more than the channel holds |
| StuckRuns.StuckIff | internal/tweets/worker/worker.go:517-520 | with one archive a stuck state is reachable, for some limit, if and only if the filters let more of its tweets pass than the channel holds |
| EarlyDone.EarlyDoneIff | internal/tweets/worker/worker.go:559-562 | for every policy, criteria and archive: some run shows the job as done with a tweet of it unscored if and only if the filters let at least two of its tweets pass |
| EarlyDone.DoneWithNoTotal | internal/tweets/worker/worker.go:469-562 | a run from start for each such archive: after the first score the job is done with 1 of 0 tweets processed, and all other tweets that passed wait |
| EarlyDone.DoneWithTweetWaiting | internal/tweets/worker/worker.go:559-562 | a run from start, every update flushed: done with 3 of 2 tweets processed and one tweet unscored in the channel |
| EarlyDone.DuplicateIsNotRecovered | internal/tweets/repository/repository.go:118-123 | a run from start: of two tweets with one ID the first is scored, and no recovery query finds the second, which waits |

## Steps of the machine

| function of `Pipeline` | source |
|---|---|
| TakesJob, LoadsJob, BeginsJob | internal/tweets/worker/worker.go:164-169, 261-287 |
| JobUpdate1, JobUpdate2, TweetUpdate1, TweetUpdate2 | internal/tweets/worker/worker.go:572-584 |
| FailsParsing, ParsesArchive, SavesTweet, SetsTotal | internal/tweets/worker/worker.go:289-303, 320-364 |
| FlagsTweet, MarksFlagged, MarksTweet, SendsTweet, SkipsScorer, AdvancesLoop, LeavesLoop | internal/tweets/worker/worker.go:383-438 |
| TakesTweet, ChecksQuota, PausesJob, LoadsForTweet, SetsCriteria, CallsScore, ScoreReturns | internal/tweets/worker/worker.go:186-191, 441-530 |
| CountsQuota, TalliesScore, SavesFlag, ChecksDone, MarksDone, ResumesJob, RequeuesTweet, DropsTweet | internal/tweets/worker/worker.go:510-570 |
| SavesNewJob, CachesNewJob, SendsNewJob, ReadsMissed, CachesRead | internal/tweets/worker/worker.go:108-155 |
| TakeBatch, WriteOne | internal/tweets/worker/worker.go:610-633 |

## Left out

- HTTP handlers, middleware, server start, logging and API documents, except the clamps and `total_pages`.
- The API call itself: its outcome is a parameter. Prompt text and response parsing.
- ZIP and JSON reading: an archive is a sequence of tweets; criteria are assumed to survive their JSON round trip.
- SQL, locking and connections: tables are maps and sequences. Rows that fail to scan are not part of the model.
- `ScoreBatch`, `Call` without a critical error, `State`, the mock scorer, file storage and environment parsing.
- Stop, drain and shutdown; with them a second flusher and the cancellation of contexts in the worker, which runs with a background context.
- Fairness and liveness; data races on the fields of a job: a group of field updates is one step.
- The guard against an empty job ID: every queued tweet carries its job. The job field `Result` is never set.
- IDs of jobs, tweets and objects are natural numbers; fresh IDs are assumed fresh.
- `\s` and white space are those of Go.
- Wall-clock formatting and time zones: times are whole nanoseconds, days are numbers that never go back.
- The 64-bit overflow of the doubled back-off after some thirty retries.
- A row of a flagged tweet says which tweet it is about and who flagged it; its text, score, reason and URL are not part of the model of the worker.
- Parsing.ConvertTweets: leaves out a record's date, links, hashtags, mentions and attachments, which nothing in the pipeline depends on.
- Filters.ApplyFilters: folds the case of ASCII letters only, where the program folds that of Unicode.
- Workers.Worker.EnqueueParse: where the job channel is full, or has no buffer, the method ends with `blocked` at the send; the hand-over that then follows is in the step machine only.
- Workers.Worker.ApplyFiltersAndQueue: likewise for the tweet channel; that the tweet loop then makes room is in the step machine only.
- Workers.Worker.ProcessTweetWithGemini: likewise for the re-queue, where no other actor can make room.
- PipelineTheorems.WriteBehind: says nothing of a row whose last write failed, or of an object changed since it was handed over.
- TweetTheorems.RecoveryFindsUnfinished: for IDs whose row was always written; a failed write may leave the row either way.
