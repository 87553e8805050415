/** The two channels, over whole runs: what is received has been sent, in that order, and nothing else is in between. */
module Channels {
  import opened Model
  import opened Pipeline

  /** What a step sends on the job channel, and what it receives from it. */
  function JobSent(st: Step): seq<JobId> {
    if st.O? && st.os.EnqueueSend? then [st.os.id] else []
  }

  function JobReceived(st: Step, s': State): seq<JobId> {
    if st == J(JobTake) && !s'.jl.JobIdle? then [s'.jl.id] else []
  }

  /** What a step sends on the tweet channel: the tweet that the job loop has marked, or the one that the tweet
      loop puts back. */
  function TweetSent(s: State, st: Step): seq<Occurrence> {
    if st == J(JobSend) && s.jl.JobRunning? && s.jl.at.Marked? then [Occ(s.jl.id, s.jl.at.next)]
    else if st == T(TweetRequeue) && s.tl.TweetHas? then [s.tl.q]
    else []
  }

  function TweetReceived(st: Step, s': State): seq<Occurrence> {
    if st == T(TweetTake) && s'.tl.TweetHas? then [s'.tl.q] else []
  }

  ghost predicate Passes(s: State, st: Step, s': State) {
    && s.jobQ + JobSent(st) == JobReceived(st, s') + s'.jobQ
    && s.tweetQ + TweetSent(s, st) == TweetReceived(st, s') + s'.tweetQ
  }

  lemma JobStepPasses(s: State, st: JobStep, s': State)
    requires JobNext(s, st) == Some(s')
    ensures Passes(s, J(st), s')
  {
    if !JobQueues(st) {
      assert QueuesLeft(s, s');
    } else {
      JobQueueStepPasses(s, st, s');
    }
  }

  lemma JobQueueStepPasses(s: State, st: JobStep, s': State)
    requires JobNext(s, st) == Some(s') && JobQueues(st)
    ensures Passes(s, J(st), s')
  {
    if st.JobTake? {
      TakePasses(s, s');
    } else if st.JobSend? {
      SendPasses(s, s');
    } else {
      JobQueuesKept(s, st, s');
    }
  }

  lemma TakePasses(s: State, s': State)
    requires TakesJob(s) == Some(s')
    ensures Passes(s, J(JobTake), s')
  {
  }

  lemma SendPasses(s: State, s': State)
    requires SendsTweet(s) == Some(s')
    ensures Passes(s, J(JobSend), s')
  {
  }

  lemma JobQueuesKept(s: State, st: JobStep, s': State)
    requires JobNext(s, st) == Some(s') && (st.JobLoad? || st.JobPut? || st.JobParses?)
    ensures s'.jobQ == s.jobQ && s'.tweetQ == s.tweetQ
  {
  }

  lemma TweetStepPasses(s: State, st: TweetStep, s': State)
    requires TweetNext(s, st) == Some(s')
    ensures Passes(s, T(st), s')
  {
    if !TweetQueues(st) {
      assert QueuesLeft(s, s');
    } else {
      match st {
        case TweetTake =>
        case TweetPut =>
        case TweetRequeue =>
      }
    }
  }

  lemma OtherStepPasses(s: State, st: OtherStep, s': State)
    requires OtherNext(s, st) == Some(s')
    ensures Passes(s, O(st), s')
  {
  }

  lemma StepPasses(s: State, st: Step, s': State)
    requires Next(s, st) == Some(s')
    ensures Passes(s, st, s')
  {
    match st {
      case J(js) => JobStepPasses(s, js, s');
      case T(ts) => TweetStepPasses(s, ts, s');
      case O(os) => OtherStepPasses(s, os, s');
    }
  }

  // ------------------------------------------------------------------ whole runs

  function JobsSent(steps: seq<Step>, i: nat): seq<JobId>
    requires i <= |steps|
  {
    if i == 0 then [] else JobsSent(steps, i - 1) + JobSent(steps[i - 1])
  }

  function JobsReceived(run: seq<State>, steps: seq<Step>, i: nat): seq<JobId>
    requires |run| == |steps| + 1 && i <= |steps|
  {
    if i == 0 then [] else JobsReceived(run, steps, i - 1) + JobReceived(steps[i - 1], run[i])
  }

  function TweetsSent(run: seq<State>, steps: seq<Step>, i: nat): seq<Occurrence>
    requires |run| == |steps| + 1 && i <= |steps|
  {
    if i == 0 then [] else TweetsSent(run, steps, i - 1) + TweetSent(run[i - 1], steps[i - 1])
  }

  function TweetsReceived(run: seq<State>, steps: seq<Step>, i: nat): seq<Occurrence>
    requires |run| == |steps| + 1 && i <= |steps|
  {
    if i == 0 then [] else TweetsReceived(run, steps, i - 1) + TweetReceived(steps[i - 1], run[i])
  }

  lemma Chain<T>(q: seq<T>, sent: seq<T>, received: seq<T>, q1: seq<T>, s: seq<T>, r: seq<T>, q2: seq<T>)
    requires q + sent == received + q1 && q1 + s == r + q2
    ensures q + (sent + s) == received + r + q2
  {
    assert q + (sent + s) == q + sent + s;
    assert received + q1 + s == received + (q1 + s);
    assert received + (r + q2) == received + r + q2;
  }

  /** In every run what was in a channel at first, and then what was sent, is what has been received, and then what is
      still in the channel: nothing is lost, made up, doubled or overtaken. */
  lemma {:induction false} ChannelsInOrder(run: seq<State>, steps: seq<Step>, i: nat)
    requires IsRun(run, steps) && i <= |steps|
    ensures run[0].jobQ + JobsSent(steps, i) == JobsReceived(run, steps, i) + run[i].jobQ
    ensures run[0].tweetQ + TweetsSent(run, steps, i) == TweetsReceived(run, steps, i) + run[i].tweetQ
  {
    if i == 0 {
    } else {
      ChannelsInOrder(run, steps, i - 1);
      assert Link(run, steps, i - 1);
      var s, st, s' := run[i - 1], steps[i - 1], run[i];
      StepPasses(s, st, s');
      Chain(run[0].jobQ, JobsSent(steps, i - 1), JobsReceived(run, steps, i - 1), s.jobQ, JobSent(st),
            JobReceived(st, s'), s'.jobQ);
      Chain(run[0].tweetQ, TweetsSent(run, steps, i - 1), TweetsReceived(run, steps, i - 1), s.tweetQ, TweetSent(s, st),
            TweetReceived(st, s'), s'.tweetQ);
    }
  }
}
