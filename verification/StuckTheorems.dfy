/** The tweet loop waiting for itself: when it can happen, and that it is for good. */
module StuckTheorems {
  import opened Model
  import opened Pipeline
  import opened PipelineLinks
  import opened PipelineVerdicts
  import opened PipelineFlow
  import opened FlowPlaces
  import opened FlowRows
  import opened PipelineRuns

  /** The tweet loop waits to put its tweet back into a channel that is full and that only it empties. */
  predicate Stuck(s: State) {
    s.tl.TweetHas? && s.tl.at.Requeue? && |s.tweetQ| >= s.cfg.tweetCap
  }

  lemma StuckForJob(s: State, st: JobStep, s': State)
    requires Stuck(s) && JobNext(s, st) == Some(s')
    ensures s'.tl == s.tl && s'.tweetQ == s.tweetQ && s'.cfg == s.cfg
  {
  }

  lemma StuckStays(s: State, st: Step, s': State)
    requires Stuck(s) && Next(s, st) == Some(s')
    ensures s'.tl == s.tl && s'.tweetQ == s.tweetQ && s'.cfg == s.cfg
  {
    if st.J? {
      StuckForJob(s, st.js, s');
    }
  }

  lemma {:induction false} StuckThroughout(run: seq<State>, steps: seq<Step>, i: nat)
    requires IsRun(run, steps) && i <= |steps| && Stuck(run[0])
    ensures run[i].tl == run[0].tl && run[i].tweetQ == run[0].tweetQ && run[i].cfg == run[0].cfg
  {
    if i == 0 {
    } else {
      StuckThroughout(run, steps, i - 1);
      assert Link(run, steps, i - 1);
      StuckStays(run[i - 1], steps[i - 1], run[i]);
    }
  }

  /** Then it waits forever: no run of any actors moves the tweet loop or the channel, and no tweet is scored
      again. */
  lemma StuckForever(s: State, s': State)
    requires Stuck(s) && Reaches(s, s')
    ensures s'.tl == s.tl && s'.tweetQ == s.tweetQ && TweetNext(s', TweetRequeue).None?
  {
    var run, steps :| IsRun(run, steps) && run[0] == s && run[|steps|] == s';
    StuckThroughout(run, steps, |steps|);
  }

  // ------------------------------------------------------------------ when it cannot happen

  /** The tweets of all archives parsed so far that the filters let pass. */
  function Scorable(s: State): set<Occurrence> {
    set o | o in s.hist.place && o.job in s.hist.uploads
            && !FiltersFlag(s.cfg.policy, s.hist.uploads[o.job].criteria, TweetIn(s.archive, o))
  }

  lemma WaitingIsScorable(s: State)
    requires Conserved(FlowOf(s)) && Filtered(s) && s.tl.TweetHas?
    ensures Distinct(s.tweetQ + [s.tl.q]) && forall o :: o in s.tweetQ + [s.tl.q] ==> o in Scorable(s)
  {
    var v := FlowOf(s);
    assert PlaceFits(v.track, v.tweetQ, v.stage, s.tl.q, v.place[s.tl.q]);
    forall o | o in s.tweetQ + [s.tl.q] ensures o in Scorable(s) {
      assert o in v.place && PlaceFits(v.track, v.tweetQ, v.stage, o, v.place[o]);
    }
    assert s.tl.q !in s.tweetQ;
  }

  lemma NotStuck(s: State)
    requires Conserved(FlowOf(s)) && Filtered(s) && |Scorable(s)| <= s.cfg.tweetCap
    ensures !Stuck(s)
  {
    if s.tl.TweetHas? {
      WaitingIsScorable(s);
      DistinctSize(s.tweetQ + [s.tl.q], Scorable(s));
    }
  }

  /** The tweets in the channel and the one in hand are all different.  So as long as the tweets that the filters
      let pass, of all archives together, are no more than the channel holds, the tweet loop is never stuck. */
  lemma NeverStuckWithRoom(s: State)
    requires Reachable(s) && |Scorable(s)| <= s.cfg.tweetCap
    ensures !Stuck(s)
  {
    Reached(s);
    NotStuck(s);
  }

  /** The only archive parsed so far is `tweets`. */
  ghost predicate OnlyArchive(s: State, id: JobId, criteria: Option<Criteria>, tweets: seq<Tweet>) {
    && s.archive.Keys == {id} && s.archive[id] == tweets
    && id in s.hist.uploads && s.hist.uploads[id].criteria == criteria
  }

  function Places(id: JobId, positions: set<nat>): set<Occurrence> {
    set i | i in positions :: Occ(id, i)
  }

  lemma {:induction false} PlacesSize(id: JobId, positions: set<nat>)
    ensures |Places(id, positions)| == |positions|
  {
    if positions == {} {
    } else {
      var i :| i in positions;
      PlacesSize(id, positions - {i});
      assert Places(id, positions) == Places(id, positions - {i}) + {Occ(id, i)};
    }
  }

  lemma ScorableIsPassing(s: State, id: JobId, criteria: Option<Criteria>, tweets: seq<Tweet>)
    requires Located(s.archive, s.hist.place) && OnlyArchive(s, id, criteria, tweets)
    ensures |Scorable(s)| == |Passing(s.cfg.policy, criteria, tweets, |tweets|)|
  {
    var passing := Passing(s.cfg.policy, criteria, tweets, |tweets|);
    PlacesSize(id, passing);
    forall o ensures o in Scorable(s) <==> o in Places(id, passing) {
      assert o == Occ(o.job, o.pos);
    }
    assert Scorable(s) == Places(id, passing);
  }

  lemma StuckWithOne(s: State, id: JobId, criteria: Option<Criteria>, tweets: seq<Tweet>)
    requires Reachable(s) && OnlyArchive(s, id, criteria, tweets) && Stuck(s)
    ensures |Passing(s.cfg.policy, criteria, tweets, |tweets|)| > s.cfg.tweetCap
  {
    Reached(s);
    ScorableIsPassing(s, id, criteria, tweets);
    if |Scorable(s)| <= s.cfg.tweetCap {
      NotStuck(s);
    }
  }
}
