/** The filters decide: which tweets are flagged in phase 2 and which go on depends on the job's criteria, the
  policy and the text alone, in every interleaving. */
module PipelineVerdicts {
  import opened Model
  import opened Pipeline
  import opened PipelineLinks
  import opened PipelineCopies
  import opened PipelineFlow
  import opened FlowPlaces

  datatype Verdict = Undecided | Caught | LetPass

  function VerdictOf(p: Place): Verdict {
    if p.Unfiltered? then Undecided else if p.Flagging? || p.FilterFlagged? then Caught else LetPass
  }

  predicate VerdictFits(policy: Option<seq<string>>, criteria: Option<Criteria>, tweet: Tweet, p: Place) {
    && (VerdictOf(p).Caught? ==> FiltersFlag(policy, criteria, tweet))
    && (VerdictOf(p).LetPass? ==> !FiltersFlag(policy, criteria, tweet))
  }

  ghost predicate VerdictsFit(policy: Option<seq<string>>, uploads: map<JobId, Upload>, archive: Archive,
                              place: map<Occurrence, Place>) {
    forall o :: o in place ==>
      o.job in uploads && VerdictFits(policy, uploads[o.job].criteria, TweetIn(archive, o), place[o])
  }

  ghost predicate Filtered(s: State) {
    VerdictsFit(s.cfg.policy, s.hist.uploads, s.archive, s.hist.place)
  }

  /** The tweets among the first `n` of an archive that the filters let pass. */
  function Passing(policy: Option<seq<string>>, criteria: Option<Criteria>, tweets: seq<Tweet>, n: nat): set<nat> {
    set i: nat | i < n && i < |tweets| && !FiltersFlag(policy, criteria, tweets[i])
  }

  lemma PassingOn(policy: Option<seq<string>>, criteria: Option<Criteria>, tweets: seq<Tweet>, n: nat)
    requires n < |tweets|
    ensures Passing(policy, criteria, tweets, 0) == {}
    ensures |Passing(policy, criteria, tweets, n + 1)|
            == |Passing(policy, criteria, tweets, n)| + if FiltersFlag(policy, criteria, tweets[n]) then 0 else 1
  {
    assert Passing(policy, criteria, tweets, n + 1)
        == Passing(policy, criteria, tweets, n) + if FiltersFlag(policy, criteria, tweets[n]) then {} else {n};
  }

  lemma FilteredAtStart(s: State)
    requires Init(s)
    ensures Filtered(s)
  {
  }

  /** No tweet is decided upon. */
  ghost predicate VerdictsKept(v: Flow, v': Flow) {
    && v'.archive == v.archive && v'.place.Keys == v.place.Keys
    && forall o :: o in v.place ==> VerdictOf(v'.place[o]) == VerdictOf(v.place[o])
  }

  predicate Decides(e: Event) {
    e.FilterFlags? || e.MarkForScorer? || e.PassOver? || e.PassUnscored?
  }

  lemma LoopKeepsVerdicts(v: Flow, e: Event)
    requires Conserved(v) && Enabled(v, e) && (e.FlagDone? || e.Send?)
    ensures VerdictsKept(v, Apply(v, e))
  {
    assert PlaceFits(v.track, v.tweetQ, v.stage, Current(v), v.place[Current(v)]);
  }

  /** The tweet in hand, or the first in the channel, changes places. */
  lemma PassedKeepsVerdicts(v: Flow, q: Occurrence, p: Place, v': Flow)
    requires q in v.place && VerdictOf(v.place[q]).LetPass? && VerdictOf(p).LetPass?
    requires v'.archive == v.archive && v'.place == v.place[q := p]
    ensures VerdictsKept(v, v')
  {
  }

  lemma HandKeepsVerdicts(v: Flow, e: Event)
    requires Conserved(v) && Enabled(v, e) && (e.Take? || e.Finish? || e.SendBack? || e.Abandon?)
    ensures VerdictsKept(v, Apply(v, e))
  {
    var q := if e.Take? then v.tweetQ[0] else v.stage.q;
    assert q in v.place && PlaceFits(v.track, v.tweetQ, v.stage, q, v.place[q]);
    PassedKeepsVerdicts(v, q, Apply(v, e).place[q], Apply(v, e));
  }

  lemma RestKeepsVerdicts(v: Flow, e: Event)
    requires Conserved(v) && Enabled(v, e) && !Decides(e) && !e.Unpack?
    ensures VerdictsKept(v, Apply(v, e))
  {
    if e.FlagDone? || e.Send? {
      LoopKeepsVerdicts(v, e);
    } else if e.Take? || e.Finish? || e.SendBack? || e.Abandon? {
      HandKeepsVerdicts(v, e);
    } else {
      assert Apply(v, e).place == v.place && Apply(v, e).archive == v.archive;
    }
  }

  /** The criteria the phase-2 loop goes by are those the job was uploaded with. */
  lemma LoopCriteria(s: State)
    requires StoreSide(s) && Bounded(s) && s.jl.JobRunning?
    ensures s.jl.id in s.hist.uploads && Obj(s.mem, s.jl.ref).criteria == s.hist.uploads[s.jl.id].criteria
  {
    assert CopyInOrder(s.hist, s.mem.heap[s.jl.ref]);
  }

  lemma DecisionFits(s: State, p: Place, s': State)
    requires StoreSide(s) && Bounded(s) && Filtered(s) && s.jl.JobRunning? && s.jl.at.Filter?
    requires JobLeaves(s, s') && s'.archive == s.archive
    requires s'.hist.place == s.hist.place[Occ(s.jl.id, s.jl.at.next) := p]
    requires VerdictFits(s.cfg.policy, Obj(s.mem, s.jl.ref).criteria, TweetIn(s.archive, Occ(s.jl.id, s.jl.at.next)), p)
    ensures Filtered(s')
  {
    LoopCriteria(s);
  }

  lemma FlagFiltered(s: State, ok: bool, s': State)
    requires StoreSide(s) && Bounded(s) && Filtered(s) && FlagsTweet(s, ok) == Some(s')
    ensures Filtered(s')
  {
    DecisionFits(s, Flagging, s');
  }

  lemma MarkFiltered(s: State, ok: bool, s': State)
    requires StoreSide(s) && Bounded(s) && Filtered(s) && MarksTweet(s, ok) == Some(s')
    ensures Filtered(s')
  {
    DecisionFits(s, if ok then InJobHand else Skipped, s');
  }

  lemma UnscoredFiltered(s: State, ok: bool, s': State)
    requires StoreSide(s) && Bounded(s) && Filtered(s) && SkipsScorer(s, ok) == Some(s')
    ensures Filtered(s')
  {
    DecisionFits(s, Unscored, s');
  }

  lemma ParsedFiltered(s: State, tweets: seq<Tweet>, s': State)
    requires StoreSide(s) && Filtered(s) && ParsesArchive(s, tweets) == Some(s')
    ensures Filtered(s')
  {
    assert s.jl.id !in s.archive;
    forall o | o in s'.hist.place
      ensures o.job in s'.hist.uploads
              && VerdictFits(s'.cfg.policy, s'.hist.uploads[o.job].criteria, TweetIn(s'.archive, o), s'.hist.place[o])
    {
      if o.job != s.jl.id {
        assert o in s.hist.place;
      }
    }
  }

  lemma JobDecidesFiltered(s: State, st: JobStep, s': State)
    requires StoreSide(s) && Bounded(s) && Filtered(s) && JobNext(s, st) == Some(s')
    requires st.JobFlag? || st.JobMark? || st.JobUnscored? || st.JobParses?
    ensures Filtered(s')
  {
    if st.JobFlag? {
      FlagFiltered(s, st.ok, s');
    } else if st.JobMark? {
      MarkFiltered(s, st.ok, s');
    } else if st.JobUnscored? {
      UnscoredFiltered(s, st.ok, s');
    } else {
      ParsedFiltered(s, st.tweets, s');
    }
  }

  lemma JobEventRests(s: State, st: JobStep)
    requires !st.JobFlag? && !st.JobMark? && !st.JobUnscored? && !st.JobParses?
    ensures !Decides(JobEvent(s, st)) && !JobEvent(s, st).Unpack?
  {
  }

  lemma JobKeepsFiltered(s: State, st: JobStep, s': State)
    requires StoreSide(s) && Bounded(s) && Filtered(s) && Conserved(FlowOf(s)) && JobNext(s, st) == Some(s')
    requires Follows(s, JobEvent(s, st), s') && JobLeaves(s, s')
    ensures Filtered(s')
  {
    if st.JobFlag? || st.JobMark? || st.JobUnscored? || st.JobParses? {
      JobDecidesFiltered(s, st, s');
    } else {
      var e := JobEvent(s, st);
      JobEventRests(s, st);
      NoDecision(s, e, s');
    }
  }

  lemma NoDecision(s: State, e: Event, s': State)
    requires Filtered(s) && Conserved(FlowOf(s)) && Follows(s, e, s') && !Decides(e) && !e.Unpack?
    requires s'.cfg == s.cfg && s'.hist.uploads == s.hist.uploads
    ensures Filtered(s')
  {
    RestKeepsVerdicts(FlowOf(s), e);
    KeptFiltered(s, s');
  }

  lemma KeptFiltered(s: State, s': State)
    requires Filtered(s) && VerdictsKept(FlowOf(s), FlowOf(s')) && s'.cfg == s.cfg
    requires forall id :: id in s.hist.uploads ==> id in s'.hist.uploads && s'.hist.uploads[id] == s.hist.uploads[id]
    ensures Filtered(s')
  {
  }

  lemma TweetKeepsFiltered(s: State, st: TweetStep, s': State)
    requires Filtered(s) && Conserved(FlowOf(s)) && TweetNext(s, st) == Some(s') && Follows(s, TweetEvent(s, st), s')
    ensures Filtered(s')
  {
    NoDecision(s, TweetEvent(s, st), s');
  }

  lemma OtherKeepsFiltered(s: State, st: OtherStep, s': State)
    requires Filtered(s) && OtherNext(s, st) == Some(s')
    ensures Filtered(s')
  {
    KeptFiltered(s, s');
  }

  lemma StepKeepsFiltered(s: State, st: Step, s': State)
    requires StoreSide(s) && Bounded(s) && Filtered(s) && Conserved(FlowOf(s)) && Next(s, st) == Some(s')
    requires Follows(s, EventOf(s, st), s')
    ensures Filtered(s')
  {
    match st {
      case J(js) => JobKeepsFiltered(s, js, s');
      case T(ts) => TweetKeepsFiltered(s, ts, s');
      case O(os) => OtherKeepsFiltered(s, os, s');
    }
  }
}
