/** The way of tweets through the pipeline, without jobs, objects and quotas: a smaller machine that every step
  of the pipeline follows. */
module PipelineFlow {
  import opened Model
  import opened Pipeline
  import opened PipelineShapes
  import opened PipelineLinks

  datatype Flow = Flow(
    archive: Archive,
    track: JobTrack, tweetQ: seq<Occurrence>, stage: HandStage,
    place: map<Occurrence, Place>, tally: map<JobId, Tally>, closed: map<JobId, nat>,
    rows: map<Key, TweetRow>, flagged: seq<FlaggedRow>, faulty: set<Key>)

  function FlowOf(s: State): Flow {
    Flow(s.archive, TrackOf(s.jl), s.tweetQ, StageOf(s.tl), s.hist.place, s.hist.tally, s.hist.closed,
         s.rows, s.flagged, s.hist.faulty)
  }

  datatype Event =
    | Stutter
    | Submit(id: JobId)
    | Unpack(id: JobId, tweets: seq<Tweet>)
    | SaveRow(ok: bool, now: Time)
    | StartLoop
    | FilterFlags(ok: bool)      // `ok`: the flagged row is written
    | FlagDone(ok: bool)         // `ok`: the tweet's row is marked processed
    | MarkForScorer
    | PassOver
    | Send
    | PassUnscored(ok: bool)
    | LoopOn
    | EndLoop
    | Take
    | Score(flag: bool)
    | NoFlagDue
    | SaveFlag(ok: bool)
    | Finish(ok: bool)
    | SendBack
    | Abandon

  // ------------------------------------------------------------------ reading

  function Length(v: Flow, id: JobId): nat {
    if id in v.archive then |v.archive[id]| else 0
  }

  /** The tweet the phase-2 loop is at. */
  function Current(v: Flow): Occurrence {
    if v.track.Looping? || v.track.Saving? then Occ(v.track.id, v.track.next) else Occ(0, 0)
  }

  predicate LoopAt(v: Flow, hand: JobHand) {
    v.track.Looping? && v.track.hand == hand && v.track.next < Length(v, v.track.id)
  }

  predicate Enabled(v: Flow, e: Event) {
    match e
    case Stutter => true
    case Submit(id) => id !in v.tally && id !in v.archive && forall k :: k in v.rows ==> k.job != id
    case Unpack(id, _) => v.track.NoTrack? && id !in v.archive && id in v.tally
    case SaveRow(_, _) => v.track.Saving? && v.track.next < Length(v, v.track.id)
    case StartLoop => v.track.Saving? && v.track.next == Length(v, v.track.id)
    case FilterFlags(_) => LoopAt(v, NoHand)
    case FlagDone(_) => LoopAt(v, FlagHand)
    case MarkForScorer => LoopAt(v, NoHand)
    case PassOver => LoopAt(v, NoHand)
    case Send => LoopAt(v, MarkHand)
    case PassUnscored(_) => LoopAt(v, NoHand)
    case LoopOn => LoopAt(v, Passed)
    case EndLoop => v.track.Looping? && v.track.hand.NoHand? && v.track.next == Length(v, v.track.id)
    case Take => v.stage.Empty? && v.tweetQ != []
    case Score(_) => v.stage.Before?
    case NoFlagDue => v.stage.Unflagged?
    case SaveFlag(_) => v.stage.Unflagged?
    case Finish(_) => v.stage.Before? || v.stage.Flagged?
    case SendBack => v.stage.Before?
    case Abandon => v.stage.Before?
  }

  // ------------------------------------------------------------------ writing

  function Move(v: Flow, o: Occurrence, p: Place): Flow {
    v.(place := v.place[o := p])
  }

  function HandIs(v: Flow, hand: JobHand): Flow {
    if v.track.Looping? then v.(track := v.track.(hand := hand)) else v
  }

  /** Mark the row processed, or remember that the write failed. */
  function CloseRow(v: Flow, k: Key, ok: bool): Flow {
    if ok then v.(rows := MarkProcessed(v.rows, k)) else v.(faulty := v.faulty + {k})
  }

  function WithTally(v: Flow, id: JobId, t: Tally): Flow {
    v.(tally := v.tally[id := t])
  }

  /** A tweet of the job is closed without a score. */
  function OneClosed(v: Flow, id: JobId): Flow {
    v.(closed := v.closed[id := ClosedIn(v.closed, id) + 1])
  }

  function Parsed(v: Flow, id: JobId, tweets: seq<Tweet>): Flow {
    v.(archive := v.archive[id := tweets],
       place := v.place + (map i: nat | i < |tweets| :: Occ(id, i) := Unfiltered),
       track := Saving(id, 0))
  }

  function Saved(v: Flow, ok: bool, now: Time): Flow
    requires v.track.Saving?
  {
    var o := Current(v);
    var k := KeyIn(v.archive, o);
    var v1 := if !ok then v.(faulty := v.faulty + {k})
              else if k in v.rows then v
              else v.(rows := v.rows[k := TweetRow(TweetIn(v.archive, o), false, false, now)]);
    v1.(track := Saving(o.job, o.pos + 1))
  }

  function FlagOf(v: Flow, o: Occurrence, byScorer: bool): FlaggedRow {
    FlaggedRow(o, TweetIn(v.archive, o).id, byScorer)
  }

  function Apply(v: Flow, e: Event): Flow
    requires Enabled(v, e)
  {
    match e
    case Stutter => v
    case Submit(id) => WithTally(v, id, NO_EVENTS)
    case Unpack(id, tweets) => Parsed(v, id, tweets)
    case SaveRow(ok, now) => Saved(v, ok, now)
    case StartLoop => v.(track := Looping(v.track.id, 0, NoHand))
    case FilterFlags(ok) =>
      var o := Current(v);
      var t := TallyIn(v.tally, o.job);
      var v1 := WithTally(Move(v, o, Flagging), o.job, t.(filterFlags := t.filterFlags + 1));
      HandIs(if ok then v1.(flagged := v.flagged + [FlagOf(v, o, false)]) else v1, FlagHand)
    case FlagDone(ok) => HandIs(CloseRow(Move(v, Current(v), FilterFlagged), KeyIn(v.archive, Current(v)), ok), Passed)
    case MarkForScorer =>
      HandIs(Move(v, Current(v), InJobHand).(rows := MarkNeeds(v.rows, KeyIn(v.archive, Current(v)))), MarkHand)
    case PassOver =>
      var o := Current(v);
      WithTally(Move(v, o, Skipped), o.job, TallyIn(v.tally, o.job).(skipped := TallyIn(v.tally, o.job).skipped + 1))
        .(track := Looping(o.job, o.pos + 1, NoHand))
    case Send => HandIs(Move(v, Current(v), InChannel).(tweetQ := v.tweetQ + [Current(v)]), Passed)
    case PassUnscored(ok) =>
      var o := Current(v);
      HandIs(CloseRow(OneClosed(Move(v, o, Unscored), o.job), KeyIn(v.archive, o), ok), Passed)
    case LoopOn =>
      var o := Current(v);
      WithTally(v, o.job, TallyIn(v.tally, o.job).(advanced := TallyIn(v.tally, o.job).advanced + 1))
        .(track := Looping(o.job, o.pos + 1, NoHand))
    case EndLoop => v.(track := NoTrack)
    case Take => Move(v, v.tweetQ[0], InTweetHand).(stage := Before(v.tweetQ[0]), tweetQ := v.tweetQ[1..])
    case Score(flag) =>
      var q, t := v.stage.q, TallyIn(v.tally, v.stage.q.job);
      WithTally(v, q.job, t.(scored := t.scored + 1, scoredAt := t.scoredAt + {q.pos},
                            llmFlags := t.llmFlags + if flag then 1 else 0))
        .(stage := Unflagged(q))
    case NoFlagDue => v.(stage := Flagged(v.stage.q))
    case SaveFlag(ok) =>
      (if ok then v.(flagged := v.flagged + [FlagOf(v, v.stage.q, true)]) else v).(stage := Flagged(v.stage.q))
    case Finish(ok) =>
      var q := v.stage.q;
      var v1 := if v.stage.Flagged? then Move(v, q, Scored) else OneClosed(Move(v, q, ScoreFailed), q.job);
      CloseRow(v1, KeyIn(v.archive, q), ok).(stage := Empty)
    case SendBack => Move(v, v.stage.q, InChannel).(tweetQ := v.tweetQ + [v.stage.q], stage := Empty)
    case Abandon => Move(v, v.stage.q, Dropped).(stage := Empty)
  }

  // ------------------------------------------------------------------ the pipeline follows the flow

  function JobEvent(s: State, st: JobStep): Event {
    match st
    case JobParses(tweets) => if s.jl.JobRunning? then Unpack(s.jl.id, tweets) else Stutter
    case JobSaveTweet(ok) => SaveRow(ok, s.now)
    case JobTotal => StartLoop
    case JobFlag(ok) => FilterFlags(ok)
    case JobFlagMark(ok) => FlagDone(ok)
    case JobMark(ok) => if ok then MarkForScorer else PassOver
    case JobSend => Send
    case JobUnscored(ok) => PassUnscored(ok)
    case JobAdvance => LoopOn
    case JobFinish => EndLoop
    case _ => Stutter
  }

  function TweetEvent(s: State, st: TweetStep): Event {
    match st
    case TweetTake => Take
    case TweetReturn(outcome) => if outcome.Success? then Score(outcome.flag) else Stutter
    case TweetTally =>
      if s.tl.TweetHas? && s.tl.at.Holding? && s.tl.at.at.Counted? && !s.tl.at.at.flag then NoFlagDue else Stutter
    case TweetFlag(ok) => SaveFlag(ok)
    case TweetMark(ok) => Finish(ok)
    case TweetRequeue => SendBack
    case TweetDrop => Abandon
    case _ => Stutter
  }

  function EventOf(s: State, st: Step): Event {
    match st
    case J(js) => JobEvent(s, js)
    case T(ts) => TweetEvent(s, ts)
    case O(os) => if os.EnqueueSave? then Submit(os.id) else Stutter
  }

  ghost predicate Follows(s: State, e: Event, s': State) {
    Enabled(FlowOf(s), e) && FlowOf(s') == Apply(FlowOf(s), e)
  }

  /** Every uploaded job has its events counted. */
  ghost predicate EventsCounted(s: State) {
    s.hist.tally.Keys == s.hist.uploads.Keys
  }

  /** Past the top of its body, the phase-2 loop is at a tweet. */
  predicate InLoop(s: State) {
    s.jl.JobRunning? && (s.jl.at.FlagSaved? || s.jl.at.Marked? || s.jl.at.Advance?) ==>
      s.jl.at.next < |Tweets(s, s.jl.id)|
  }

  lemma ParseFollows(s: State, tweets: seq<Tweet>, s': State)
    requires JobLoopLinked(s.jl, s.mem.heap, s.archive, s.hist.tally.Keys) && ParsesArchive(s, tweets) == Some(s')
    ensures Follows(s, Unpack(s.jl.id, tweets), s')
  {
  }

  lemma SaveFollows(s: State, ok: bool, s': State)
    requires SavesTweet(s, ok) == Some(s')
    ensures Follows(s, SaveRow(ok, s.now), s')
  {
  }

  lemma TotalFollows(s: State, s': State)
    requires SetsTotal(s) == Some(s')
    ensures Follows(s, StartLoop, s')
  {
  }

  lemma FlagFollows(s: State, ok: bool, s': State)
    requires FlagsTweet(s, ok) == Some(s')
    ensures Follows(s, FilterFlags(ok), s')
  {
  }

  lemma FlagMarkFollows(s: State, ok: bool, s': State)
    requires InLoop(s) && MarksFlagged(s, ok) == Some(s')
    ensures Follows(s, FlagDone(ok), s')
  {
  }

  lemma MarkFollows(s: State, ok: bool, s': State)
    requires MarksTweet(s, ok) == Some(s')
    ensures Follows(s, if ok then MarkForScorer else PassOver, s')
  {
  }

  lemma SendFollows(s: State, s': State)
    requires InLoop(s) && SendsTweet(s) == Some(s')
    ensures Follows(s, Send, s')
  {
  }

  lemma UnscoredFollows(s: State, ok: bool, s': State)
    requires SkipsScorer(s, ok) == Some(s')
    ensures Follows(s, PassUnscored(ok), s')
  {
  }

  lemma AdvanceFollows(s: State, s': State)
    requires InLoop(s) && AdvancesLoop(s) == Some(s')
    ensures Follows(s, LoopOn, s')
  {
  }

  lemma EndFollows(s: State, s': State)
    requires LeavesLoop(s) == Some(s')
    ensures Follows(s, EndLoop, s')
  {
  }

  lemma LoopLinked(s: State)
    requires JobLoopLinked(s.jl, s.mem.heap, s.archive, s.hist.tally.Keys)
    ensures InLoop(s)
  {
  }

  lemma JobFollows(s: State, st: JobStep, s': State)
    requires JobLoopLinked(s.jl, s.mem.heap, s.archive, s.hist.tally.Keys) && InLoop(s) && JobNext(s, st) == Some(s')
    ensures Follows(s, JobEvent(s, st), s')
  {
    if st.JobParses? {
      ParseFollows(s, st.tweets, s');
    } else if st.JobSaveTweet? {
      SaveFollows(s, st.ok, s');
    } else if st.JobTotal? {
      TotalFollows(s, s');
    } else if st.JobFlag? {
      FlagFollows(s, st.ok, s');
    } else if st.JobFlagMark? {
      FlagMarkFollows(s, st.ok, s');
    } else if st.JobMark? {
      MarkFollows(s, st.ok, s');
    } else if st.JobSend? {
      SendFollows(s, s');
    } else if st.JobUnscored? {
      UnscoredFollows(s, st.ok, s');
    } else if st.JobAdvance? {
      AdvanceFollows(s, s');
    } else if st.JobFinish? {
      EndFollows(s, s');
    } else {
      assert TracksLeft(s, s');
    }
  }

  lemma ReturnFollows(s: State, outcome: ScoreOutcome, s': State)
    requires ScoreReturns(s, outcome) == Some(s')
    ensures Follows(s, if outcome.Success? then Score(outcome.flag) else Stutter, s')
  {
  }

  lemma TallyFollows(s: State, s': State)
    requires TalliesScore(s) == Some(s')
    ensures Follows(s, TweetEvent(s, TweetTally), s')
  {
  }

  lemma TweetFlagFollows(s: State, ok: bool, s': State)
    requires SavesFlag(s, ok) == Some(s')
    ensures Follows(s, SaveFlag(ok), s')
  {
  }

  lemma MarkedFollows(s: State, ok: bool, s': State)
    requires s.tl.TweetHas? && s.tl.at.Mark?
    requires s'.rows == if ok then MarkProcessed(s.rows, KeyIn(s.archive, s.tl.q)) else s.rows
    requires s'.hist.place == s.hist.place[s.tl.q := if s.tl.at.scored then Scored else ScoreFailed]
    requires s'.hist.closed == if s.tl.at.scored then s.hist.closed
                               else s.hist.closed[s.tl.q.job := ClosedIn(s.hist.closed, s.tl.q.job) + 1]
    requires s'.hist.faulty == if ok then s.hist.faulty else s.hist.faulty + {KeyIn(s.archive, s.tl.q)}
    requires s' == s.(tl := TweetIdle, rows := s'.rows,
                      hist := s.hist.(place := s'.hist.place, closed := s'.hist.closed, faulty := s'.hist.faulty))
    ensures Follows(s, Finish(ok), s')
  {
  }

  lemma TweetMarkFollows(s: State, ok: bool, s': State)
    requires MarksDone(s, ok) == Some(s')
    ensures Follows(s, Finish(ok), s')
  {
    MarkShape(s, ok, s');
    MarkedFollows(s, ok, s');
  }

  lemma TakeFollows(s: State, s': State)
    requires TakesTweet(s) == Some(s')
    ensures Follows(s, Take, s')
  {
    TakeShape(s, s');
  }

  lemma TweetMovesFollow(s: State, st: TweetStep, s': State)
    requires TweetNext(s, st) == Some(s') && (st.TweetRequeue? || st.TweetDrop?)
    ensures Follows(s, TweetEvent(s, st), s')
  {
    if st.TweetRequeue? {
      RequeueShape(s, s');
    } else {
      DropShape(s, s');
    }
  }

  lemma TweetFollows(s: State, st: TweetStep, s': State)
    requires TweetNext(s, st) == Some(s')
    ensures Follows(s, TweetEvent(s, st), s')
  {
    if st.TweetReturn? {
      ReturnFollows(s, st.outcome, s');
    } else if st.TweetTally? {
      TallyFollows(s, s');
    } else if st.TweetFlag? {
      TweetFlagFollows(s, st.ok, s');
    } else if st.TweetMark? {
      TweetMarkFollows(s, st.ok, s');
    } else if st.TweetTake? {
      TakeFollows(s, s');
    } else if st.TweetRequeue? || st.TweetDrop? {
      TweetMovesFollow(s, st, s');
    } else {
      assert TracksLeft(s, s');
    }
  }

  lemma OtherFollows(s: State, st: OtherStep, s': State)
    requires Archived(s.archive.Keys, s.hist.phase, s.jl) && s.hist.phase.Keys == s.hist.uploads.Keys
    requires EventsCounted(s)
    requires OtherNext(s, st) == Some(s')
    ensures Follows(s, EventOf(s, O(st)), s') && EventsCounted(s')
  {
  }

  /** Each step of the pipeline is one event of the flow, or none. */
  lemma StepFollows(s: State, st: Step, s': State)
    requires Linked(s) && EventsCounted(s) && Next(s, st) == Some(s')
    ensures Follows(s, EventOf(s, st), s')
  {
    if st.J? {
      LoopLinked(s);
      JobFollows(s, st.js, s');
    } else if st.T? {
      TweetFollows(s, st.ts, s');
    } else {
      OtherFollows(s, st.os, s');
    }
  }

  /** Only an upload gives a job its first count of events. */
  lemma OldJobsCounted(v: Flow, e: Event)
    requires Enabled(v, e) && !e.Submit?
    requires v.track.NoTrack? || v.track.id in v.tally
    requires v.stage.Empty? || v.stage.q.job in v.tally
    ensures Apply(v, e).tally.Keys == v.tally.Keys
  {
    var v' := Apply(v, e);
    if e.FilterFlags? || e.PassOver? || e.LoopOn? {
      assert v'.tally == v.tally[v.track.id := v'.tally[v.track.id]];
    } else if e.Score? {
      assert v'.tally == v.tally[v.stage.q.job := v'.tally[v.stage.q.job]];
    } else {
      assert v'.tally == v.tally;
    }
  }

  lemma FollowersCounted(s: State, e: Event, s': State)
    requires EventsCounted(s) && Follows(s, e, s') && !e.Submit? && s'.hist.uploads == s.hist.uploads
    requires s.jl.JobRunning? ==> s.jl.id in s.hist.uploads
    requires s.tl.TweetHas? ==> s.tl.q.job in s.hist.uploads
    ensures EventsCounted(s')
  {
    OldJobsCounted(FlowOf(s), e);
  }

  lemma StepKeepsCounted(s: State, st: Step, s': State)
    requires StoreSide(s) && EventsCounted(s) && Next(s, st) == Some(s') && Follows(s, EventOf(s, st), s')
    ensures st.O? || EventsCounted(s')
  {
    if st.J? {
      FollowersCounted(s, JobEvent(s, st.js), s');
    } else if st.T? {
      FollowersCounted(s, TweetEvent(s, st.ts), s');
    }
  }
}
