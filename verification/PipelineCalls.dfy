/** Criteria isolation: whatever jobs are mixed in the channel, each `Score` call runs with the criteria that
  were uploaded with its tweet's own job. */
module PipelineCalls {
  import opened Model
  import opened Pipeline
  import opened PipelineLinks
  import opened PipelineCopies

  predicate OwnCriteria(uploads: map<JobId, Upload>, call: ScoreCall) {
    call.job in uploads &&
    match uploads[call.job].criteria
    case Some(uploaded) => call.criteria == uploaded
    case None => call.criteria == DEFAULT_CRITERIA
  }

  ghost predicate Isolated(s: State) {
    && (forall call :: call in s.hist.calls ==> OwnCriteria(s.hist.uploads, call))
    && (CriteriaSet(s.tl) ==> OwnCriteria(s.hist.uploads, ScoreCall(s.tl.q.job, s.criteria)))
  }

  lemma IsolatedAtStart(s: State)
    requires Init(s)
    ensures Isolated(s)
  {
  }

  lemma SettingIsolates(s: State, s': State)
    requires StoreSide(s) && Bounded(s) && Isolated(s) && SetsCriteria(s) == Some(s')
    ensures Isolated(s')
  {
  }

  lemma CallIsolated(s: State, s': State)
    requires Isolated(s) && CallsScore(s) == Some(s')
    ensures Isolated(s')
  {
  }

  lemma UploadIsolated(s: State, st: OtherStep, s': State)
    requires Isolated(s) && OtherNext(s, st) == Some(s') && st.EnqueueSave?
    ensures Isolated(s')
  {
  }

  lemma StepKeepsIsolation(s: State, st: Step, s': State)
    requires Kept(s) && Isolated(s) && Next(s, st) == Some(s')
    ensures Isolated(s')
  {
    if st.J? {
      assert JobLeaves(s, s');
    } else if st.T? {
      if st.ts.TweetCriteria? {
        SettingIsolates(s, s');
      } else if st.ts.TweetCall? {
        CallIsolated(s, s');
      } else {
        assert CriteriaLeft(s, s') && TweetLeaves(s, s');
      }
    } else if st.os.EnqueueSave? {
      UploadIsolated(s, st.os, s');
    } else {
      assert OtherLeaves(s, s');
    }
  }
}
