/** Whole runs: what holds in every state the pipeline can reach, however its actors interleave and whatever
  fails. */
module PipelineRuns {
  import opened Model
  import opened Pipeline
  import opened PipelineLinks
  import opened PipelineCopies
  import opened PipelineStore
  import opened CacheLogs
  import opened PipelineCache
  import opened PipelineTotals
  import opened PipelineVerdicts
  import opened PipelineFlow
  import opened FlowPlaces
  import opened FlowTally
  import opened FlowClosed
  import opened FlowRows
  import opened PipelineCalls
  import opened PipelineExact
  import opened PipelineFailures

  ghost predicate FlowOk(v: Flow) {
    Conserved(v) && TalliesOk(v) && ClosedOk(v) && FlagsOk(v) && RowsOk(v)
  }

  ghost predicate Inv(s: State) {
    && Kept(s) && Layered(s.mem) && CacheKept(s) && Totals(s) && Isolated(s) && FailedStay(s) && LoopsAlone(s)
    && EventsCounted(s) && FlowOk(FlowOf(s)) && Filtered(s) && Separated(s)
  }

  lemma Starts(s: State)
    requires Init(s)
    ensures Inv(s)
  {
    StartsLinked(s);
    BoundedAtStart(s);
    LayersAtStart(s);
    CacheAtStart(s);
    TotalsAtStart(s);
    IsolatedAtStart(s);
    ConservedAtStart(s);
    FilteredAtStart(s);
    TalliedAtStart(s);
    ClosedAtStart(s);
    RowsAtStart(s);
    SeparatedAtStart(s);
    FailedAtStart(s);
    AloneAtStart(s);
  }

  lemma EventKeepsFlow(v: Flow, e: Event)
    requires FlowOk(v) && Enabled(v, e)
    ensures FlowOk(Apply(v, e))
  {
    EventConserves(v, e);
    EventKeepsTallies(v, e);
    EventKeepsClosed(v, e);
    EventKeepsFlags(v, e);
    EventKeepsRows(v, e);
  }

  lemma StepKeepsFlow(s: State, st: Step, s': State)
    requires Kept(s) && EventsCounted(s) && FlowOk(FlowOf(s)) && Filtered(s) && Next(s, st) == Some(s')
    ensures EventsCounted(s') && FlowOk(FlowOf(s')) && Filtered(s')
  {
    StepFollows(s, st, s');
    StepKeepsCounted(s, st, s');
    if st.O? {
      OtherFollows(s, st.os, s');
    }
    EventKeepsFlow(FlowOf(s), EventOf(s, st));
    StepKeepsFiltered(s, st, s');
  }

  lemma StepKeepsSeparated(s: State, st: Step, s': State)
    requires Inv(s) && Next(s, st) == Some(s')
    ensures Separated(s')
  {
    match st {
      case J(js) => JobKeepsSeparated(s, js, s');
      case T(ts) => TweetKeepsSeparated(s, ts, s');
      case O(os) => OtherKeepsSeparated(s, os, s');
    }
  }

  lemma StepKeepsInv(s: State, st: Step, s': State)
    requires Inv(s) && Next(s, st) == Some(s')
    ensures Inv(s')
  {
    StepKeeps(s, st, s');
    StepKeepsLayers(s, st, s');
    StepKeepsCache(s, st, s');
    StepKeepsTotals(s, st, s');
    StepKeepsIsolation(s, st, s');
    StepKeepsFailed(s, st, s');
    StepKeepsAlone(s, st, s');
    StepKeepsFlow(s, st, s');
    StepKeepsSeparated(s, st, s');
  }

  ghost predicate InvAt(run: seq<State>, i: nat) {
    i < |run| && Inv(run[i])
  }

  lemma LinkKeepsInv(run: seq<State>, steps: seq<Step>, i: nat)
    requires IsRun(run, steps) && i < |steps| && InvAt(run, i)
    ensures InvAt(run, i + 1)
  {
    assert Link(run, steps, i);
    StepKeepsInv(run[i], steps[i], run[i + 1]);
  }

  lemma RunKeepsInv(run: seq<State>, steps: seq<Step>, i: nat)
    requires IsRun(run, steps) && i <= |steps| && Inv(run[0])
    ensures Inv(run[i])
  {
    for k := 0 to i
      invariant InvAt(run, k)
    {
      LinkKeepsInv(run, steps, k);
    }
  }

  lemma ReachedFrom(s: State, t: State)
    requires Inv(s) && Reaches(s, t)
    ensures Inv(t)
  {
    var run, steps :| IsRun(run, steps) && run[0] == s && run[|steps|] == t;
    RunKeepsInv(run, steps, |steps|);
  }

  lemma Reached(s: State)
    requires Reachable(s)
    ensures Inv(s)
  {
    var s0 :| Init(s0) && Reaches(s0, s);
    Starts(s0);
    ReachedFrom(s0, s);
  }
}
