/** The daily quota, over whole runs. */
module PipelineQuota {
  import opened Model
  import opened Pipeline

  /** API calls counted on days before `n`. */
  function Total(quota: map<Day, nat>, n: nat): nat {
    if n == 0 then 0 else Total(quota, n - 1) + Quota(quota, n - 1)
  }

  lemma {:induction false} TotalAfterCount(quota: map<Day, nat>, d: Day, n: nat)
    ensures Total(quota[d := Quota(quota, d) + 1], n) == Total(quota, n) + if d < n then 1 else 0
  {
    if n == 0 {
    } else {
      TotalAfterCount(quota, d, n - 1);
    }
  }

  lemma {:induction false} TotalOfNoMoreDays(quota: map<Day, nat>, n: nat, m: nat)
    requires n <= m && forall d :: d in quota ==> d < n
    ensures Total(quota, m) == Total(quota, n)
    decreases m
  {
    if n == m {
    } else {
      TotalOfNoMoreDays(quota, n, m - 1);
    }
  }

  /** `base` is what the quota table held at the start.  While the tweet loop may still score the tweet in its
      hand, no day after the one it looked at is in the table, and that day has room. */
  ghost predicate QuotaOk(s: State, base: nat) {
    && (forall d :: d in s.quota ==> d <= s.today && s.quota[d] <= Cap(s.cfg) + s.hist.unchecked)
    && s.hist.checkedOn <= s.today
    && (Owes(s.tl) != Nothing ==>
          && (forall d :: d in s.quota ==> d <= s.hist.checkedOn)
          && (s.hist.checkOk ==> Quota(s.quota, s.hist.checkedOn) < s.cfg.limit)
          && (!s.hist.checkOk ==> s.hist.unchecked > 0)
          && (!s.hist.checkOk ==> forall d :: d in s.quota ==> s.quota[d] < Cap(s.cfg) + s.hist.unchecked))
    && Total(s.quota, s.today + 1) + s.hist.uncounted + (if Owes(s.tl) == Count then 1 else 0)
       == base + s.hist.scorings
  }

  lemma QuotaAtStart(s: State)
    requires Init(s)
    ensures QuotaOk(s, Total(s.quota, s.today + 1))
  {
  }

  lemma QuotaUntouched(s: State, s': State, base: nat)
    requires QuotaOk(s, base) && QuotaLeft(s, s') && s'.cfg == s.cfg && s'.today == s.today
    ensures QuotaOk(s', base)
  {
  }

  lemma CheckKeepsQuota(s: State, ok: bool, s': State, base: nat)
    requires QuotaOk(s, base) && ChecksQuota(s, ok) == Some(s')
    ensures QuotaOk(s', base)
  {
  }

  lemma ReturnKeepsQuota(s: State, outcome: ScoreOutcome, s': State, base: nat)
    requires QuotaOk(s, base) && ScoreReturns(s, outcome) == Some(s')
    ensures QuotaOk(s', base)
  {
  }

  /** Even if midnight has passed since the check: then today has no row yet. */
  lemma CountKeepsQuota(s: State, ok: bool, s': State, base: nat)
    requires QuotaOk(s, base) && CountsQuota(s, ok) == Some(s')
    ensures QuotaOk(s', base)
  {
    if ok {
      TotalAfterCount(s.quota, s.today, s.today + 1);
    }
  }

  lemma TickKeepsQuota(s: State, now: Time, today: Day, s': State, base: nat)
    requires QuotaOk(s, base) && OtherNext(s, Tick(now, today)) == Some(s')
    ensures QuotaOk(s', base)
  {
    TotalOfNoMoreDays(s.quota, s.today + 1, today + 1);
  }

  lemma StepKeepsQuota(s: State, st: Step, s': State, base: nat)
    requires QuotaOk(s, base) && Next(s, st) == Some(s')
    ensures QuotaOk(s', base)
  {
    match st {
      case J(js) => QuotaUntouched(s, s', base);
      case T(ts) =>
        if !TweetCounts(ts) {
          QuotaUntouched(s, s', base);
        } else {
          match ts {
            case TweetCheck(ok) => CheckKeepsQuota(s, ok, s', base);
            case TweetReturn(outcome) => ReturnKeepsQuota(s, outcome, s', base);
            case TweetCount(ok) => CountKeepsQuota(s, ok, s', base);
          }
        }
      case O(os) =>
        if os.Tick? {
          TickKeepsQuota(s, os.now, os.today, s', base);
        } else {
          OtherKeepsDay(s, os, s');
          QuotaUntouched(s, s', base);
        }
    }
  }

  lemma OtherKeepsDay(s: State, st: OtherStep, s': State)
    requires OtherNext(s, st) == Some(s') && !st.Tick?
    ensures s'.today == s.today
  {
  }

  lemma LinkKeepsQuota(run: seq<State>, steps: seq<Step>, i: nat, base: nat)
    requires IsRun(run, steps) && i < |steps| && QuotaOk(run[i], base)
    ensures QuotaOk(run[i + 1], base)
  {
    assert Link(run, steps, i);
    StepKeepsQuota(run[i], steps[i], run[i + 1], base);
  }

  lemma {:induction false} RunKeepsQuota(run: seq<State>, steps: seq<Step>, i: nat, base: nat)
    requires IsRun(run, steps) && i <= |steps| && QuotaOk(run[0], base)
    ensures QuotaOk(run[i], base)
  {
    if i == 0 {
      return;
    }
    RunKeepsQuota(run, steps, i - 1, base);
    LinkKeepsQuota(run, steps, i - 1, base);
  }

  /** Daily quota: in every run, whatever is scored across midnight, no day's count exceeds the limit (or 0, if
      the limit is negative) by more than the number of times the quota could not be read; and all days
      together hold what they held at the start plus the successful scorings, less the increments that failed
      and the one that may be under way. */
  lemma DailyQuotaHolds(s0: State, s: State)
    requires Init(s0) && Reaches(s0, s)
    ensures forall d :: d in s.quota ==> d <= s.today && s.quota[d] <= Cap(s.cfg) + s.hist.unchecked
    ensures Total(s.quota, s.today + 1) + s.hist.uncounted + (if Owes(s.tl) == Count then 1 else 0)
            == Total(s0.quota, s0.today + 1) + s.hist.scorings
  {
    var run, steps :| IsRun(run, steps) && run[0] == s0 && run[|steps|] == s;
    QuotaAtStart(s0);
    RunKeepsQuota(run, steps, |steps|, Total(s0.quota, s0.today + 1));
  }

  /** With reliable reads of the quota the limit itself holds on every day. */
  lemma DailyQuotaWithReliableReads(s: State, d: Day)
    requires Reachable(s) && s.hist.unchecked == 0
    ensures Quota(s.quota, d) <= Cap(s.cfg)
  {
    var s0 :| Init(s0) && Reaches(s0, s);
    DailyQuotaHolds(s0, s);
  }
}
