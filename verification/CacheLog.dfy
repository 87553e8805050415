/** What a job's log says of its cache entry: whose object the cache holds, whose was last handed over, and what
  came in between when the two are not the same. */
module CacheLogs {
  import opened Model
  import opened Pipeline

  type Log = seq<CacheEvent>

  function LastStorer(log: Log): Option<Actor> {
    if log == [] then None
    else if log[|log| - 1].Stores? then Some(log[|log| - 1].who)
    else LastStorer(log[..|log| - 1])
  }

  function LastGiver(log: Log): Option<Actor> {
    if log == [] then None
    else if log[|log| - 1].Hands? then Some(log[|log| - 1].who)
    else LastGiver(log[..|log| - 1])
  }

  /** `who` is between the two halves of an update. */
  predicate Open(log: Log, who: Actor) {
    log != [] && if log[|log| - 1].who == who then log[|log| - 1].Stores? else Open(log[..|log| - 1], who)
  }

  predicate OfLoop(who: Actor) {
    who.JobWorker? || who.TweetWorker?
  }

  predicate NoLoops(log: Log) {
    forall i :: 0 <= i < |log| ==> !OfLoop(log[i].who)
  }

  /** The upload comes before the loops' updates; a loop's halves alternate; readers hand nothing over. */
  predicate Fits(before: Log, e: CacheEvent) {
    match e.who
    case Uploader => NoLoops(before)
    case Reader => e.Stores?
    case _ => Stores(Uploader) in before && (e.Hands? <==> Open(before, e.who))
  }

  predicate WellFormed(log: Log) {
    log == [] || (WellFormed(log[..|log| - 1]) && Fits(log[..|log| - 1], log[|log| - 1]))
  }

  lemma Appended(log: Log, e: CacheEvent)
    ensures LastStorer(log + [e]) == if e.Stores? then Some(e.who) else LastStorer(log)
    ensures LastGiver(log + [e]) == if e.Hands? then Some(e.who) else LastGiver(log)
    ensures forall who :: Open(log + [e], who) == if e.who == who then e.Stores? else Open(log, who)
    ensures WellFormed(log) && Fits(log, e) ==> WellFormed(log + [e])
    ensures NoLoops(log) && !OfLoop(e.who) ==> NoLoops(log + [e])
  {
    assert (log + [e])[..|log|] == log;
  }

  // ------------------------------------------------------------------ overtaken updates

  /** At `f` the update begins that was last handed over. */
  predicate LastUpdateFrom(log: Log, f: nat) {
    && f < |log| && log[f].Stores? && LastGiver(log) == Some(log[f].who)
    && forall i :: f < i < |log| ==> log[i] != log[f]
  }

  predicate ReadSince(log: Log, f: nat) {
    exists g :: f < g < |log| && log[g] == Stores(Reader)
  }

  /** An update of somebody else, from `g` to `h`, lies within the one from `f` to `p`. */
  predicate Within(log: Log, f: nat, g: nat, h: nat, p: nat) {
    && f < g < h < p < |log| && log[g].Stores? && log[g].who != log[f].who
    && log[h] == Hands(log[g].who) && log[p] == Hands(log[f].who)
  }

  /** While the update last handed over was under way another one began and ended; or a reader has stored the job
      since that update reached the cache. */
  ghost predicate Overtaken(log: Log) {
    exists f :: LastUpdateFrom(log, f) && (ReadSince(log, f) || exists g, h, p :: Within(log, f, g, h, p))
  }

  lemma {:induction false} StorerAt(log: Log) returns (g: nat)
    requires LastStorer(log).Some?
    ensures g < |log| && log[g] == Stores(LastStorer(log).value) && forall i :: g < i < |log| ==> log[i].Hands?
  {
    if log[|log| - 1].Stores? {
      g := |log| - 1;
    } else {
      g := StorerAt(log[..|log| - 1]);
    }
  }

  lemma {:induction false} GiverAt(log: Log) returns (p: nat)
    requires LastGiver(log).Some?
    ensures p < |log| && log[p] == Hands(LastGiver(log).value) && forall i :: p < i < |log| ==> log[i].Stores?
  {
    if log[|log| - 1].Hands? {
      p := |log| - 1;
    } else {
      p := GiverAt(log[..|log| - 1]);
    }
  }

  lemma {:induction false} LastOf(log: Log, e: CacheEvent) returns (f: nat)
    requires e in log
    ensures f < |log| && log[f] == e && forall i :: f < i < |log| ==> log[i] != e
  {
    if log[|log| - 1] == e {
      f := |log| - 1;
    } else {
      f := LastOf(log[..|log| - 1], e);
    }
  }

  lemma {:induction false} Closed(log: Log, who: Actor, g: nat) returns (h: nat)
    requires !Open(log, who) && g < |log| && log[g] == Stores(who)
    ensures g < h < |log| && log[h] == Hands(who)
  {
    if log[|log| - 1].who == who {
      h := |log| - 1;
    } else {
      h := Closed(log[..|log| - 1], who, g);
    }
  }

  lemma {:induction false} OpenStored(log: Log, who: Actor)
    requires Open(log, who)
    ensures Stores(who) in log
  {
    if log[|log| - 1].who == who {
    } else {
      OpenStored(log[..|log| - 1], who);
    }
  }

  lemma {:induction false} FitsAt(log: Log, i: nat)
    requires WellFormed(log) && i < |log|
    ensures Fits(log[..i], log[i])
  {
    if i == |log| - 1 {
    } else {
      FitsAt(log[..|log| - 1], i);
      assert log[..|log| - 1][..i] == log[..i];
    }
  }

  lemma GiverStored(log: Log)
    requires WellFormed(log) && LastGiver(log).Some? && (LastGiver(log) == Some(Uploader) ==> Stores(Uploader) in log)
    ensures Stores(LastGiver(log).value) in log && LastGiver(log) != Some(Reader)
  {
    var p := GiverAt(log);
    FitsAt(log, p);
    if LastGiver(log) != Some(Uploader) {
      OpenStored(log[..p], LastGiver(log).value);
    }
  }

  lemma GivenByUploader(log: Log)
    requires WellFormed(log) && NoLoops(log) && LastGiver(log).Some?
    ensures LastGiver(log) == Some(Uploader)
  {
    var p := GiverAt(log);
    FitsAt(log, p);
  }

  /** Between updates, the one who stored last is not the one who last handed over exactly if the update last
      handed over has been overtaken. */
  lemma OvertakenIff(log: Log)
    requires WellFormed(log) && !Open(log, JobWorker) && !Open(log, TweetWorker)
    requires LastStorer(log).Some? && LastGiver(log).Some? && Stores(Uploader) in log
    ensures LastStorer(log) != LastGiver(log) <==> Overtaken(log)
  {
    var g := StorerAt(log);
    var p := GiverAt(log);
    if LastStorer(log) != LastGiver(log) {
      GiverStored(log);
      var f := LastOf(log, Stores(LastGiver(log).value));
      assert LastUpdateFrom(log, f);
      FitsAt(log, g);
      if log[g].who == Reader {
        assert ReadSince(log, f);
      } else {
        assert f < g && log[..g][f] == log[f];
        var h := Closed(log, log[g].who, g);
        assert Within(log, f, g, h, p);
      }
    }
  }
}
