/** The deterministic filters of phase 2. */
module Filters {
  import opened Model

  datatype FilterReason = BlockedPhrase | Threat | HateSpeech

  const THREATS := ["kill yourself", "kys", "go die", "should die", "i'll kill you", "going to kill", "threaten to"]
  const SEVERE := ["deserves to die", "should be killed"]

  function LowerChar(c: char): char {
    if 'A' <= c <= 'Z' then (c as int - 'A' as int + 'a' as int) as char else c
  }

  function Lower(s: string): string {
    seq(|s|, i requires 0 <= i < |s| => LowerChar(s[i]))
  }

  const UPPER := "ABCDEFGHIJKLMNOPQRSTUVWXYZ"
  const LOWER := "abcdefghijklmnopqrstuvwxyz"

  /** Capital letters become the small ones, and nothing else changes. */
  lemma LowerByTable(s: string, i: nat)
    requires i < |s|
    ensures |UPPER| == |LOWER| == 26 && |Lower(s)| == |s|
    ensures s[i] !in UPPER ==> Lower(s)[i] == s[i]
    ensures forall k :: 0 <= k < 26 && s[i] == UPPER[k] ==> Lower(s)[i] == LOWER[k]
  {
    AlphabetsInOrder();
    if 'A' <= s[i] <= 'Z' {
      assert UPPER[s[i] as int - 'A' as int] == s[i];
    }
  }

  lemma AlphabetsInOrder()
    ensures |UPPER| == |LOWER| == 26
    ensures forall k :: 0 <= k < 26 ==> UPPER[k] as int == 'A' as int + k && LOWER[k] as int == 'a' as int + k
  {
  }

  /** A phrase of the policy occurs; empty phrases are skipped. */
  predicate Blocks(phrase: string, lowered: string) {
    phrase != "" && Contains(lowered, Lower(phrase))
  }

  predicate AnyIn(patterns: seq<string>, lowered: string) {
    exists i :: 0 <= i < |patterns| && Contains(lowered, patterns[i])
  }

  /** The first phrase of the policy that occurs. */
  function FirstBlocking(phrases: seq<string>, lowered: string): Option<string> {
    if phrases == [] then None
    else if Blocks(phrases[0], lowered) then Some(phrases[0])
    else FirstBlocking(phrases[1..], lowered)
  }

  lemma {:induction false} FirstBlockingIsFirst(phrases: seq<string>, lowered: string)
    ensures match FirstBlocking(phrases, lowered)
            case None => forall i :: 0 <= i < |phrases| ==> !Blocks(phrases[i], lowered)
            case Some(p) => exists i :: 0 <= i < |phrases| && phrases[i] == p && Blocks(p, lowered)
                                        && forall j :: 0 <= j < i ==> !Blocks(phrases[j], lowered)
  {
    if phrases == [] {
    } else if Blocks(phrases[0], lowered) {
      assert phrases[0] == FirstBlocking(phrases, lowered).value;
    } else {
      FirstBlockingIsFirst(phrases[1..], lowered);
      if FirstBlocking(phrases, lowered).Some? {
        var i :| 0 <= i < |phrases[1..]| && phrases[1..][i] == FirstBlocking(phrases, lowered).value
                 && forall j :: 0 <= j < i ==> !Blocks(phrases[1..][j], lowered);
        assert phrases[i + 1] == FirstBlocking(phrases, lowered).value;
        assert forall j :: 1 <= j < i + 1 ==> phrases[j] == phrases[1..][j - 1];
      } else {
        assert forall j :: 1 <= j < |phrases| ==> phrases[j] == phrases[1..][j - 1];
      }
    }
  }

  /** What is recorded of a flagged text. */
  datatype Finding = Finding(filterReason: FilterReason, score: real, reason: string)

  /** Why a text is flagged, if it is; without a policy nothing is. */
  function FilterVerdict(policy: Option<seq<string>>, text: string): Option<Finding> {
    match policy
    case None => None
    case Some(phrases) =>
      var lowered := Lower(text);
      var phrase := FirstBlocking(phrases, lowered);
      if phrase.Some? then Some(Finding(BlockedPhrase, 1.0, "Contains blocked phrase: " + phrase.value))
      else if AnyIn(THREATS, lowered) then Some(Finding(Threat, 1.0, "Contains threatening language"))
      else if AnyIn(SEVERE, lowered) then Some(Finding(HateSpeech, 0.95, "Contains hate speech patterns"))
      else None
  }

  ghost predicate BlockedFrom(phrases: seq<string>, text: string, i: nat) {
    && i < |phrases| && phrases[i] != "" && Contains(Lower(text), Lower(phrases[i]))
    && forall j :: 0 <= j < i ==> phrases[j] == "" || !Contains(Lower(text), Lower(phrases[j]))
  }

  predicate NoneBlocks(phrases: seq<string>, text: string) {
    forall p :: p in phrases ==> p == "" || !Contains(Lower(text), Lower(p))
  }

  predicate SomeIn(patterns: seq<string>, text: string) {
    exists p :: p in patterns && Contains(Lower(text), p)
  }

  /** The verdict on a text, told by what it contains, whatever the case of its letters: the first phrase of the policy
      that is not empty and occurs, or else a threat, or else hate speech. */
  ghost predicate IsVerdict(policy: Option<seq<string>>, text: string, verdict: Option<Finding>) {
    match policy
    case None => verdict == None
    case Some(phrases) =>
      if !NoneBlocks(phrases, text) then
        exists i :: 0 <= i && BlockedFrom(phrases, text, i)
                    && verdict == Some(Finding(BlockedPhrase, 1.0, "Contains blocked phrase: " + phrases[i]))
      else if SomeIn(THREATS, text) then verdict == Some(Finding(Threat, 1.0, "Contains threatening language"))
      else if SomeIn(SEVERE, text) then verdict == Some(Finding(HateSpeech, 0.95, "Contains hate speech patterns"))
      else verdict == None
  }

  lemma AnyIsSome(patterns: seq<string>, text: string)
    ensures AnyIn(patterns, Lower(text)) <==> SomeIn(patterns, text)
  {
    if p :| p in patterns && Contains(Lower(text), p) {
      var i :| 0 <= i < |patterns| && patterns[i] == p;
      assert Contains(Lower(text), patterns[i]);
    }
  }

  lemma VerdictExact(policy: Option<seq<string>>, text: string)
    ensures IsVerdict(policy, text, FilterVerdict(policy, text))
  {
    if policy.Some? {
      var phrases := policy.value;
      FirstBlockingIsFirst(phrases, Lower(text));
      AnyIsSome(THREATS, text);
      AnyIsSome(SEVERE, text);
      if FirstBlocking(phrases, Lower(text)).Some? {
        var i :| 0 <= i < |phrases| && phrases[i] == FirstBlocking(phrases, Lower(text)).value
                 && Blocks(phrases[i], Lower(text)) && forall j :: 0 <= j < i ==> !Blocks(phrases[j], Lower(text));
        assert BlockedFrom(phrases, text, i);
      } else {
        assert NoneBlocks(phrases, text);
      }
    }
  }

  lemma LowerTwice(s: string)
    ensures Lower(Lower(s)) == Lower(s)
  {
  }

  /** The filters are blind to the case of letters in the text. */
  lemma CaseDoesNotMatter(policy: Option<seq<string>>, text: string, other: string)
    requires Lower(text) == Lower(other)
    ensures FilterVerdict(policy, text) == FilterVerdict(policy, other)
    ensures FilterVerdict(policy, Lower(text)) == FilterVerdict(policy, text)
  {
    LowerTwice(text);
  }

  /** Three loops with early return. */
  method ApplyFilters(policy: Option<seq<string>>, text: string) returns (verdict: Option<Finding>)
    ensures verdict == FilterVerdict(policy, text)
    ensures IsVerdict(policy, text, verdict)
  {
    VerdictExact(policy, text);
    if policy.None? {
      return None;
    }
    var phrases := policy.value;
    var lowered := Lower(text);
    for i := 0 to |phrases|
      invariant FirstBlocking(phrases, lowered) == FirstBlocking(phrases[i..], lowered)
    {
      if Blocks(phrases[i], lowered) {
        return Some(Finding(BlockedPhrase, 1.0, "Contains blocked phrase: " + phrases[i]));
      }
    }
    for i := 0 to |THREATS|
      invariant forall m :: 0 <= m < i ==> !Contains(lowered, THREATS[m])
    {
      if Contains(lowered, THREATS[i]) {
        return Some(Finding(Threat, 1.0, "Contains threatening language"));
      }
    }
    for i := 0 to |SEVERE|
      invariant forall m :: 0 <= m < i ==> !Contains(lowered, SEVERE[m])
    {
      if Contains(lowered, SEVERE[i]) {
        return Some(Finding(HateSpeech, 0.95, "Contains hate speech patterns"));
      }
    }
    verdict := None;
  }
}
